/**
 * The abstract syntax tree (ocm-compiler/src/parser.h): a leaf holding a
 * literal, or a binary node holding an operator and exactly two children.
 * The C nodes are heap cells; here the tree is an inductive value, so it is
 * finite, acyclic and strictly binary by construction.
 */
module Ast {
  /** The four binary operators; the C node stores the operator token's type. */
  datatype BinOp = Add | Sub | Mul | Div

  datatype Expr = Num(value: nat) | Bin(op: BinOp, left: Expr, right: Expr)

  /** Number of leaves (literals). */
  function Leaves(e: Expr): nat
  {
    match e
    case Num(_) => 1
    case Bin(_, l, r) => Leaves(l) + Leaves(r)
  }

  /** Number of interior (operator) nodes. */
  function Operators(e: Expr): nat
  {
    match e
    case Num(_) => 0
    case Bin(_, l, r) => Operators(l) + Operators(r) + 1
  }

  /** Number of nodes of the tree. */
  function Size(e: Expr): (n: nat)
    ensures n == Leaves(e) + Operators(e)
  {
    match e
    case Num(_) => 1
    case Bin(_, l, r) => Size(l) + Size(r) + 1
  }

  /** The value of the leftmost leaf. */
  function Leftmost(e: Expr): nat
  {
    match e
    case Num(v) => v
    case Bin(_, l, _) => Leftmost(l)
  }

  /** A strictly binary tree has one leaf more than it has operators. */
  lemma {:induction false} LeavesOutnumberOperators(e: Expr)
    ensures Leaves(e) == Operators(e) + 1
  {
    match e
    case Num(_) =>
    case Bin(_, l, r) =>
      LeavesOutnumberOperators(l);
      LeavesOutnumberOperators(r);
  }
}
