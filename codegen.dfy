/**
 * The code generator (ocm-compiler/src/codegen.c): a post-order walk of the
 * tree that emits a push-immediate instruction for each leaf and one opcode
 * per operator node. The C code writes each instruction as a line of text;
 * here the output is the sequence of instructions.
 *
 * To state what the output means, the module also defines a stack machine
 * that runs instructions (Run) and an evaluator for trees (Eval). Neither
 * exists in the C code: they are the reference the output is proved against.
 */
module Codegen {
  import opened Wrappers
  import opened Opcodes
  import opened Ast

  /** The push-immediate opcode written before each literal. */
  const PushImmediate: Byte := 0x01

  /** One output line: `0x01 <value>`, or a bare operator opcode. */
  datatype Instr = Push(value: nat) | Op(opcode: Byte)

  /** The operator-to-opcode table the code generator uses. */
  function Opcode(op: BinOp): (b: Byte)
    ensures b in ArithmeticOpcodes()
    ensures b != PushImmediate
  {
    match op
    case Add => OpcodeAdd
    case Sub => OpcodeSub
    case Mul => OpcodeMul
    case Div => OpcodeDiv
  }

  /** Decoding an operator opcode; any other byte decodes to nothing. */
  function DecodeOpcode(b: Byte): (r: Option<BinOp>)
    ensures r.Some? ==> Opcode(r.value) == b
  {
    if b == OpcodeAdd then Some(Add)
    else if b == OpcodeSub then Some(Sub)
    else if b == OpcodeMul then Some(Mul)
    else if b == OpcodeDiv then Some(Div)
    else None
  }

  /** The opcode table is total and injective, and decoding inverts it. */
  lemma OpcodeRoundTrip(op: BinOp, op': BinOp)
    ensures DecodeOpcode(Opcode(op)) == Some(op)
    ensures Opcode(op) == Opcode(op') ==> op == op'
  {
  }

  /** The exact opcode of each operator. */
  lemma OpcodeValues()
    ensures Opcode(Add) == 0x11 && Opcode(Sub) == 0x12 && Opcode(Mul) == 0x13 && Opcode(Div) == 0x14
  {
  }

  /** generate_code: the left operand's code, the right operand's, then the operator. */
  function GenerateCode(e: Expr): (code: seq<Instr>)
    ensures |code| == Size(e)
    ensures code[0] == Push(Leftmost(e))
    ensures code[|code| - 1] == if e.Num? then Push(e.value) else Op(Opcode(e.op))
  {
    match e
    case Num(v) => [Push(v)]
    case Bin(op, l, r) => GenerateCode(l) + GenerateCode(r) + [Op(Opcode(op))]
  }

  function CountPushes(code: seq<Instr>): nat
  {
    if |code| == 0 then 0 else CountPushes(code[..|code| - 1]) + (if code[|code| - 1].Push? then 1 else 0)
  }

  lemma {:induction false} CountPushesAppend(a: seq<Instr>, b: seq<Instr>)
    ensures CountPushes(a + b) == CountPushes(a) + CountPushes(b)
    decreases |b|
  {
    if |b| > 0 {
      assert (a + b)[..|a + b| - 1] == a + b[..|b| - 1];
      CountPushesAppend(a, b[..|b| - 1]);
    } else {
      assert a + b == a;
    }
  }

  /** One push per leaf and one operator instruction per interior node. */
  lemma {:induction false} InstructionCounts(e: Expr)
    ensures CountPushes(GenerateCode(e)) == Leaves(e)
    ensures |GenerateCode(e)| - CountPushes(GenerateCode(e)) == Operators(e)
  {
    match e
    case Num(_) =>
      assert GenerateCode(e)[..0] == [];
    case Bin(op, l, r) =>
      InstructionCounts(l);
      InstructionCounts(r);
      CountPushesAppend(GenerateCode(l), GenerateCode(r));
      CountPushesAppend(GenerateCode(l) + GenerateCode(r), [Op(Opcode(op))]);
      assert [Op(Opcode(op))][..0] == [];
  }

  /**
   * The stack depth after running code from depth d, or None if some operator
   * instruction finds fewer than two cells.
   */
  function Depth(code: seq<Instr>, d: nat): Option<nat>
    decreases |code|
  {
    if |code| == 0 then Some(d)
    else match code[0]
      case Push(_) => Depth(code[1..], d + 1)
      case Op(_) => if d < 2 then None else Depth(code[1..], d - 1)
  }

  /** The code of a tree never underflows the stack and leaves exactly one more cell. */
  lemma {:induction false} DepthOfCode(e: Expr, rest: seq<Instr>, d: nat)
    ensures Depth(GenerateCode(e) + rest, d) == Depth(rest, d + 1)
  {
    match e
    case Num(v) =>
      assert (GenerateCode(e) + rest)[1..] == rest;
    case Bin(op, l, r) =>
      var tail := [Op(Opcode(op))] + rest;
      assert GenerateCode(e) + rest == GenerateCode(l) + (GenerateCode(r) + tail);
      DepthOfCode(l, GenerateCode(r) + tail, d);
      DepthOfCode(r, tail, d + 1);
      assert tail[1..] == rest;
  }

  /** Run from an empty stack, the code of any tree ends with exactly one cell. */
  lemma StackDiscipline(e: Expr)
    ensures Depth(GenerateCode(e), 0) == Some(1)
  {
    DepthOfCode(e, [], 0);
    assert GenerateCode(e) + [] == GenerateCode(e);
  }

  /** Division truncating toward zero, as C's `/` on int does. */
  function TruncDiv(a: int, b: int): (q: int)
    requires b != 0
    ensures 0 <= a && 0 < b ==> q == a / b
  {
    var q := (if a < 0 then -a else a) / (if b < 0 then -b else b);
    if (a < 0) == (b < 0) then q else -q
  }

  /** The value of one operator on two operands; None for a zero divisor. */
  function Apply(op: BinOp, a: int, b: int): Option<int>
  {
    match op
    case Add => Some(a + b)
    case Sub => Some(a - b)
    case Mul => Some(a * b)
    case Div => if b == 0 then None else Some(TruncDiv(a, b))
  }

  /** The value of a tree; None when some division has a zero divisor. */
  function Eval(e: Expr): Option<int>
  {
    match e
    case Num(v) => Some(v)
    case Bin(op, l, r) =>
      match (Eval(l), Eval(r))
      case (Some(a), Some(b)) => Apply(op, a, b)
      case _ => None
  }

  /**
   * The model stack machine: the top of the stack is the last element. A push
   * appends its literal; an operator pops the right operand (the top), then
   * the left one, and pushes the result. None for an underflow, an unknown
   * opcode or a zero divisor.
   */
  function Run(code: seq<Instr>, stack: seq<int>): Option<seq<int>>
    decreases |code|
  {
    if |code| == 0 then Some(stack)
    else match code[0]
      case Push(v) => Run(code[1..], stack + [v])
      case Op(b) =>
        if |stack| < 2 || DecodeOpcode(b).None? then None
        else match Apply(DecodeOpcode(b).value, stack[|stack| - 2], stack[|stack| - 1])
          case None => None
          case Some(x) => Run(code[1..], stack[..|stack| - 2] + [x])
  }

  /**
   * Running a tree's code pushes the tree's value and leaves the stack below
   * untouched; the machine fails exactly when evaluating the tree does.
   */
  lemma {:induction false} RunCode(e: Expr, rest: seq<Instr>, stack: seq<int>)
    ensures Run(GenerateCode(e) + rest, stack) ==
      match Eval(e) case Some(x) => Run(rest, stack + [x]) case None => None
  {
    match e
    case Num(v) =>
      assert (GenerateCode(e) + rest)[1..] == rest;
    case Bin(op, l, r) =>
      var tail := [Op(Opcode(op))] + rest;
      assert GenerateCode(e) + rest == GenerateCode(l) + (GenerateCode(r) + tail);
      RunCode(l, GenerateCode(r) + tail, stack);
      match Eval(l)
      case None =>
      case Some(a) =>
        RunCode(r, tail, stack + [a]);
        match Eval(r)
        case None =>
        case Some(b) =>
          var s := stack + [a] + [b];
          assert s[..|s| - 2] == stack && s[|s| - 2] == a && s[|s| - 1] == b;
          assert tail[1..] == rest;
          OpcodeRoundTrip(op, op);
  }

  /** The code of a tree whose divisions are defined computes the tree's value. */
  lemma CodeComputesValue(e: Expr)
    requires Eval(e).Some?
    ensures Run(GenerateCode(e), []) == Some([Eval(e).value])
  {
    RunCode(e, [], []);
    assert GenerateCode(e) + [] == GenerateCode(e);
    assert [] + [Eval(e).value] == [Eval(e).value];
  }
}
