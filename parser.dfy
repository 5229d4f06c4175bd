/**
 * The recursive-descent parser (ocm-compiler/src/parser.c) for
 *
 *   expression := term (('+' | '-') term)*
 *   term       := primary (('*' | '/') primary)*
 *   primary    := NUMBER
 *
 * The grammar is first given as functions over the token stream the lexer
 * produces (Lexing.Tokens). The parsing methods, which drive a Lexer object
 * with PeekToken/NextToken as the C code does, are proved to agree with
 * those functions.
 */
module Parser {
  import opened Ast
  import opened Lexing

  /** Why a parse failed: a primary found something other than a number. */
  datatype ParseError = ExpectedNumber(found: Token)

  datatype Result<+T> = Ok(value: T) | Err(error: ParseError)

  predicate IsAddOp(t: Token)
  {
    t == Plus || t == Minus
  }

  predicate IsMulOp(t: Token)
  {
    t == Multiply || t == Divide
  }

  /** The operator a binary node stores for an operator token. */
  function OperatorOf(t: Token): (op: BinOp)
    requires IsOperator(t)
    ensures OperatorToken(op) == t
  {
    match t
    case Plus => Add
    case Minus => Sub
    case Multiply => Mul
    case Divide => Div
  }

  /** The token an operator is written with. */
  function OperatorToken(op: BinOp): Token
  {
    match op
    case Add => Plus
    case Sub => Minus
    case Mul => Multiply
    case Div => Divide
  }

  /** In-order flattening of a tree back into the tokens it was written with. */
  function Flatten(e: Expr): seq<Token>
  {
    match e
    case Num(v) => [Number(v)]
    case Bin(op, l, r) => Flatten(l) + [OperatorToken(op)] + Flatten(r)
  }

  /** A tree `term` can produce: left-deep products and quotients of literals. */
  predicate IsTerm(e: Expr)
  {
    match e
    case Num(_) => true
    case Bin(op, l, r) => (op == Mul || op == Div) && IsTerm(l) && r.Num?
  }

  /** A tree `expression` can produce: left-deep sums and differences of terms. */
  predicate IsExpression(e: Expr)
  {
    match e
    case Num(_) => true
    case Bin(op, l, r) =>
      if op == Mul || op == Div then IsTerm(e)
      else IsExpression(l) && IsTerm(r)
  }

  /** The next token of a stream; an exhausted stream reads as EOF. */
  function Peek(ts: seq<Token>): Token
  {
    if |ts| == 0 then EOF else ts[0]
  }

  /** primary: consume one token; a number gives a leaf, anything else fails. */
  function Primary(ts: seq<Token>): (r: Result<(Expr, seq<Token>)>)
    ensures r.Ok? <==> Peek(ts).Number?
    ensures r.Ok? ==> ts == Flatten(r.value.0) + r.value.1 && r.value.0.Num?
    ensures r.Err? ==> r.error == ExpectedNumber(Peek(ts))
  {
    match Peek(ts)
    case Number(v) => Ok((Num(v), ts[1..]))
    case t => Err(ExpectedNumber(t))
  }

  /** The loop of term: fold `(* | /) primary` pairs onto the accumulated tree. */
  function MoreFactors(acc: Expr, ts: seq<Token>): (r: Result<(Expr, seq<Token>)>)
    requires IsTerm(acc)
    ensures r.Ok? ==> Flatten(acc) + ts == Flatten(r.value.0) + r.value.1
    ensures r.Ok? ==> IsTerm(r.value.0) && !IsMulOp(Peek(r.value.1))
    ensures r.Err? ==> !r.error.found.Number?
    decreases |ts|
  {
    var t := Peek(ts);
    if IsMulOp(t) then
      match Primary(ts[1..])
      case Err(err) => Err(err)
      case Ok((right, rest)) => MoreFactors(Bin(OperatorOf(t), acc, right), rest)
    else
      Ok((acc, ts))
  }

  /** term := primary (('*' | '/') primary)* */
  function Term(ts: seq<Token>): (r: Result<(Expr, seq<Token>)>)
    ensures r.Ok? ==> ts == Flatten(r.value.0) + r.value.1
    ensures r.Ok? ==> IsTerm(r.value.0) && !IsMulOp(Peek(r.value.1))
    ensures r.Err? ==> !r.error.found.Number?
  {
    match Primary(ts)
    case Err(err) => Err(err)
    case Ok((first, rest)) => MoreFactors(first, rest)
  }

  /** The loop of expression: fold `(+ | -) term` pairs onto the accumulated tree. */
  function MoreTerms(acc: Expr, ts: seq<Token>): (r: Result<(Expr, seq<Token>)>)
    requires IsExpression(acc)
    ensures r.Ok? ==> Flatten(acc) + ts == Flatten(r.value.0) + r.value.1
    ensures r.Ok? ==> IsExpression(r.value.0) && !IsAddOp(Peek(r.value.1))
    ensures r.Ok? && !IsMulOp(Peek(ts)) ==> !IsMulOp(Peek(r.value.1))
    ensures r.Err? ==> !r.error.found.Number?
    decreases |ts|
  {
    var t := Peek(ts);
    if IsAddOp(t) then
      match Term(ts[1..])
      case Err(err) => Err(err)
      case Ok((right, rest)) => MoreTerms(Bin(OperatorOf(t), acc, right), rest)
    else
      Ok((acc, ts))
  }

  /** expression := term (('+' | '-') term)* */
  function Expression(ts: seq<Token>): (r: Result<(Expr, seq<Token>)>)
    ensures r.Ok? ==> ts == Flatten(r.value.0) + r.value.1
    ensures r.Ok? ==> IsExpression(r.value.0) && !IsOperator(Peek(r.value.1))
    ensures r.Err? ==> !r.error.found.Number?
  {
    match Term(ts)
    case Err(err) => Err(err)
    case Ok((first, rest)) => MoreTerms(first, rest)
  }

  /** Parsing the tokens of a term tree reaches the loop of term with that very tree. */
  lemma {:induction false} TermOfFlatten(e: Expr, rest: seq<Token>)
    requires IsTerm(e)
    ensures Term(Flatten(e) + rest) == MoreFactors(e, rest)
  {
    match e
    case Num(v) =>
      assert (Flatten(e) + rest)[1..] == rest;
    case Bin(op, l, r) =>
      var opRest := [OperatorToken(op)] + Flatten(r) + rest;
      assert Flatten(e) + rest == Flatten(l) + opRest;
      TermOfFlatten(l, opRest);
      assert opRest[1..] == Flatten(r) + rest;
      assert Primary(opRest[1..]) == Ok((r, rest)) by {
        assert (Flatten(r) + rest)[1..] == rest;
      }
  }

  /** Parsing the tokens of a term tree gives the tree back when no `*` or `/` follows. */
  lemma TermRoundTrip(e: Expr, rest: seq<Token>)
    requires IsTerm(e) && !IsMulOp(Peek(rest))
    ensures Term(Flatten(e) + rest) == Ok((e, rest))
  {
    TermOfFlatten(e, rest);
  }

  /** Parsing the tokens of an expression tree reaches the loop of expression with that very tree. */
  lemma {:induction false} ExpressionOfFlatten(e: Expr, rest: seq<Token>)
    requires IsExpression(e) && !IsMulOp(Peek(rest))
    ensures Expression(Flatten(e) + rest) == MoreTerms(e, rest)
  {
    if IsTerm(e) {
      TermRoundTrip(e, rest);
    } else {
      var Bin(op, l, r) := e;
      var opTok := OperatorToken(op);
      var opRest := [opTok] + (Flatten(r) + rest);
      assert Flatten(e) + rest == Flatten(l) + opRest;
      ExpressionOfFlatten(l, opRest);
      TermRoundTrip(r, rest);
      MoreTermsStep(l, opTok, Flatten(r) + rest, Ok(r), rest);
      assert OperatorOf(opTok) == op;
    }
  }

  /**
   * A parse succeeds with tree e and leftover stream rest exactly when e has
   * the shape the grammar produces, the consumed tokens are e's in-order
   * flattening, and the leftover stream does not start with an operator.
   */
  lemma ExpressionCharacterization(ts: seq<Token>, e: Expr, rest: seq<Token>)
    ensures Expression(ts) == Ok((e, rest)) <==>
      IsExpression(e) && ts == Flatten(e) + rest && !IsOperator(Peek(rest))
  {
    if IsExpression(e) && ts == Flatten(e) + rest && !IsOperator(Peek(rest)) {
      ExpressionOfFlatten(e, rest);
    }
  }

  /**
   * A failure found token ts[k..] where the grammar needs a number: at the
   * start of the stream or right after an operator, and that token is not a
   * number.
   */
  predicate FailsAt(ts: seq<Token>, k: int, err: ParseError)
  {
    0 <= k <= |ts| && (k == 0 || IsOperator(ts[k - 1]))
    && !Peek(ts[k..]).Number? && err == ExpectedNumber(Peek(ts[k..]))
  }

  /** A failed loop of term fails at a primary that follows one of its operators. */
  lemma {:induction false} MoreFactorsFailure(acc: Expr, ts: seq<Token>)
    requires IsTerm(acc) && MoreFactors(acc, ts).Err?
    ensures exists k :: 0 < k && FailsAt(ts, k, MoreFactors(acc, ts).error)
    decreases |ts|
  {
    var t := Peek(ts);
    match Primary(ts[1..])
    case Err(err) =>
      assert ts[1..][0..] == ts[1..];
      assert FailsAt(ts, 1, err);
    case Ok((right, rest)) =>
      var err := MoreFactors(acc, ts).error;
      MoreFactorsFailure(Bin(OperatorOf(t), acc, right), rest);
      var k :| 0 < k && FailsAt(rest, k, err);
      assert rest == ts[2..];
      assert ts[k + 2..] == rest[k..] && ts[k + 1] == rest[k - 1];
      assert FailsAt(ts, k + 2, err);
  }

  /** A failed term fails at its first primary or after one of its operators. */
  lemma TermFailure(ts: seq<Token>)
    requires Term(ts).Err?
    ensures exists k :: FailsAt(ts, k, Term(ts).error)
  {
    match Primary(ts)
    case Err(err) =>
      assert ts[0..] == ts;
      assert FailsAt(ts, 0, err);
    case Ok((first, rest)) =>
      var err := Term(ts).error;
      MoreFactorsFailure(first, rest);
      var k :| 0 < k && FailsAt(rest, k, err);
      assert rest == ts[1..];
      assert ts[k + 1..] == rest[k..] && ts[k] == rest[k - 1];
      assert FailsAt(ts, k + 1, err);
  }

  /** A failed loop of expression fails inside a term that follows one of its operators. */
  lemma {:induction false} MoreTermsFailure(acc: Expr, ts: seq<Token>)
    requires IsExpression(acc) && MoreTerms(acc, ts).Err?
    ensures exists k :: 0 < k && FailsAt(ts, k, MoreTerms(acc, ts).error)
    decreases |ts|
  {
    var t := Peek(ts);
    var err := MoreTerms(acc, ts).error;
    match Term(ts[1..])
    case Err(_) =>
      TermFailure(ts[1..]);
      var k :| FailsAt(ts[1..], k, err);
      assert ts[k + 1..] == ts[1..][k..];
      assert FailsAt(ts, k + 1, err);
    case Ok((right, rest)) =>
      MoreTermsFailure(Bin(OperatorOf(t), acc, right), rest);
      var k :| 0 < k && FailsAt(rest, k, err);
      var n := |Flatten(right)|;
      assert ts[1..] == Flatten(right) + rest;
      assert rest == ts[n + 1..];
      assert ts[k + n + 1..] == rest[k..] && ts[k + n] == rest[k - 1];
      assert FailsAt(ts, k + n + 1, err);
  }

  /**
   * A failed parse reports the token it found where the grammar first needed
   * a number and did not get one: at the start of the stream or right after
   * an operator.
   */
  lemma ExpressionFailure(ts: seq<Token>)
    requires Expression(ts).Err?
    ensures exists k :: FailsAt(ts, k, Expression(ts).error)
  {
    var err := Expression(ts).error;
    match Term(ts)
    case Err(_) =>
      TermFailure(ts);
    case Ok((first, rest)) =>
      MoreTermsFailure(first, rest);
      var k :| 0 < k && FailsAt(rest, k, err);
      var n := |Flatten(first)|;
      assert rest == ts[n..];
      assert ts[k + n..] == rest[k..] && ts[k + n - 1] == rest[k - 1];
      assert FailsAt(ts, k + n, err);
  }

  /**
   * A parsing method's outcome matches a grammar function's: the same tree or
   * the same error, and on success the lexer's remaining stream is the
   * leftover stream.
   */
  predicate Agrees(expected: Result<(Expr, seq<Token>)>, r: Result<Expr>, remaining: seq<Token>)
  {
    match expected
    case Ok((e, rest)) => r == Ok(e) && remaining == rest
    case Err(err) => r == Err(err)
  }

  /** parse_primary: consume one token; a number becomes a leaf, anything else a failure. */
  method ParsePrimary(lex: Lexer) returns (r: Result<Expr>)
    requires lex.Valid()
    modifies lex`pos
    ensures lex.Valid() && old(lex.pos) <= lex.pos
    ensures Agrees(Primary(Tokens(lex.input, old(lex.pos))), r, Tokens(lex.input, lex.pos))
    ensures lex.pos == Scan(lex.input, old(lex.pos)).1
    ensures r == Err(ExpectedNumber(Invalid)) ==> IsInvalidChar(lex.CurrentChar())
  {
    ghost var start := lex.pos;
    var tok := lex.NextToken();
    if tok.Number? {
      TokensUnfold(lex.input, start);
      return Ok(Num(tok.value));
    }
    return Err(ExpectedNumber(tok));
  }

  /** One round of term's loop: an operator token, then a primary. */
  lemma MoreFactorsStep(acc: Expr, op: Token, ts: seq<Token>, right: Result<Expr>, rest: seq<Token>)
    requires IsTerm(acc) && IsMulOp(op)
    requires Agrees(Primary(ts), right, rest)
    ensures right.Err? ==> MoreFactors(acc, [op] + ts) == Err(right.error)
    ensures right.Ok? ==> IsTerm(Bin(OperatorOf(op), acc, right.value))
    ensures right.Ok? ==> MoreFactors(acc, [op] + ts) == MoreFactors(Bin(OperatorOf(op), acc, right.value), rest)
  {
    assert ([op] + ts)[1..] == ts;
  }

  /** The start of term: its first primary. */
  lemma TermStart(ts: seq<Token>, first: Result<Expr>, rest: seq<Token>)
    requires Agrees(Primary(ts), first, rest)
    ensures first.Err? ==> Term(ts) == Err(first.error)
    ensures first.Ok? ==> IsTerm(first.value) && Term(ts) == MoreFactors(first.value, rest)
  {
  }

  /** The start of expression: its first term. */
  lemma ExpressionStart(ts: seq<Token>, first: Result<Expr>, rest: seq<Token>)
    requires Agrees(Term(ts), first, rest)
    ensures first.Err? ==> Expression(ts) == Err(first.error)
    ensures first.Ok? ==> IsExpression(first.value) && Expression(ts) == MoreTerms(first.value, rest)
  {
  }

  /** One round of expression's loop: an operator token, then a term. */
  lemma MoreTermsStep(acc: Expr, op: Token, ts: seq<Token>, right: Result<Expr>, rest: seq<Token>)
    requires IsExpression(acc) && IsAddOp(op)
    requires Agrees(Term(ts), right, rest)
    ensures right.Err? ==> MoreTerms(acc, [op] + ts) == Err(right.error)
    ensures right.Ok? ==> IsExpression(Bin(OperatorOf(op), acc, right.value))
    ensures right.Ok? ==> MoreTerms(acc, [op] + ts) == MoreTerms(Bin(OperatorOf(op), acc, right.value), rest)
  {
    assert ([op] + ts)[1..] == ts;
  }

  /** parse_term: a primary, then `(* | /) primary` pairs folded left-deep. */
  method ParseTerm(lex: Lexer) returns (r: Result<Expr>)
    requires lex.Valid()
    modifies lex`pos
    ensures lex.Valid() && old(lex.pos) <= lex.pos
    ensures Agrees(Term(Tokens(lex.input, old(lex.pos))), r, Tokens(lex.input, lex.pos))
    ensures r == Err(ExpectedNumber(Invalid)) ==> IsInvalidChar(lex.CurrentChar())
  {
    ghost var ts := Tokens(lex.input, lex.pos);
    var first := ParsePrimary(lex);
    TermStart(ts, first, Tokens(lex.input, lex.pos));
    if first.Err? {
      return first;
    }
    var node := first.value;
    while true
      invariant lex.Valid() && old(lex.pos) <= lex.pos
      invariant IsTerm(node)
      invariant Term(ts) == MoreFactors(node, Tokens(lex.input, lex.pos))
      decreases |lex.input| - lex.pos
    {
      var tok := lex.PeekToken();
      if IsMulOp(tok) {
        ghost var afterOp := Scan(lex.input, lex.pos).1;
        TokensUnfold(lex.input, lex.pos);
        var _ := lex.NextToken();  // consume the operator
        var right := ParsePrimary(lex);
        MoreFactorsStep(node, tok, Tokens(lex.input, afterOp), right, Tokens(lex.input, lex.pos));
        if right.Err? {
          return right;
        }
        node := Bin(OperatorOf(tok), node, right.value);
      } else {
        break;
      }
    }
    return Ok(node);
  }

  /** parse_expression: a term, then `(+ | -) term` pairs folded left-deep. */
  method ParseExpression(lex: Lexer) returns (r: Result<Expr>)
    requires lex.Valid()
    modifies lex`pos
    ensures lex.Valid() && old(lex.pos) <= lex.pos
    ensures Agrees(Expression(Tokens(lex.input, old(lex.pos))), r, Tokens(lex.input, lex.pos))
    ensures r == Err(ExpectedNumber(Invalid)) ==> IsInvalidChar(lex.CurrentChar())
  {
    ghost var ts := Tokens(lex.input, lex.pos);
    var first := ParseTerm(lex);
    ExpressionStart(ts, first, Tokens(lex.input, lex.pos));
    if first.Err? {
      return first;
    }
    var node := first.value;
    while true
      invariant lex.Valid() && old(lex.pos) <= lex.pos
      invariant IsExpression(node)
      invariant Expression(ts) == MoreTerms(node, Tokens(lex.input, lex.pos))
      decreases |lex.input| - lex.pos
    {
      var tok := lex.PeekToken();
      if IsAddOp(tok) {
        ghost var afterOp := Scan(lex.input, lex.pos).1;
        TokensUnfold(lex.input, lex.pos);
        var _ := lex.NextToken();  // consume the operator
        var right := ParseTerm(lex);
        MoreTermsStep(node, tok, Tokens(lex.input, afterOp), right, Tokens(lex.input, lex.pos));
        if right.Err? {
          return right;
        }
        node := Bin(OperatorOf(tok), node, right.value);
      } else {
        break;
      }
    }
    return Ok(node);
  }

  /**
   * parse: an expression, with nothing demanded of what follows it. On
   * success the next token is not an operator, but it need not be EOF.
   */
  method Parse(lex: Lexer) returns (r: Result<Expr>)
    requires lex.Valid()
    modifies lex`pos
    ensures lex.Valid() && old(lex.pos) <= lex.pos
    ensures Agrees(Expression(Tokens(lex.input, old(lex.pos))), r, Tokens(lex.input, lex.pos))
    ensures r.Ok? ==> !IsOperator(Scan(lex.input, lex.pos).0)
    ensures r.Err? ==> exists k :: FailsAt(Tokens(lex.input, old(lex.pos)), k, r.error)
    ensures r == Err(ExpectedNumber(Invalid)) ==> IsInvalidChar(lex.CurrentChar())
  {
    ghost var ts := Tokens(lex.input, lex.pos);
    r := ParseExpression(lex);
    if r.Err? {
      ExpressionFailure(ts);
    }
  }

  /** `*` binds tighter than `+`: the tokens of "2+3*4" parse as 2 + (3*4). */
  lemma PrecedenceExample()
    ensures Expression([Number(2), Plus, Number(3), Multiply, Number(4), EOF])
      == Ok((Bin(Add, Num(2), Bin(Mul, Num(3), Num(4))), [EOF]))
  {
    var e := Bin(Add, Num(2), Bin(Mul, Num(3), Num(4)));
    assert Flatten(e) + [EOF] == [Number(2), Plus, Number(3), Multiply, Number(4), EOF];
    ExpressionCharacterization(Flatten(e) + [EOF], e, [EOF]);
  }

  /** A product is the left operand of a sum: the tokens of "2*3+4" parse as (2*3) + 4. */
  lemma ProductFirstExample()
    ensures Expression([Number(2), Multiply, Number(3), Plus, Number(4), EOF])
      == Ok((Bin(Add, Bin(Mul, Num(2), Num(3)), Num(4)), [EOF]))
  {
    var e := Bin(Add, Bin(Mul, Num(2), Num(3)), Num(4));
    assert Flatten(e) + [EOF] == [Number(2), Multiply, Number(3), Plus, Number(4), EOF];
    ExpressionCharacterization(Flatten(e) + [EOF], e, [EOF]);
  }

  /** Every node of a tree, the tree itself included. */
  function Subtrees(e: Expr): (r: set<Expr>)
    ensures e in r
  {
    match e
    case Num(_) => {e}
    case Bin(_, l, r) => {e} + Subtrees(l) + Subtrees(r)
  }

  /**
   * A node binds its right operand tighter than itself: the right operand of
   * a sum or difference is a term, that of a product or quotient a literal.
   */
  predicate RightOperandTighter(e: Expr)
  {
    e.Bin? ==>
      ((e.op == Add || e.op == Sub) ==> IsTerm(e.right)) &&
      ((e.op == Mul || e.op == Div) ==> e.right.Num?)
  }

  lemma {:induction false} TermNodesTighter(e: Expr)
    requires IsTerm(e)
    ensures forall s :: s in Subtrees(e) ==> RightOperandTighter(s)
  {
    match e
    case Num(_) =>
    case Bin(_, l, _) => TermNodesTighter(l);
  }

  lemma {:induction false} ExpressionNodesTighter(e: Expr)
    requires IsExpression(e)
    ensures forall s :: s in Subtrees(e) ==> RightOperandTighter(s)
  {
    match e
    case Num(_) =>
    case Bin(op, l, r) =>
      if op == Mul || op == Div {
        TermNodesTighter(e);
      } else {
        ExpressionNodesTighter(l);
        TermNodesTighter(r);
      }
  }

  /**
   * Left-associativity: at every node of a parsed tree, the right operand of
   * a sum or difference is never itself a sum or difference, and the right
   * operand of a product or quotient is always a literal, so chains of equal
   * precedence nest to the left.
   */
  lemma RightOperandIsTighter(ts: seq<Token>, e: Expr, rest: seq<Token>)
    requires Expression(ts) == Ok((e, rest))
    ensures forall s :: s in Subtrees(e) ==> RightOperandTighter(s)
  {
    ExpressionNodesTighter(e);
  }

  /** Subtraction groups to the left: the tokens of "8-3-2" parse as (8-3) - 2. */
  lemma LeftAssociativityExample()
    ensures Expression([Number(8), Minus, Number(3), Minus, Number(2), EOF])
      == Ok((Bin(Sub, Bin(Sub, Num(8), Num(3)), Num(2)), [EOF]))
  {
    var e := Bin(Sub, Bin(Sub, Num(8), Num(3)), Num(2));
    assert Flatten(e) + [EOF] == [Number(8), Minus, Number(3), Minus, Number(2), EOF];
    ExpressionCharacterization(Flatten(e) + [EOF], e, [EOF]);
  }

  /** Parsing does not demand EOF: in the tokens of "2 3" the `3` is left over. */
  lemma TrailingTokenExample()
    ensures Expression([Number(2), Number(3), EOF]) == Ok((Num(2), [Number(3), EOF]))
  {
    ExpressionCharacterization([Number(2), Number(3), EOF], Num(2), [Number(3), EOF]);
  }

  /** An Invalid token where a number is due fails the parse: the tokens of "2+@". */
  lemma InvalidCharacterExample()
    ensures Expression([Number(2), Plus, Invalid]) == Err(ExpectedNumber(Invalid))
  {
    assert [Number(2), Plus, Invalid][1..] == [Plus, Invalid];
    assert [Plus, Invalid][1..] == [Invalid];
  }
}
