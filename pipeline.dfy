/**
 * The three stages run one after the other on one source text: a fresh lexer
 * over the text, one parse, and code generation for the resulting tree.
 * Each run owns its own lexer, so runs cannot interfere with one another.
 */
module Pipeline {
  import opened Wrappers
  import opened Ast
  import opened Lexing
  import opened Parser
  import opened Codegen

  /** What compiling src produces: the code of the parsed tree, or the parse failure. */
  function Compile(src: seq<char>): (r: Result<seq<Instr>>)
    ensures r.Ok? ==> Depth(r.value, 0) == Some(1)
    ensures r.Err? <==> Expression(Tokens(src, 0)).Err?
  {
    match Expression(Tokens(src, 0))
    case Err(err) => Err(err)
    case Ok((e, _)) =>
      StackDiscipline(e);
      Ok(GenerateCode(e))
  }

  /** Lex, parse and generate code with a lexer object of this run's own. */
  method CompileSource(src: seq<char>) returns (r: Result<seq<Instr>>)
    ensures r == Compile(src)
  {
    var lex := new Lexer(src);
    var tree := Parse(lex);
    match tree
    case Err(err) =>
      r := Err(err);
    case Ok(e) =>
      r := Ok(GenerateCode(e));
  }

  /** Compiled code, run on the model stack machine, leaves the parsed tree's value. */
  lemma CompiledCodeComputesValue(src: seq<char>)
    requires Expression(Tokens(src, 0)).Ok?
    requires Eval(Expression(Tokens(src, 0)).value.0).Some?
    ensures Compile(src).Ok?
    ensures Run(Compile(src).value, []) == Some([Eval(Expression(Tokens(src, 0)).value.0).value])
  {
    CodeComputesValue(Expression(Tokens(src, 0)).value.0);
  }

  /** A successful parse compiles to the code of the parsed tree. */
  lemma CompileOfParse(src: seq<char>, e: Expr, rest: seq<Token>)
    requires Expression(Tokens(src, 0)) == Ok((e, rest))
    ensures Compile(src) == Ok(GenerateCode(e))
  {
  }

  lemma TokensOfAddition()
    ensures Tokens("2+3", 0) == [Number(2), Plus, Number(3), EOF]
  {
    var s := "2+3";
    assert Tokens(s, 3) == [EOF];
    ScanSingleDigit(s, 2);
    assert Tokens(s, 2) == [Number(3), EOF];
    assert Tokens(s, 1) == [Plus, Number(3), EOF];
    ScanSingleDigit(s, 0);
  }

  lemma ParseOfAddition()
    ensures Expression([Number(2), Plus, Number(3), EOF]) == Ok((Bin(Add, Num(2), Num(3)), [EOF]))
  {
    var e := Bin(Add, Num(2), Num(3));
    assert Flatten(e) + [EOF] == [Number(2), Plus, Number(3), EOF];
    ExpressionCharacterization(Flatten(e) + [EOF], e, [EOF]);
  }

  lemma CodeOfAddition()
    ensures GenerateCode(Bin(Add, Num(2), Num(3))) == [Push(2), Push(3), Op(0x11)]
  {
  }

  /** "2+3" compiles to `0x01 2`, `0x01 3`, `0x11`. */
  lemma AdditionExample()
    ensures Compile("2+3") == Ok([Push(2), Push(3), Op(0x11)])
  {
    TokensOfAddition();
    ParseOfAddition();
    CompileOfParse("2+3", Bin(Add, Num(2), Num(3)), [EOF]);
    CodeOfAddition();
  }

  lemma TokensOfPrecedence()
    ensures Tokens("2+3*4", 0) == [Number(2), Plus, Number(3), Multiply, Number(4), EOF]
  {
    var s := "2+3*4";
    assert WhitespaceEnd(s, 5) == 5;
    assert Tokens(s, 5) == [EOF];
    ScanSingleDigit(s, 4);
    TokensUnfold(s, 4);
    assert WhitespaceEnd(s, 3) == 3;
    TokensUnfold(s, 3);
    ScanSingleDigit(s, 2);
    TokensUnfold(s, 2);
    assert WhitespaceEnd(s, 1) == 1;
    TokensUnfold(s, 1);
    ScanSingleDigit(s, 0);
    TokensUnfold(s, 0);
  }

  lemma CodeOfPrecedence()
    ensures GenerateCode(Bin(Add, Num(2), Bin(Mul, Num(3), Num(4))))
      == [Push(2), Push(3), Push(4), Op(0x13), Op(0x11)]
  {
    assert GenerateCode(Bin(Mul, Num(3), Num(4))) == [Push(3), Push(4), Op(0x13)];
  }

  /** "2+3*4" compiles to `0x01 2`, `0x01 3`, `0x01 4`, `0x13`, `0x11`. */
  lemma PrecedenceCodeExample()
    ensures Compile("2+3*4") == Ok([Push(2), Push(3), Push(4), Op(0x13), Op(0x11)])
  {
    TokensOfPrecedence();
    PrecedenceExample();
    CompileOfParse("2+3*4", Bin(Add, Num(2), Bin(Mul, Num(3), Num(4))), [EOF]);
    CodeOfPrecedence();
  }

  lemma TokensOfInvalid()
    ensures Tokens("2+@", 0) == [Number(2), Plus, Invalid]
  {
    var s := "2+@";
    assert Tokens(s, 2) == [Invalid];
    assert Tokens(s, 1) == [Plus, Invalid];
    ScanSingleDigit(s, 0);
  }

  /** "2+@" fails with the Invalid token where the second operand is due. */
  lemma InvalidInputExample()
    ensures Compile("2+@") == Err(ExpectedNumber(Invalid))
  {
    TokensOfInvalid();
    InvalidCharacterExample();
  }
}
