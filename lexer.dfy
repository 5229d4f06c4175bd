/**
 * The lexer (ocm-compiler/src/lexer.c). A cursor moves over the source text
 * and produces one token per call. The source is a sequence of characters.
 * Reading at or past its end gives the C string terminator '\0', and an
 * embedded '\0' ends the input exactly as it does in C.
 *
 * The C lexer keeps its source and cursor in file-level globals; here they
 * are the fields of a Lexer object, so independent lexers cannot interfere.
 */
module Lexing {
  /** Integer-valued tokens, with the token kinds of the C header. */
  datatype Token = Number(value: nat) | Plus | Minus | Multiply | Divide | EOF | Invalid

  /** EOF and Invalid end the token stream: the lexer never moves past them. */
  predicate IsTerminal(t: Token)
  {
    t == EOF || t == Invalid
  }

  predicate IsOperator(t: Token)
  {
    t == Plus || t == Minus || t == Multiply || t == Divide
  }

  /** Only space, tab and newline are skipped; '\r' and all else are not. */
  predicate IsWhitespace(c: char)
  {
    c == ' ' || c == '\t' || c == '\n'
  }

  predicate IsDigit(c: char)
  {
    '0' <= c <= '9'
  }

  /** A character that starts no token: what the lexer reports as Invalid. */
  predicate IsInvalidChar(c: char)
  {
    c != '\0' && !IsWhitespace(c) && !IsDigit(c) && c != '+' && c != '-' && c != '*' && c != '/'
  }

  function DigitValue(c: char): (d: nat)
    requires IsDigit(c)
    ensures d < 10
  {
    c as int - '0' as int
  }

  /** The character at index i, or the terminator past the end. */
  function CharAt(s: seq<char>, i: nat): (c: char)
    ensures c != '\0' ==> i < |s|
  {
    if i < |s| then s[i] else '\0'
  }

  predicate AllDigits(ds: seq<char>)
  {
    forall k :: 0 <= k < |ds| ==> IsDigit(ds[k])
  }

  /** The decimal value of a run of digits, most significant first. */
  function DecimalValue(ds: seq<char>): nat
    requires AllDigits(ds)
  {
    if |ds| == 0 then 0 else 10 * DecimalValue(ds[..|ds| - 1]) + DigitValue(ds[|ds| - 1])
  }

  /** The first index at or after i that does not hold whitespace. */
  function WhitespaceEnd(s: seq<char>, i: nat): (j: nat)
    requires i <= |s|
    ensures i <= j <= |s|
    ensures forall k :: i <= k < j ==> IsWhitespace(s[k])
    ensures !IsWhitespace(CharAt(s, j))
    decreases |s| - i
  {
    if IsWhitespace(CharAt(s, i)) then WhitespaceEnd(s, i + 1) else i
  }

  /** The first index at or after i that does not hold a digit. */
  function DigitRunEnd(s: seq<char>, i: nat): (j: nat)
    requires i <= |s|
    ensures i <= j <= |s|
    ensures forall k :: i <= k < j ==> IsDigit(s[k])
    ensures !IsDigit(CharAt(s, j))
    decreases |s| - i
  {
    if IsDigit(CharAt(s, i)) then DigitRunEnd(s, i + 1) else i
  }

  /**
   * What one call of the lexer does from cursor i: the token it returns and
   * the cursor it leaves behind.
   */
  function Scan(s: seq<char>, i: nat): (r: (Token, nat))
    requires i <= |s|
    ensures WhitespaceEnd(s, i) <= r.1 <= |s|
    ensures IsTerminal(r.0) <==> r.1 == WhitespaceEnd(s, i)
    ensures r.0 == EOF <==> CharAt(s, WhitespaceEnd(s, i)) == '\0'
    ensures r.0 == Invalid <==> IsInvalidChar(CharAt(s, WhitespaceEnd(s, i)))
  {
    var j := WhitespaceEnd(s, i);
    var c := CharAt(s, j);
    if c == '\0' then (EOF, j)
    else if IsDigit(c) then
      var k := DigitRunEnd(s, j);
      (Number(DecimalValue(s[j..k])), k)
    else if c == '+' then (Plus, j + 1)
    else if c == '-' then (Minus, j + 1)
    else if c == '*' then (Multiply, j + 1)
    else if c == '/' then (Divide, j + 1)
    else (Invalid, j)
  }

  /**
   * The whole token stream from cursor i: every token up to and including
   * the first EOF or Invalid, after which the lexer returns that token forever.
   */
  function Tokens(s: seq<char>, i: nat): (ts: seq<Token>)
    requires i <= |s|
    ensures |ts| > 0 && ts[0] == Scan(s, i).0
    decreases |s| - i
  {
    var (t, k) := Scan(s, i);
    if IsTerminal(t) then [t] else [t] + Tokens(s, k)
  }

  /** The stream ends with its only EOF or Invalid token. */
  lemma {:induction false} TokensEndAtTerminal(s: seq<char>, i: nat)
    requires i <= |s|
    ensures IsTerminal(Tokens(s, i)[|Tokens(s, i)| - 1])
    ensures forall k :: 0 <= k < |Tokens(s, i)| - 1 ==> !IsTerminal(Tokens(s, i)[k])
    decreases |s| - i
  {
    var (t, k) := Scan(s, i);
    if !IsTerminal(t) {
      TokensEndAtTerminal(s, k);
      assert Tokens(s, i) == [t] + Tokens(s, k);
    }
  }

  /**
   * Whitespace never yields a token: scanning from i is scanning from the
   * first non-whitespace character. A carriage return is not whitespace.
   */
  lemma ScanSkipsWhitespace(s: seq<char>, i: nat)
    requires i <= |s|
    ensures Scan(s, i) == Scan(s, WhitespaceEnd(s, i))
    ensures CharAt(s, WhitespaceEnd(s, i)) == '\r' ==> Scan(s, i).0 == Invalid
  {
    assert WhitespaceEnd(s, WhitespaceEnd(s, i)) == WhitespaceEnd(s, i);
  }

  /** A number token holds all of a maximal digit run, and nothing else. */
  lemma ScanNumberIsMaximal(s: seq<char>, i: nat)
    requires i <= |s|
    requires IsDigit(CharAt(s, WhitespaceEnd(s, i)))
    ensures var j, (t, k) := WhitespaceEnd(s, i), Scan(s, i);
      j < k && AllDigits(s[j..k]) && !IsDigit(CharAt(s, k)) && t == Number(DecimalValue(s[j..k]))
  {
  }

  /** Each operator character gives its own token and moves the cursor past it, by exactly one. */
  lemma ScanOperator(s: seq<char>, i: nat)
    requires i <= |s|
    ensures var j, (t, k) := WhitespaceEnd(s, i), Scan(s, i);
      && (CharAt(s, j) == '+' <==> t == Plus)
      && (CharAt(s, j) == '-' <==> t == Minus)
      && (CharAt(s, j) == '*' <==> t == Multiply)
      && (CharAt(s, j) == '/' <==> t == Divide)
      && (IsOperator(t) ==> k == j + 1)
  {
  }

  /** EOF and Invalid leave the cursor where a second call returns them again. */
  lemma {:induction false} ScanTerminalIsStable(s: seq<char>, i: nat)
    requires i <= |s|
    requires IsTerminal(Scan(s, i).0)
    ensures Scan(s, Scan(s, i).1) == Scan(s, i)
  {
    var j := WhitespaceEnd(s, i);
    assert WhitespaceEnd(s, j) == j;
  }

  /** The cursor never moves back, and every number or operator token moves it forward. */
  lemma ScanProgress(s: seq<char>, i: nat)
    requires i <= |s|
    ensures i <= Scan(s, i).1 <= |s|
    ensures !IsTerminal(Scan(s, i).0) ==> i < Scan(s, i).1
  {
  }

  /** A token stream that is not over is its first token followed by the stream after it. */
  lemma TokensUnfold(s: seq<char>, i: nat)
    requires i <= |s|
    requires !IsTerminal(Scan(s, i).0)
    ensures Tokens(s, i) == [Scan(s, i).0] + Tokens(s, Scan(s, i).1)
  {
  }

  /** A lone digit is a number token of that digit's value. */
  lemma ScanSingleDigit(s: seq<char>, i: nat)
    requires i < |s| && IsDigit(s[i]) && !IsDigit(CharAt(s, i + 1))
    ensures Scan(s, i) == (Number(DigitValue(s[i])), i + 1)
  {
    assert WhitespaceEnd(s, i) == i;
    assert DigitRunEnd(s, i + 1) == i + 1;
    assert DigitRunEnd(s, i) == i + 1;
    assert s[i..i + 1] == [s[i]];
    assert DecimalValue([s[i]]) == DigitValue(s[i]) by {
      assert [s[i]][..0] == [];
    }
  }

  /** Tokenising "12+3*4". */
  lemma TokensExample()
    ensures Tokens("12+3*4", 0) == [Number(12), Plus, Number(3), Multiply, Number(4), EOF]
  {
    var s := "12+3*4";
    assert DigitRunEnd(s, 0) == 2;
    assert s[0..2] == "12";
    assert DecimalValue("12") == 12 by {
      assert "12"[..1] == "1";
      assert "1"[..0] == "";
    }
    assert Scan(s, 0) == (Number(12), 2);
    assert Scan(s, 2) == (Plus, 3);
    assert DigitRunEnd(s, 3) == 4;
    assert s[3..4] == "3";
    assert DecimalValue("3") == 3 by { assert "3"[..0] == ""; }
    assert Scan(s, 3) == (Number(3), 4);
    assert Scan(s, 4) == (Multiply, 5);
    assert DigitRunEnd(s, 5) == 6;
    assert s[5..6] == "4";
    assert DecimalValue("4") == 4 by { assert "4"[..0] == ""; }
    assert Scan(s, 5) == (Number(4), 6);
    assert Scan(s, 6) == (EOF, 6);
  }

  /** A lexer: the source text and a cursor into it. */
  class Lexer {
    const input: seq<char>
    var pos: nat

    ghost predicate Valid()
      reads this
    {
      pos <= |input|
    }

    /** Start lexing src at its first character. */
    constructor (src: seq<char>)
      ensures Valid()
      ensures input == src && pos == 0
    {
      input := src;
      pos := 0;
    }

    /** The character under the cursor; '\0' once the input is over. */
    function CurrentChar(): (c: char)
      requires Valid()
      reads this
      ensures c == '\0' <==> pos == |input| || input[pos] == '\0'
    {
      CharAt(input, pos)
    }

    /** Step over the character under the cursor, which is not the terminator. */
    method Advance()
      requires Valid() && CurrentChar() != '\0'
      modifies this`pos
      ensures Valid() && pos == old(pos) + 1
    {
      pos := pos + 1;
    }

    /** Move the cursor over space, tab and newline. */
    method SkipWhitespace()
      requires Valid()
      modifies this`pos
      ensures Valid() && pos == WhitespaceEnd(input, old(pos))
    {
      while IsWhitespace(CurrentChar())
        invariant Valid() && old(pos) <= pos
        invariant WhitespaceEnd(input, pos) == WhitespaceEnd(input, old(pos))
        decreases |input| - pos
      {
        Advance();
      }
    }

    /** Return the next token and move the cursor past it. */
    method NextToken() returns (tok: Token)
      requires Valid()
      modifies this`pos
      ensures Valid()
      ensures (tok, pos) == Scan(input, old(pos))
    {
      while CurrentChar() != '\0'
        invariant Valid() && old(pos) <= pos
        invariant WhitespaceEnd(input, pos) == WhitespaceEnd(input, old(pos))
        decreases |input| - pos
      {
        var c := CurrentChar();
        if IsWhitespace(c) {
          SkipWhitespace();
          continue;
        }
        assert WhitespaceEnd(input, pos) == pos;
        if IsDigit(c) {
          var start := pos;
          var value := 0;
          while IsDigit(CurrentChar())
            invariant Valid() && start <= pos
            invariant AllDigits(input[start..pos])
            invariant value == DecimalValue(input[start..pos])
            invariant DigitRunEnd(input, pos) == DigitRunEnd(input, start)
            decreases |input| - pos
          {
            assert input[start..pos + 1][..pos - start] == input[start..pos];
            value := value * 10 + DigitValue(CurrentChar());
            Advance();
          }
          return Number(value);
        }
        if c == '+' {
          Advance();
          return Plus;
        }
        if c == '-' {
          Advance();
          return Minus;
        }
        if c == '*' {
          Advance();
          return Multiply;
        }
        if c == '/' {
          Advance();
          return Divide;
        }
        return Invalid;
      }
      return EOF;
    }

    /** The token the next call of NextToken will return; the cursor stays. */
    method PeekToken() returns (tok: Token)
      requires Valid()
      ensures tok == Scan(input, pos).0
    {
      var probe := new Lexer(input);
      probe.pos := pos;
      tok := probe.NextToken();
    }
  }
}
