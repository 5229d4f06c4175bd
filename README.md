# OCM expression compiler, modelled in Dafny

The system compiles one flat arithmetic expression into an instruction list for
the OCM stack machine. The expression uses non-negative integer literals and
`+ - * /`, with `*` and `/` binding tighter than `+` and `-`. Compilation has
three stages:

- **Lexer** (`lexer.dfy`, module `Lexing`). A `Lexer` object holds the source
  text and a cursor. `NextToken` skips spaces, tabs and newlines, then returns
  one of seven tokens. A maximal digit run gives `Number(value)`. Each of
  `+ - * /` gives its own token. The terminator gives `EOF`. Anything else gives
  `Invalid`. `PeekToken` returns the next token without moving the cursor.
  The pure function `Scan` specifies one call, and `Tokens` specifies the whole
  token stream up to the first `EOF` or `Invalid`.
- **Parser** (`parser.dfy`, module `Parser`). This is recursive descent with
  one loop per precedence level:
  `expression := term (('+'|'-') term)*`, `term := primary (('*'|'/') primary)*`
  and `primary := NUMBER`. The grammar is first written as functions over the
  token stream (`Primary`, `Term`, `Expression` and their loops `MoreFactors`,
  `MoreTerms`). The methods `ParsePrimary`, `ParseTerm`, `ParseExpression` and
  `Parse` drive a `Lexer` object with peek/next, as the C code does. They are
  proved to agree with those functions. The trees are `Ast.Expr = Num(value) | Bin(op, left, right)`
  (`ast.dfy`).
- **Code generator** (`codegen.dfy`, module `Codegen`). This is a post-order
  walk. Each leaf gives `Push(value)`, written `0x01 <value>` by the C code.
  Each operator node gives the left operand's code, then the right operand's
  code, then `Op(opcode)`. The opcode table is in `opcodes.dfy` (module
  `Opcodes`).
- `pipeline.dfy` (module `Pipeline`) runs the stages in sequence on one source
  text.

What is proved:

- **Lexer.** The cursor never moves back and never passes the end of input.
  Number and operator tokens strictly advance it. `EOF` and `Invalid` leave it
  on a character that produces the same token again. Numbers are maximal digit
  runs with their decimal value. Only space, tab and newline are skipped.
- **Parser.** A parse succeeds with tree `e` and leftover stream `rest`
  exactly when three things hold:
  - `e` has the left-deep shape the grammar produces (`IsExpression`);
  - the consumed tokens are `e`'s in-order flattening;
  - `rest` does not start with an operator.

  This is a round trip in both directions, and precedence and
  left-associativity follow from it.
- **Code generator.**
  - There is one instruction per tree node.
  - The stack depth never underflows and ends at exactly one.
  - Running the code on a model stack machine gives the tree's value.
  - The machine fails exactly when the tree divides by zero.

The stack machine (`Codegen.Run`) and the evaluator (`Codegen.Eval`) are not
part of the compiler. They are the reference the emitted code is proved
against. Division there truncates toward zero, as C's `/` on `int` does.

Where the repository's files disagree, the model settles on one design:

- Tokens are integer-valued, with the token names of `lexer.h`.
  `lexer.c`'s string-carrying token and `parser.c`'s `TOKEN_MUL`-style names
  are not used.
- The tree has a single binary node kind that holds its operator. This follows
  `parser.h`, not the `NODE_ADD`-style kinds of `codegen.c`.
- The lexer's cursor belongs to a `Lexer` object. In `lexer.c` it is a
  file-level global.
- The parser calls a peek operation, but no source file defines one. The model
  defines `PeekToken`.

The model also deviates from the code in a few places:

- `parse_primary` returns `NULL` on a non-number. The C loops then go on
  parsing and build nodes with null children, and `generate_code` silently
  skips those. In the model, a failed primary is `Err(ExpectedNumber(found))`,
  and parsing stops right there.
- An `Invalid` token carries no payload, as in `lexer.h`, so it does not name
  the offending character. Instead, after a failure on an `Invalid` token,
  `Parse` leaves the cursor on the offending character, where the caller can
  read it.

## Model

| member | source | states |
|---|---|---|
| Opcodes.OpcodesDistinct | ocm-compiler/src/ocm_opcodes.h:5-18 | no two opcodes of the table, reserved ones included, are equal |
| Opcodes.OpcodesFitInByte | ocm-compiler/src/ocm_opcodes.h:5-18 | every opcode of the table is in 0..255 |
| Ast.LeavesOutnumberOperators | ocm-compiler/src/parser.c:26-33 | a tree whose interior nodes all have exactly two children has one more leaf than interior nodes |
| Lexing.WhitespaceEnd | ocm-compiler/src/lexer.c:39-43 | skipping stops at the first character that is not space, tab or newline, never past the end, and every skipped character is one of those three |
| Lexing.DigitRunEnd | ocm-compiler/src/lexer.c:64-69 | the digit loop stops at the first non-digit, and every character it passes over is a digit |
| Lexing.Scan | ocm-compiler/src/lexer.c:53-98 | one lexer call leaves the cursor between the end of the skipped whitespace and the end of input; it returns EOF exactly at the terminator and Invalid exactly on a character that starts no token, and in both cases it leaves the cursor at the end of the skipped whitespace |
| Lexing.Tokens | ocm-compiler/src/lexer.c:53-98 | the token stream is never empty, and its first token is what the next lexer call returns |
| Lexing.TokensEndAtTerminal | ocm-compiler/src/lexer.c:53-98 | the stream ends with an EOF or Invalid token, and no earlier token is EOF or Invalid |
| Lexing.TokensUnfold | ocm-compiler/src/lexer.c:53-98 | after a number or operator token, the stream continues with the stream from the new cursor |
| Lexing.ScanSkipsWhitespace | ocm-compiler/src/lexer.c:53-58 | whitespace never yields a token: scanning gives the same result as scanning from the first non-whitespace character; a carriage return there gives Invalid |
| Lexing.ScanNumberIsMaximal | ocm-compiler/src/lexer.c:60-72 | a digit gives a Number token that spans the whole digit run, with the run's decimal value, and leaves the cursor on a non-digit |
| Lexing.ScanSingleDigit | ocm-compiler/src/lexer.c:60-72 | a lone digit gives Number with that digit's value and moves the cursor by one |
| Lexing.ScanOperator | ocm-compiler/src/lexer.c:74-92 | each of `+ - * /` gives its own token and only that character gives it; an operator token moves the cursor past the character, by exactly one |
| Lexing.ScanTerminalIsStable | ocm-compiler/src/lexer.c:94-97 | after EOF or Invalid, a second call returns the same token and leaves the same cursor |
| Lexing.ScanProgress | ocm-compiler/src/lexer.c:35-37 | the cursor never moves back or past the end; every number or operator token moves it forward |
| Lexing.TokensExample | ocm-compiler/src/lexer.c:53-97 | "12+3*4" gives Number(12), Plus, Number(3), Multiply, Number(4), EOF |
| Lexing.Lexer.constructor | ocm-compiler/src/lexer.c:26-29 | a new lexer holds the given source with the cursor at 0 |
| Lexing.Lexer.CurrentChar | ocm-compiler/src/lexer.c:31-33 | the current character is the terminator exactly at the end of input or on an embedded terminator |
| Lexing.Lexer.Advance | ocm-compiler/src/lexer.c:35-37 | the cursor moves forward by one, and it moves only while not on the terminator |
| Lexing.Lexer.SkipWhitespace | ocm-compiler/src/lexer.c:39-43 | the cursor moves to the end of the whitespace run |
| Lexing.Lexer.NextToken | ocm-compiler/src/lexer.c:53-98 | the token returned and the new cursor are those of `Scan` from the old cursor |
| Lexing.Lexer.PeekToken | ocm-compiler/src/parser.c:49-51 | returns the token that the next NextToken call will return; it has no modifies clause, so the cursor stays |
| Parser.OperatorOf | ocm-compiler/src/parser.c:50-53 | the operator stored in a node is the one written by the consumed operator token |
| Parser.Primary | ocm-compiler/src/parser.c:37-44 | primary succeeds exactly on a Number token and then consumes just that token as a leaf; otherwise it fails with ExpectedNumber naming the token found |
| Parser.MoreFactors | ocm-compiler/src/parser.c:48-57 | the loop of term keeps a term-shaped tree, consumes exactly the tokens it folds into the tree, and stops before the first token that is not `*` or `/`; a failure reports a token that is not a number |
| Parser.Term | ocm-compiler/src/parser.c:46-59 | a parsed term is left-deep over `*`/`/` with literal right operands; its flattening is the consumed tokens; the next token is not `*` or `/`; a failure reports a token that is not a number |
| Parser.MoreTerms | ocm-compiler/src/parser.c:63-72 | the loop of expression keeps an expression-shaped tree, consumes exactly the tokens it folds in, and stops before the first token that is not `+` or `-`; a failure reports a token that is not a number |
| Parser.Expression | ocm-compiler/src/parser.c:61-74 | a parsed expression has the grammar's left-deep shape; its flattening is the consumed tokens; the next token is not an operator; a failure reports a token that is not a number |
| Parser.TermOfFlatten | ocm-compiler/src/parser.c:46-59 | on the flattening of a term-shaped tree, term reaches its loop holding that tree |
| Parser.TermRoundTrip | ocm-compiler/src/parser.c:46-59 | term parses the flattening of a term-shaped tree back to that tree when no `*`/`/` follows |
| Parser.ExpressionOfFlatten | ocm-compiler/src/parser.c:61-74 | on the flattening of an expression-shaped tree, expression reaches its loop holding that tree |
| Parser.ExpressionCharacterization | ocm-compiler/src/parser.c:61-78 | a parse gives tree e and leftover rest if and only if e is expression-shaped, the stream is e's flattening followed by rest, and rest does not start with an operator |
| Parser.RightOperandIsTighter | ocm-compiler/src/parser.c:46-74 | at every node of a parsed tree, the right operand of `+`/`-` is a term and the right operand of `*`/`/` is a literal, so chains of equal precedence nest to the left |
| Parser.TermNodesTighter | ocm-compiler/src/parser.c:46-59 | every node of a term-shaped tree has a literal right operand under `*`/`/` |
| Parser.ExpressionNodesTighter | ocm-compiler/src/parser.c:61-74 | every node of an expression-shaped tree binds its right operand tighter than itself |
| Parser.MoreFactorsFailure | ocm-compiler/src/parser.c:48-57 | a failed loop of term reports the non-number token found right after one of its `*`/`/` operators |
| Parser.TermFailure | ocm-compiler/src/parser.c:37-59 | a failed term reports the non-number token found at its start or right after one of its operators |
| Parser.MoreTermsFailure | ocm-compiler/src/parser.c:63-72 | a failed loop of expression reports the non-number token found right after one of the operators it consumed |
| Parser.ExpressionFailure | ocm-compiler/src/parser.c:37-74 | a failed parse reports the non-number token found where the grammar needed a number: the start of the stream or right after an operator |
| Parser.PrecedenceExample | ocm-compiler/src/parser.c:61-74 | the tokens of "2+3*4" parse to Add(2, Mul(3, 4)) |
| Parser.ProductFirstExample | ocm-compiler/src/parser.c:61-74 | the tokens of "2*3+4" parse to Add(Mul(2, 3), 4) |
| Parser.LeftAssociativityExample | ocm-compiler/src/parser.c:63-68 | the tokens of "8-3-2" parse to Sub(Sub(8, 3), 2) |
| Parser.TrailingTokenExample | ocm-compiler/src/parser.c:76-78 | the tokens of "2 3" parse to 2 and leave the `3` unconsumed |
| Parser.InvalidCharacterExample | ocm-compiler/src/parser.c:37-44 | the tokens of "2+@" fail with ExpectedNumber(Invalid) |
| Parser.ParsePrimary | ocm-compiler/src/parser.c:37-44 | the primary method's tree or error are those of `Primary`; it always consumes exactly one token, failure or not, so its new cursor is the one `Scan` gives; after an Invalid token the cursor is on the offending character |
| Parser.ParseTerm | ocm-compiler/src/parser.c:46-59 | the peek/next loop's tree or error and its remaining stream are those of `Term`; the cursor never moves back |
| Parser.ParseExpression | ocm-compiler/src/parser.c:61-74 | the peek/next loop's tree or error and its remaining stream are those of `Expression`; the cursor never moves back |
| Parser.Parse | ocm-compiler/src/parser.c:76-78 | parse is expression with nothing demanded afterwards; on success the next token is not an operator; on failure the error names a non-number token found at the start of the stream or right after an operator |
| Codegen.Opcode | ocm-compiler/src/codegen.c:18-44 | each operator is emitted as one of the four arithmetic opcodes, never as the push-immediate 0x01 |
| Codegen.DecodeOpcode | ocm-compiler/src/ocm_opcodes.h:5-8 | a byte decodes to an operator only if that operator's opcode is that byte |
| Codegen.OpcodeRoundTrip | ocm-compiler/src/ocm_opcodes.h:5-8 | the operator-to-opcode map is total and injective, and decoding inverts it |
| Codegen.OpcodeValues | ocm-compiler/src/codegen.c:22-43 | Add, Sub, Mul and Div are emitted as 0x11, 0x12, 0x13 and 0x14 |
| Codegen.GenerateCode | ocm-compiler/src/codegen.c:7-50 | the output has one instruction per node; it starts with the push of the leftmost leaf; it ends with the root's opcode, or with the lone push for a leaf |
| Codegen.InstructionCounts | ocm-compiler/src/codegen.c:12-44 | there are as many pushes as leaves and as many operator instructions as interior nodes |
| Codegen.DepthOfCode | ocm-compiler/src/codegen.c:18-44 | from any depth, a tree's code never finds fewer than two cells for an operator and leaves exactly one more cell |
| Codegen.StackDiscipline | ocm-compiler/src/codegen.c:7-50 | from an empty stack, a tree's code ends with stack depth exactly 1 |
| Codegen.RunCode | ocm-compiler/src/codegen.c:18-44 | running a tree's code pushes the tree's value, with the right operand on top when the operator applies, and leaves the stack below alone; the machine fails exactly when evaluation hits a zero divisor |
| Codegen.CodeComputesValue | ocm-compiler/src/codegen.c:7-50 | for a tree with no zero divisor, running its code from an empty stack leaves exactly the tree's value |
| Pipeline.Compile | ocm-compiler/src/parser.c:76-78 | a successful compilation is stack-safe with final depth 1; it fails exactly when the parse fails |
| Pipeline.CompileSource | ocm-compiler/src/lexer.c:23-29 | compiling with a fresh lexer object gives the result of `Compile`; the result depends only on the source text, so independent runs agree |
| Pipeline.CompiledCodeComputesValue | ocm-compiler/src/codegen.c:7-50 | the compiled code of a source text, run on the model machine, gives the value of the parsed tree |
| Pipeline.AdditionExample | ocm-compiler/src/codegen.c:7-50 | "2+3" compiles to `0x01 2`, `0x01 3`, `0x11` |
| Pipeline.PrecedenceCodeExample | ocm-compiler/src/codegen.c:7-50 | "2+3*4" compiles to `0x01 2`, `0x01 3`, `0x01 4`, `0x13`, `0x11` |
| Pipeline.InvalidInputExample | ocm-compiler/src/parser.c:37-44 | "2+@" fails with ExpectedNumber(Invalid) instead of producing code |

## Left out

- `init_codegen` opens and closes the output file and exits on failure. That is I/O, and it is not modelled.
- Text output is not modelled. `generate_code` writes each instruction with `fprintf`. The model returns the instruction sequence instead; the decimal rendering of `0x01 <value>` lines is not modelled.
- The `default:` branch of `generate_code` prints an error and exits. It cannot occur, because the tree datatype has exactly two variants.
- The `NULL`-node early return of `generate_code` is not modelled. A failed primary is a parse error, not a hole in the tree.
- Parsing continuing after a failed primary is not modelled. The C loops keep parsing after `parse_primary` returns `NULL`; the model stops at the first failure.
- `malloc`, `free` and `free_ast` are memory management and are not modelled. Trees are values.
- `create_token` and the 64-byte token string buffer are not modelled. Long digit runs are not truncated to 63 digits, and number values are unbounded naturals. Neither the width of C `int` nor overflow is modelled.
- `lexer_free` and `init_parser` are declared but defined nowhere. They are not modelled.
- The reserved opcodes (0x15, 0x16, 0x1A, 0x1E, 0x1F, 0x05, 0x07, 0x37) are kept only as constants, for the distinctness and byte-range lemmas.
- The compiler never detects division by zero. Zero divisors appear only in the reference evaluator and machine (`Eval`, `Run`), where they give `None`.
- `Lexing.Lexer.PeekToken` runs `NextToken` on a copy of the lexer. The C program calls a peek operation but defines none, so this is the model's own definition.
