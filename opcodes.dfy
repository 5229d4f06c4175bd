/**
 * The OCM opcode table (ocm-compiler/src/ocm_opcodes.h): one-byte instruction
 * identifiers. Only the four arithmetic opcodes are emitted by the code
 * generator; the others are reserved and kept as constants so that the
 * table as a whole can be checked for clashes.
 */
module Opcodes {
  /** A value that fits in one byte. */
  type Byte = b: int | 0 <= b < 256

  // Arithmetic on small integers
  const OpcodeAdd: int := 0x11
  const OpcodeSub: int := 0x12
  const OpcodeMul: int := 0x13
  const OpcodeDiv: int := 0x14
  const OpcodeModDiv: int := 0x15
  const OpcodeDivMod: int := 0x16
  const OpcodeNeg: int := 0x1A
  const OpcodeCmpGt: int := 0x1E
  const OpcodeCmpLt: int := 0x1F

  // Stack manipulation
  const OpcodeDup: int := 0x05
  const OpcodePop: int := 0x07
  const OpcodePush: int := 0x37

  /** The arithmetic opcodes the code generator emits, in table order. */
  function ArithmeticOpcodes(): (ops: seq<int>)
    ensures |ops| == 4
  {
    [OpcodeAdd, OpcodeSub, OpcodeMul, OpcodeDiv]
  }

  /** Every opcode the table defines, in table order. */
  function AllOpcodes(): (ops: seq<int>)
    ensures |ops| == 12
    ensures forall k :: 0 <= k < 4 ==> ops[k] == ArithmeticOpcodes()[k]
  {
    ArithmeticOpcodes() +
    [OpcodeModDiv, OpcodeDivMod, OpcodeNeg, OpcodeCmpGt, OpcodeCmpLt,
     OpcodeDup, OpcodePop, OpcodePush]
  }

  /** No two entries of the table share an identifier. */
  lemma OpcodesDistinct()
    ensures forall i, j :: 0 <= i < j < |AllOpcodes()| ==> AllOpcodes()[i] != AllOpcodes()[j]
  {
  }

  /** Every entry of the table fits in one byte. */
  lemma OpcodesFitInByte()
    ensures forall k :: 0 <= k < |AllOpcodes()| ==> 0 <= AllOpcodes()[k] < 256
  {
  }
}
