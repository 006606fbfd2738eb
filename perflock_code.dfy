/**
 * The machine code that the module writes over the perflock notifier: five
 * ARM instructions that build a frame, set r0 to 0 and return, stored as
 * the little-endian bytes of a C string literal.
 */
module Perflock {
  import opened MachineTypes

  /** The five instruction words, in the order the literal lists them. */
  const PerflockInstructions: seq<uint32> := [
    0xE1A0_C00D, // mov   r12, sp
    0xE92D_D800, // stmdb sp!, {r11, r12, lr, pc}
    0xE24C_B004, // sub   r11, r12, #4
    0xE3A0_0000, // mov   r0, #0
    0xE89D_A800  // ldmia sp, {r11, sp, pc}
  ]

  /** The twenty bytes written between the quotes of the literal. */
  const PerflockLiteral: seq<byte> := [
    0x0d, 0xc0, 0xa0, 0xe1,
    0x00, 0xd8, 0x2d, 0xe9,
    0x04, 0xb0, 0x4c, 0xe2,
    0x00, 0x00, 0xa0, 0xe3,
    0x00, 0xa8, 0x9d, 0xe8
  ]

  /**
   * The `char` array initialised by the literal: its bytes followed by the
   * terminating NUL that the compiler appends. `sizeof(perflock_code)` is its
   * length, so the NUL is copied too.
   */
  const PerflockCode: seq<byte> := PerflockLiteral + [0]

  /** The little-endian bytes of one 32-bit word. */
  function EncodeWord(w: uint32): (r: seq<byte>)
    ensures |r| == 4
    ensures r[0] as int + 0x100 * (r[1] as int) + 0x1_0000 * (r[2] as int) + 0x100_0000 * (r[3] as int) == w
  {
    var q0 := w / 0x100;
    var q1 := q0 / 0x100;
    assert w == 0x100 * q0 + w % 0x100;
    assert q0 == 0x100 * q1 + q0 % 0x100;
    assert q1 == 0x100 * (q1 / 0x100) + q1 % 0x100;
    [w % 0x100, q0 % 0x100, q1 % 0x100, q1 / 0x100]
  }

  /** The 32-bit word whose little-endian bytes are the four given. */
  function DecodeWord(b: seq<byte>): (w: uint32)
    requires |b| == 4
    ensures w % 0x100 == b[0] && w / 0x100_0000 == b[3]
  {
    b[0] as int + 0x100 * (b[1] as int) + 0x1_0000 * (b[2] as int) + 0x100_0000 * (b[3] as int)
  }

  lemma DecodeEncodeWord(w: uint32)
    ensures DecodeWord(EncodeWord(w)) == w
  {
  }

  /** Splitting off the low byte of a number written as lo + 256 hi. */
  lemma SplitLowByte(x: int, lo: byte, hi: nat)
    requires x == lo + 0x100 * hi
    ensures x % 0x100 == lo && x / 0x100 == hi
  {
  }

  /** A word given by its four little-endian bytes encodes to exactly those bytes. */
  lemma EncodeWordOf(w: uint32, b0: byte, b1: byte, b2: byte, b3: byte)
    requires w == b0 as int + 0x100 * (b1 as int) + 0x1_0000 * (b2 as int) + 0x100_0000 * (b3 as int)
    ensures EncodeWord(w) == [b0, b1, b2, b3]
  {
    var q1 := b2 as int + 0x100 * (b3 as int);
    var q0 := b1 as int + 0x100 * q1;
    SplitLowByte(w, b0, q0);
    SplitLowByte(q0, b1, q1);
    SplitLowByte(q1, b2, b3);
  }

  lemma EncodeDecodeWord(b: seq<byte>)
    requires |b| == 4
    ensures EncodeWord(DecodeWord(b)) == b
  {
    EncodeWordOf(DecodeWord(b), b[0], b[1], b[2], b[3]);
  }

  /** Instruction words laid out in memory, lowest address first. */
  function EncodeWords(ws: seq<uint32>): (r: seq<byte>)
    ensures |r| == 4 * |ws|
  {
    if ws == [] then [] else EncodeWord(ws[0]) + EncodeWords(ws[1..])
  }

  /** Word k of the sequence occupies bytes 4k to 4k + 3. */
  lemma {:induction false} EncodeWordsAt(ws: seq<uint32>, k: nat)
    requires k < |ws|
    ensures EncodeWords(ws)[4 * k..4 * k + 4] == EncodeWord(ws[k])
  {
    if k > 0 {
      EncodeWordsAt(ws[1..], k - 1);
      var rest := EncodeWords(ws[1..]);
      assert EncodeWords(ws)[4 * k..4 * k + 4] == rest[4 * (k - 1)..4 * (k - 1) + 4];
    }
  }

  /** Memory read back as consecutive little-endian words. */
  function DecodeWords(bs: seq<byte>): (r: seq<uint32>)
    requires |bs| % 4 == 0
    ensures 4 * |r| == |bs|
  {
    if bs == [] then [] else [DecodeWord(bs[..4])] + DecodeWords(bs[4..])
  }

  /** Decoding what was encoded gives back the instruction words. */
  lemma {:induction false} DecodeEncodeWords(ws: seq<uint32>)
    ensures DecodeWords(EncodeWords(ws)) == ws
  {
    if ws != [] {
      var bs := EncodeWords(ws);
      assert bs[..4] == EncodeWord(ws[0]);
      assert bs[4..] == EncodeWords(ws[1..]);
      DecodeEncodeWord(ws[0]);
      DecodeEncodeWords(ws[1..]);
    }
  }

  /** Encoding what was decoded gives back the bytes. */
  lemma {:induction false} EncodeDecodeWords(bs: seq<byte>)
    requires |bs| % 4 == 0
    ensures EncodeWords(DecodeWords(bs)) == bs
  {
    if bs != [] {
      var ws := DecodeWords(bs);
      assert ws[1..] == DecodeWords(bs[4..]);
      EncodeDecodeWord(bs[..4]);
      EncodeDecodeWords(bs[4..]);
      assert bs == bs[..4] + bs[4..];
    }
  }

  /** Prepending a word prepends its four bytes. */
  lemma EncodeWordsCons(w: uint32, ws: seq<uint32>)
    ensures EncodeWords([w] + ws) == EncodeWord(w) + EncodeWords(ws)
  {
  }

  /** The four bytes of each of the five instructions. */
  lemma PerflockInstructionBytes()
    ensures EncodeWord(PerflockInstructions[0]) == [0x0d, 0xc0, 0xa0, 0xe1]
    ensures EncodeWord(PerflockInstructions[1]) == [0x00, 0xd8, 0x2d, 0xe9]
    ensures EncodeWord(PerflockInstructions[2]) == [0x04, 0xb0, 0x4c, 0xe2]
    ensures EncodeWord(PerflockInstructions[3]) == [0x00, 0x00, 0xa0, 0xe3]
    ensures EncodeWord(PerflockInstructions[4]) == [0x00, 0xa8, 0x9d, 0xe8]
  {
    EncodeWordOf(PerflockInstructions[0], 0x0d, 0xc0, 0xa0, 0xe1);
    EncodeWordOf(PerflockInstructions[1], 0x00, 0xd8, 0x2d, 0xe9);
    EncodeWordOf(PerflockInstructions[2], 0x04, 0xb0, 0x4c, 0xe2);
    EncodeWordOf(PerflockInstructions[3], 0x00, 0x00, 0xa0, 0xe3);
    EncodeWordOf(PerflockInstructions[4], 0x00, 0xa8, 0x9d, 0xe8);
  }

  /** The literal is exactly the five instructions, each in little-endian order. */
  lemma PerflockLiteralEncodesInstructions()
    ensures PerflockLiteral == EncodeWords(PerflockInstructions)
  {
    var ws := PerflockInstructions;
    var bs := PerflockLiteral;
    EncodeWordsCons(ws[4], []);
    assert EncodeWords(ws[4..]) == EncodeWord(ws[4]) by { assert ws[4..] == [ws[4]] + []; }
    EncodeWordsCons(ws[3], ws[4..]);
    assert ws[3..] == [ws[3]] + ws[4..];
    EncodeWordsCons(ws[2], ws[3..]);
    assert ws[2..] == [ws[2]] + ws[3..];
    EncodeWordsCons(ws[1], ws[2..]);
    assert ws[1..] == [ws[1]] + ws[2..];
    EncodeWordsCons(ws[0], ws[1..]);
    assert ws == [ws[0]] + ws[1..];
    PerflockInstructionBytes();
  }

  /**
   * Read back as words, the literal gives the five instructions; the copied
   * code is those 20 bytes and then a 0, 21 bytes in all.
   */
  lemma PerflockCodeLayout()
    ensures DecodeWords(PerflockLiteral) == PerflockInstructions
    ensures |PerflockCode| == 21 && PerflockCode[..20] == PerflockLiteral && PerflockCode[20] == 0
  {
    PerflockLiteralEncodesInstructions();
    DecodeEncodeWords(PerflockInstructions);
  }
}
