/**
 * Decoding of holding-register words into numbers.
 *
 * A holding register is a 16-bit word that the device sends most significant byte first
 * (section 4.2 "Data Encoding" of the Modbus Application Protocol Specification V1.1b3).
 * The rearrangement for other byte and word orders is the payload decoder's: little
 * byte order swaps the two bytes of each word, little word order swaps the two words of
 * a 32-bit value (16-bit values have one word, so the word order does not apply to them).
 */
module Decoding {
  import opened Errors
  import opened Text

  type Word = w: int | 0 <= w < 0x1_0000

  datatype Endian = Big | Little

  function GetEndian(order: string): Result<Endian> {
    if Lower(order) == "big" then Success(Big)
    else if Lower(order) == "little" then Success(Little)
    else Failure(InvalidEndianOrder(order))
  }

  /** "big" and "little" are accepted in any letter case; everything else is a ValueError. */
  lemma GetEndianCases(order: string)
    ensures GetEndian(order) == Success(Big) <==> SpelledInAnyCase(order, "big")
    ensures GetEndian(order) == Success(Little) <==> SpelledInAnyCase(order, "little")
    ensures GetEndian(order).Failure?
        <==> !SpelledInAnyCase(order, "big") && !SpelledInAnyCase(order, "little")
    ensures GetEndian(order).Failure? ==> GetEndian(order).error == InvalidEndianOrder(order)
  {
    LowerIsAnyCase(order, "big");
    LowerIsAnyCase(order, "little");
  }

  /** The five value types of a register entry. */
  datatype ValueType = UInt16 | Int16 | UInt32 | Int32 | Float32 {

    /** The configuration tag that names this type. */
    function Tag(): string {
      match this
      case UInt16 => "uint16"
      case Int16 => "int16"
      case UInt32 => "uint32"
      case Int32 => "int32"
      case Float32 => "float32"
    }

    /** The number of registers a value of this type occupies. */
    function Words(): nat {
      if UInt16? || Int16? then 1 else 2
    }

    predicate IsInteger() {
      !Float32?
    }

    predicate IsSigned() {
      Int16? || Int32?
    }

    /** 2 to the power of the type's bit width. */
    function Modulus(): int {
      if Words() == 1 then 0x1_0000 else 0x1_0000_0000
    }

    function Min(): int {
      if IsSigned() then -(Modulus() / 2) else 0
    }

    function Max(): int {
      if IsSigned() then Modulus() / 2 - 1 else Modulus() - 1
    }
  }

  /** The type dispatch: exactly the five tags, compared case-sensitively. */
  function ParseValueType(tag: string): (r: Result<ValueType>)
    ensures r.Success? <==> tag in {"uint16", "int16", "uint32", "int32", "float32"}
    ensures r.Success? ==> r.value.Tag() == tag
    ensures r.Failure? ==> r.error == UnsupportedDataType(tag)
  {
    if tag == "uint16" then Success(UInt16)
    else if tag == "int16" then Success(Int16)
    else if tag == "uint32" then Success(UInt32)
    else if tag == "int32" then Success(Int32)
    else if tag == "float32" then Success(Float32)
    else Failure(UnsupportedDataType(tag))
  }

  /** Every type is recovered from its own tag. */
  lemma ParseTag(t: ValueType)
    ensures ParseValueType(t.Tag()) == Success(t)
  {
  }

  function HighByte(w: Word): nat {
    w / 0x100
  }

  function LowByte(w: Word): nat {
    w % 0x100
  }

  function SwapBytes(w: Word): (r: Word)
    ensures HighByte(r) == LowByte(w) && LowByte(r) == HighByte(w)
  {
    LowByte(w) * 0x100 + HighByte(w)
  }

  /** A received word put into most-significant-byte-first order. */
  function Arrange(w: Word, byteOrder: Endian): Word {
    if byteOrder == Big then w else SwapBytes(w)
  }

  /** Arranging twice gives the word back, so one function both decodes and encodes. */
  lemma ArrangeTwice(w: Word, byteOrder: Endian)
    ensures Arrange(Arrange(w, byteOrder), byteOrder) == w
  {
    if byteOrder == Little {
      var s := SwapBytes(w);
      assert s == LowByte(w) * 0x100 + HighByte(w);
      assert SwapBytes(s) == LowByte(s) * 0x100 + HighByte(s) == HighByte(w) * 0x100 + LowByte(w);
    }
  }

  /** The leading words assembled into the value's bit pattern, read as an unsigned number. */
  function Unsigned(t: ValueType, words: seq<Word>, byteOrder: Endian, wordOrder: Endian): (u: nat)
    requires |words| >= t.Words()
    ensures u < t.Modulus()
  {
    if t.Words() == 1 then
      Arrange(words[0], byteOrder)
    else
      var high := if wordOrder == Big then words[0] else words[1];
      var low := if wordOrder == Big then words[1] else words[0];
      Arrange(high, byteOrder) * 0x1_0000 + Arrange(low, byteOrder)
  }

  /** The two's-complement reading of an unsigned bit pattern below `modulus`. */
  function TwosComplement(u: int, modulus: int): int {
    if u >= modulus / 2 then u - modulus else u
  }

  /** An integer type's value of the leading words. */
  function DecodeInteger(t: ValueType, words: seq<Word>, byteOrder: Endian, wordOrder: Endian): (v: int)
    requires t.IsInteger() && |words| >= t.Words()
    ensures t.Min() <= v <= t.Max()
  {
    var u := Unsigned(t, words, byteOrder, wordOrder);
    if t.IsSigned() then TwosComplement(u, t.Modulus()) else u
  }

  /** The word sequence a device with the given orders sends for an integer value. */
  function EncodeInteger(t: ValueType, v: int, byteOrder: Endian, wordOrder: Endian): (words: seq<Word>)
    requires t.IsInteger() && t.Min() <= v <= t.Max()
    ensures |words| == t.Words()
  {
    var u := if v < 0 then v + t.Modulus() else v;
    if t.Words() == 1 then
      [Arrange(u, byteOrder)]
    else
      var high := Arrange(u / 0x1_0000, byteOrder);
      var low := Arrange(u % 0x1_0000, byteOrder);
      if wordOrder == Big then [high, low] else [low, high]
  }

  /** Decoding what was encoded gives the value back, for every integer type and order. */
  lemma {:induction false} DecodeEncode(t: ValueType, v: int, byteOrder: Endian, wordOrder: Endian)
    requires t.IsInteger() && t.Min() <= v <= t.Max()
    ensures DecodeInteger(t, EncodeInteger(t, v, byteOrder, wordOrder), byteOrder, wordOrder) == v
  {
    var u := if v < 0 then v + t.Modulus() else v;
    var words := EncodeInteger(t, v, byteOrder, wordOrder);
    if t.Words() == 1 {
      ArrangeTwice(u, byteOrder);
    } else {
      ArrangeTwice(u / 0x1_0000, byteOrder);
      ArrangeTwice(u % 0x1_0000, byteOrder);
    }
    assert Unsigned(t, words, byteOrder, wordOrder) == u;
  }

  /** Encoding the decoded value gives back the leading words: no two word patterns collide. */
  lemma {:induction false} EncodeDecode(t: ValueType, words: seq<Word>, byteOrder: Endian, wordOrder: Endian)
    requires t.IsInteger() && |words| >= t.Words()
    ensures EncodeInteger(t, DecodeInteger(t, words, byteOrder, wordOrder), byteOrder, wordOrder)
         == words[..t.Words()]
  {
    var u := Unsigned(t, words, byteOrder, wordOrder);
    var v := DecodeInteger(t, words, byteOrder, wordOrder);
    assert (if v < 0 then v + t.Modulus() else v) == u;
    if t.Words() == 1 {
      ArrangeTwice(words[0], byteOrder);
    } else {
      var high := if wordOrder == Big then words[0] else words[1];
      var low := if wordOrder == Big then words[1] else words[0];
      assert u / 0x1_0000 == Arrange(high, byteOrder);
      assert u % 0x1_0000 == Arrange(low, byteOrder);
      ArrangeTwice(high, byteOrder);
      ArrangeTwice(low, byteOrder);
    }
  }

  /** A signed type reads the same bits as its unsigned counterpart, in two's complement. */
  lemma SignedIsTwosComplement(words: seq<Word>, byteOrder: Endian, wordOrder: Endian)
    ensures |words| >= 1 ==>
      var s := DecodeInteger(Int16, words, byteOrder, wordOrder);
      var u := DecodeInteger(UInt16, words, byteOrder, wordOrder);
      (s == u || s == u - 0x1_0000) && (s < 0 <==> u >= 0x8000)
    ensures |words| >= 2 ==>
      var s := DecodeInteger(Int32, words, byteOrder, wordOrder);
      var u := DecodeInteger(UInt32, words, byteOrder, wordOrder);
      (s == u || s == u - 0x1_0000_0000) && (s < 0 <==> u >= 0x8000_0000)
  {
  }

  /** The IEEE-754 binary32 value of a 32-bit pattern; the model is parametric in it. */
  type Float32Reader = nat -> real

  /** The value of the leading words as the given type; too few words is the decoder's error. */
  function Decode(t: ValueType, words: seq<Word>, byteOrder: Endian, wordOrder: Endian, float32: Float32Reader): (r: Result<real>)
    ensures r.Failure? <==> |words| < t.Words()
  {
    if |words| < t.Words() then Failure(ShortPayload(|words|, t.Words()))
    else if t == Float32 then Success(float32(Unsigned(t, words, byteOrder, wordOrder)))
    else Success(DecodeInteger(t, words, byteOrder, wordOrder) as real)
  }

  /** Words beyond the type's width are ignored: the decoder reads from the front of the payload. */
  lemma DecodeReadsLeadingWords(t: ValueType, words: seq<Word>, byteOrder: Endian, wordOrder: Endian, float32: Float32Reader)
    requires |words| >= t.Words()
    ensures Decode(t, words, byteOrder, wordOrder, float32) == Decode(t, words[..t.Words()], byteOrder, wordOrder, float32)
  {
  }

  /** A 16-bit value ignores the word order; a 32-bit value swaps its halves with it. */
  lemma WordOrderEffect(t: ValueType, words: seq<Word>, byteOrder: Endian)
    requires |words| >= t.Words()
    ensures t.Words() == 1 ==> Unsigned(t, words, byteOrder, Big) == Unsigned(t, words, byteOrder, Little)
    ensures t.Words() == 2 ==>
      Unsigned(t, words, byteOrder, Little) == Unsigned(t, [words[1], words[0]], byteOrder, Big)
  {
  }
}
