/** Reading one configured register: the device request, then decoding, then scaling. */
module Registers {
  import opened Errors
  import opened Config
  import opened Text
  import opened Decoding

  /** A read of `count` holding registers from `address` on the device with that slave id. */
  datatype Request = Request(address: int, count: int, slave: int)

  /**
   * The device and its transport as a register source: the words it answers to each
   * request, and no entry where it answers with an error (or the transport fails).
   */
  type Device = map<Request, seq<Word>>

  /** The scale of an entry, 1.0 when the entry gives none. */
  function Scale(entry: RegisterConfig): real {
    match entry.scale
    case Some(s) => s
    case None => 1.0
  }

  /** A decoded value with the entry's scale applied; the scale is never applied to raw words. */
  function Scaled(value: real, entry: RegisterConfig): (r: real)
    ensures entry.scale.None? ==> r == value
  {
    value * Scale(entry)
  }

  function RequestFor(entry: RegisterConfig, unitId: int): Request {
    Request(entry.address, entry.length, unitId)
  }

  /**
   * Everything the read does after the device has answered, given the outcomes of parsing
   * the byte order and the word order: check both, parse the type, decode, scale.
   */
  function DecodeEntry(entry: RegisterConfig, words: seq<Word>, byteOrder: Result<Endian>,
                       wordOrder: Result<Endian>, float32: Float32Reader): Result<real>
  {
    var bo :- byteOrder;
    var wo :- wordOrder;
    var t :- ParseValueType(entry.dataType);
    var value :- Decode(t, words, bo, wo, float32);
    Success(Scaled(value, entry))
  }

  /**
   * The source's register read: the request first, then the byte order and the word order
   * are parsed, then the value type, then the words are decoded and the scale applied.
   */
  function ReadRegister(entry: RegisterConfig, device: Device, unitId: int, byteOrderTag: string,
                        wordOrderTag: string, float32: Float32Reader): (r: Result<real>)
    ensures RequestFor(entry, unitId) !in device ==> r == Failure(ReadFailed(entry.address))
  {
    var request := RequestFor(entry, unitId);
    if request !in device then Failure(ReadFailed(entry.address))
    else DecodeEntry(entry, device[request], GetEndian(byteOrderTag), GetEndian(wordOrderTag), float32)
  }

  /** A device error is raised before any configuration is looked at, whatever the entry's type. */
  lemma DeviceErrorComesFirst(entry: RegisterConfig, device: Device, unitId: int, byteOrderTag: string,
                              wordOrderTag: string, float32: Float32Reader, dataType: string)
    requires RequestFor(entry, unitId) !in device
    ensures ReadRegister(entry.(dataType := dataType), device, unitId, byteOrderTag, wordOrderTag, float32)
         == Failure(ReadFailed(entry.address))
  {
  }

  /**
   * Once the device has answered and both orders parse, the read fails exactly for an
   * unknown type tag or a payload shorter than the type, and otherwise yields the decoded
   * value times the entry's scale.
   */
  lemma ReadRegisterOutcome(entry: RegisterConfig, device: Device, unitId: int, byteOrderTag: string,
                            wordOrderTag: string, float32: Float32Reader, byteOrder: Endian, wordOrder: Endian)
    requires RequestFor(entry, unitId) in device
    requires GetEndian(byteOrderTag) == Success(byteOrder) && GetEndian(wordOrderTag) == Success(wordOrder)
    ensures var r := ReadRegister(entry, device, unitId, byteOrderTag, wordOrderTag, float32);
      var words := device[RequestFor(entry, unitId)];
      && (ParseValueType(entry.dataType).Failure? ==> r == Failure(UnsupportedDataType(entry.dataType)))
      && (ParseValueType(entry.dataType).Success? ==>
            var t := ParseValueType(entry.dataType).value;
            && (r.Success? <==> |words| >= t.Words())
            && (r.Success? ==> r.value == Scaled(Decode(t, words, byteOrder, wordOrder, float32).value, entry)))
  {
    var words := device[RequestFor(entry, unitId)];
    assert ReadRegister(entry, device, unitId, byteOrderTag, wordOrderTag, float32)
        == DecodeEntry(entry, words, Success(byteOrder), Success(wordOrder), float32);
  }

  /** An invalid byte order is reported before an invalid word order and before the type tag. */
  lemma EndianErrorsFirst(entry: RegisterConfig, device: Device, unitId: int, byteOrderTag: string,
                          wordOrderTag: string, float32: Float32Reader)
    requires RequestFor(entry, unitId) in device
    ensures GetEndian(byteOrderTag).Failure? ==>
      ReadRegister(entry, device, unitId, byteOrderTag, wordOrderTag, float32) == Failure(InvalidEndianOrder(byteOrderTag))
    ensures GetEndian(byteOrderTag).Success? && GetEndian(wordOrderTag).Failure? ==>
      ReadRegister(entry, device, unitId, byteOrderTag, wordOrderTag, float32) == Failure(InvalidEndianOrder(wordOrderTag))
  {
  }

  /** Scaling is linear: the scaled read is the unscaled read times the scale, failures alike. */
  lemma ScaleIsLinear(entry: RegisterConfig, device: Device, unitId: int, byteOrderTag: string,
                      wordOrderTag: string, float32: Float32Reader)
    ensures var r := ReadRegister(entry, device, unitId, byteOrderTag, wordOrderTag, float32);
      var r1 := ReadRegister(entry.(scale := None), device, unitId, byteOrderTag, wordOrderTag, float32);
      && (r.Failure? <==> r1.Failure?)
      && (r.Failure? ==> r.error == r1.error)
      && (r.Success? ==> r.value == Scaled(r1.value, entry))
  {
    var request := RequestFor(entry, unitId);
    assert RequestFor(entry.(scale := None), unitId) == request;
    if request in device {
      DecodeEntryScale(entry, device[request], GetEndian(byteOrderTag), GetEndian(wordOrderTag), float32);
    }
  }

  lemma DecodeEntryScale(entry: RegisterConfig, words: seq<Word>, byteOrder: Result<Endian>,
                         wordOrder: Result<Endian>, float32: Float32Reader)
    ensures var r := DecodeEntry(entry, words, byteOrder, wordOrder, float32);
      var r1 := DecodeEntry(entry.(scale := None), words, byteOrder, wordOrder, float32);
      && (r.Failure? <==> r1.Failure?)
      && (r.Failure? ==> r.error == r1.error)
      && (r.Success? ==> r.value == Scaled(r1.value, entry))
  {
    var t := ParseValueType(entry.dataType);
    if byteOrder.Success? && wordOrder.Success? && t.Success?
       && Decode(t.value, words, byteOrder.value, wordOrder.value, float32).Success?
    {
      DecodeEntryValue(entry, words, byteOrder.value, wordOrder.value, float32, t.value);
      DecodeEntryValue(entry.(scale := None), words, byteOrder.value, wordOrder.value, float32, t.value);
    }
  }

  /** A read whose orders parse and whose payload is wide enough yields its decoded value times the scale. */
  lemma DecodeEntryValue(entry: RegisterConfig, words: seq<Word>, byteOrder: Endian, wordOrder: Endian,
                         float32: Float32Reader, t: ValueType)
    requires entry.dataType == t.Tag() && |words| >= t.Words()
    ensures DecodeEntry(entry, words, Success(byteOrder), Success(wordOrder), float32)
         == Success(Scaled(Decode(t, words, byteOrder, wordOrder, float32).value, entry))
  {
    ParseTag(t);
  }

  /** An integer register read is the value whose encoding the device sent, times the scale. */
  lemma {:induction false} ReadEncodedInteger(entry: RegisterConfig, t: ValueType, v: int, unitId: int,
                                              byteOrderTag: string, wordOrderTag: string, float32: Float32Reader,
                                              byteOrder: Endian, wordOrder: Endian)
    requires t.IsInteger() && t.Min() <= v <= t.Max() && entry.dataType == t.Tag()
    requires GetEndian(byteOrderTag) == Success(byteOrder) && GetEndian(wordOrderTag) == Success(wordOrder)
    ensures var device := map[RequestFor(entry, unitId) := EncodeInteger(t, v, byteOrder, wordOrder)];
      ReadRegister(entry, device, unitId, byteOrderTag, wordOrderTag, float32) == Success(Scaled(v as real, entry))
  {
    var words := EncodeInteger(t, v, byteOrder, wordOrder);
    ParseTag(t);
    DecodeEncode(t, v, byteOrder, wordOrder);
    assert Decode(t, words, byteOrder, wordOrder, float32) == Success(v as real);
    DecodeEntryValue(entry, words, byteOrder, wordOrder, float32, t);
  }

  /** The 16-bit unsigned word 5000 at scale 0.001 reads as 5.0; int16 0xFFFF reads as -1 times the scale. */
  lemma ReadRegisterExamples(device: Device)
    ensures var entry := RegisterConfig(3012, 1, "uint16", Some(0.001));
      ReadRegister(entry, device[Request(3012, 1, 1) := [5000]], 1, "big", "big", _ => 0.0) == Success(5.0)
    ensures var entry := RegisterConfig(3014, 1, "int16", Some(0.001));
      ReadRegister(entry, device[Request(3014, 1, 1) := [0xFFFF]], 1, "big", "big", _ => 0.0) == Success(-0.001)
    ensures var entry := RegisterConfig(3012, 1, "UINT16", None);
      ReadRegister(entry, device[Request(3012, 1, 1) := [5000]], 1, "big", "big", _ => 0.0)
      == Failure(UnsupportedDataType("UINT16"))
  {
    assert Lower("big") == "big";
  }

  /** Every entry of the default map names a valid type whose width is the entry's length, at scale 0.001. */
  lemma DefaultRegisterMapWellFormed()
    ensures forall name | name in DEFAULT_REGISTER_MAP ::
      var entry := DEFAULT_REGISTER_MAP[name];
      && ParseValueType(entry.dataType).Success?
      && ParseValueType(entry.dataType).value.Words() == entry.length
      && Scale(entry) == 0.001
  {
  }
}
