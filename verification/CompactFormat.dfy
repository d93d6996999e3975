/** The compact serialization format: the values, their encoding and the decoder, as functions. */
module CompactFormat {
  import opened Bytes
  import opened StringMap

  type float64 = s: seq<byte> | |s| == 8 witness [0, 0, 0, 0, 0, 0, 0, 0]

  /** A variant tree as the serializer sees it. `Ref` is an object the object serializer has named. */
  datatype Value =
    | Void
    | Bool(b: bool)
    | Int(i: int32)
    | Long(l: int64)
    | Double(bits: float64)
    | Str(s: seq<byte>)
    | Arr(items: seq<Value>)
    | Assoc(entries: Table<Value>)
    | Ref(remote: bool, id: int64)

  // ---------------------------------------------------------------- encoding

  /** Tag and length in one byte; the length loses all but five bits. */
  function ShortForm(typetag: byte, data: seq<byte>): seq<byte>
    requires typetag < 0xe0 && typetag % 32 == 0
  {
    [typetag + |data| % 32] + data
  }

  /** Tag with the length of the length, of which three bits are kept; length; data. */
  function LongForm(typetag: byte, data: seq<byte>): seq<byte>
    requires typetag < 0xc0 && typetag % 32 == 0
  {
    [0xc0 + typetag / 4 + |UBytes(|data|)| % 8] + UBytes(|data|) + data
  }

  function Sized(typetag: byte, data: seq<byte>): seq<byte>
    requires typetag < 0xc0 && typetag % 32 == 0
  {
    if |data| <= 31 then ShortForm(typetag, data) else LongForm(typetag, data)
  }

  function EncRef(remote: bool, id: int): seq<byte> {
    ShortForm(0x40, [if remote then 0xff else 0] + SBytes(id))
  }

  function Enc(v: Value): seq<byte>
    decreases v, 0
  {
    match v
    case Void => [0xf0]
    case Bool(b) => [if b then 0xf3 else 0xf2]
    case Int(i) => ShortForm(0x00, SBytes(i))
    case Long(l) => ShortForm(0x00, SBytes(l))
    case Double(bits) => ShortForm(0x20, bits)
    case Str(s) => Sized(0x60, s)
    case Arr(items) => [0xf4] + EncItems(items) + [0xf5]
    case Assoc(entries) => [0xf6] + EncPairs(entries) + [0xf7]
    case Ref(remote, id) => EncRef(remote, id)
  }

  function EncItems(vs: seq<Value>): seq<byte>
    decreases vs
  {
    if vs == [] then [] else Enc(vs[0]) + EncItems(vs[1..])
  }

  /** The enumerator never yields the empty key. */
  function EncPair(e: Entry<Value>): seq<byte>
    decreases e
  {
    if e.key == [] then [] else Sized(0x60, e.key) + Enc(e.value)
  }

  function EncPairs(es: Table<Value>): seq<byte>
    decreases es
  {
    if es == [] then [] else EncPair(es[0]) + EncPairs(es[1..])
  }

  /** A whole packet: `ase_serialize_compact`. */
  function Packet(vs: seq<Value>): seq<byte> {
    Sized(0x80, EncItems(vs))
  }

  // ---------------------------------------------------------------- decoding

  datatype Error =
    | TooShort
    | InvalidTag
    | IntTooLarge
    | RealUnsupportedSize
    | ObjectRefMalformed
    | ObjectRefUnsupportedSize
    | UnexpectedArrayEndTag
    | UnexpectedAssocEndTag
    | WrongAssocKey
    | Malformed

  /** A value and the position of the cursor behind it, or the exception thrown. */
  datatype Decoded<+T> = Ok(v: T, pos: nat) | Throw(e: Error)

  function DecInt(d: seq<byte>): Decoded<Value> {
    if |d| > 8 then Throw(IntTooLarge)
    else if |d| == 0 then Ok(Int(0), 0)
    else
      SizedFits(d);
      if |d| <= 4 then Ok(Int(SValue(d)), 0) else Ok(Long(SValue(d)), 0)
  }

  lemma SizedFits(d: seq<byte>)
    requires 1 <= |d| <= 8
    ensures |d| <= 4 ==> -0x8000_0000 <= SValue(d) < 0x8000_0000
    ensures -0x8000_0000_0000_0000 <= SValue(d) < 0x8000_0000_0000_0000
  {
    SValueFits(d);
    HalfValues();
  }

  lemma HalfValues()
    ensures Half(1) == 0x80 && Half(2) == 0x8000 && Half(3) == 0x80_0000 && Half(4) == 0x8000_0000
    ensures Half(5) == 0x80_0000_0000 && Half(6) == 0x8000_0000_0000 && Half(7) == 0x80_0000_0000_0000
    ensures Half(8) == 0x8000_0000_0000_0000
  {
    assert Half(2) == 256 * Half(1);
    assert Half(3) == 256 * Half(2);
    assert Half(4) == 256 * Half(3);
    assert Half(5) == 256 * Half(4);
    assert Half(6) == 256 * Half(5);
    assert Half(7) == 256 * Half(6);
    assert Half(8) == 256 * Half(7);
  }

  function DecDouble(d: seq<byte>): Decoded<Value> {
    if |d| != 8 then Throw(RealUnsupportedSize) else Ok(Double(d), 0)
  }

  function DecRef(d: seq<byte>): Decoded<Value> {
    if |d| < 1 then Throw(ObjectRefMalformed)
    else if |d| == 1 then Ok(Ref(d[0] != 0, 0), 0)
    else if |d| > 9 then Throw(ObjectRefUnsupportedSize)
    else
      SizedFits(d[1..]);
      Ok(Ref(d[0] != 0, SValue(d[1..])), 0)
  }

  /** Header of the short and long forms: the type tag and the payload's bounds. */
  datatype Header = Bad(he: Error) | Payload(typetag: byte, start: nat, finish: nat)

  function DecHeader(b: seq<byte>, rp: nat, end: nat): (h: Header)
    requires rp < end <= |b| && b[rp] < 0xf0
    ensures h.Payload? ==> rp < h.start <= h.finish <= end
  {
    var tag := b[rp];
    if tag < 0xc0 then
      if end - (rp + 1) < tag % 32 then Bad(TooShort) else Payload(tag / 32 * 32, rp + 1, rp + 1 + tag % 32)
    else
      var n := tag % 8;
      if end - (rp + 1) < n then Bad(TooShort)
      else
        var len := UValue(b[rp + 1..rp + 1 + n]);
        var start := rp + 1 + n;
        if end - start < len then Bad(TooShort) else Payload((tag - 0xc0) / 8 * 32, start, start + len)
  }

  /** `ase_deserialize_compact_internal` on `b[rp..end]`. */
  function DecValue(b: seq<byte>, rp: nat, end: nat): (r: Decoded<Value>)
    requires rp <= end <= |b|
    ensures r.Ok? ==> rp < r.pos <= end
    decreases end - rp, 0
  {
    if rp == end then Throw(TooShort)
    else
      var tag := b[rp];
      if tag >= 0xf0 then
        if tag == 0xf0 then Ok(Void, rp + 1)
        else if tag == 0xf2 then Ok(Bool(false), rp + 1)
        else if tag == 0xf3 then Ok(Bool(true), rp + 1)
        else if tag == 0xf4 then
          match DecItems(b, true, rp + 1, end, [])
          case Throw(e) => Throw(e)
          case Ok(vs, p) => Ok(Arr(vs), p)
        else if tag == 0xf6 then
          match DecPairs(b, true, rp + 1, end, [])
          case Throw(e) => Throw(e)
          case Ok(es, p) => Ok(Assoc(es), p)
        else Throw(InvalidTag)
      else
        match DecHeader(b, rp, end)
        case Bad(e) => Throw(e)
        case Payload(typetag, start, finish) =>
          var r := DecPayload(b, typetag, start, finish);
          if r.Throw? then r else Ok(r.v, finish)
  }

  /** The payload of a short or long form; the cursor of the caller ends behind it in any case. */
  function DecPayload(b: seq<byte>, typetag: byte, start: nat, finish: nat): (r: Decoded<Value>)
    requires start <= finish <= |b|
    decreases finish - start, 2
  {
    var d := b[start..finish];
    if typetag == 0x00 then DecInt(d)
    else if typetag == 0x20 then DecDouble(d)
    else if typetag == 0x40 then DecRef(d)
    else if typetag == 0x60 then Ok(Str(d), 0)
    else if typetag == 0x80 then
      match DecItems(b, false, start, finish, [])
      case Throw(e) => Throw(e)
      case Ok(vs, p) => Ok(Arr(vs), p)
    else if typetag == 0xa0 then
      match DecPairs(b, false, start, finish, [])
      case Throw(e) => Throw(e)
      case Ok(es, p) => Ok(Assoc(es), p)
    else Throw(Malformed)
  }

  /** `ase_deserialize_compact_array`, with `acc` already stored. */
  function DecItems(b: seq<byte>, endTag: bool, rp: nat, end: nat, acc: seq<Value>): (r: Decoded<seq<Value>>)
    requires rp <= end <= |b|
    ensures r.Ok? ==> rp <= r.pos <= end
    decreases end - rp, 1
  {
    if !endTag && rp == end then Ok(acc, rp)
    else if rp == end then Throw(TooShort)
    else if b[rp] == 0xf5 then (if endTag then Ok(acc, rp + 1) else Throw(UnexpectedArrayEndTag))
    else
      match DecValue(b, rp, end)
      case Throw(e) => Throw(e)
      case Ok(v, p) => DecItems(b, endTag, p, end, acc + [v])
  }

  /** `ase_deserialize_compact_assoc`, with `acc` already stored. */
  function DecPairs(b: seq<byte>, endTag: bool, rp: nat, end: nat, acc: Table<Value>): (r: Decoded<Table<Value>>)
    requires rp <= end <= |b|
    ensures r.Ok? ==> rp <= r.pos <= end
    decreases end - rp, 1
  {
    if !endTag && rp == end then Ok(acc, rp)
    else if rp == end then Throw(TooShort)
    else if b[rp] == 0xf7 then (if endTag then Ok(acc, rp + 1) else Throw(UnexpectedAssocEndTag))
    else
      match DecValue(b, rp, end)
      case Throw(e) => Throw(e)
      case Ok(kv, p) =>
        if !kv.Str? then Throw(WrongAssocKey)
        else
          match DecValue(b, p, end)
          case Throw(e) => Throw(e)
          case Ok(ev, q) => DecPairs(b, endTag, q, end, Put(acc, kv.s, ev))
  }

  /** `ase_deserialize_compact_get_length`: how long the value at the start of `b` is, if that can be told. */
  datatype Length = Undetermined | Length(n: nat)

  function GetLength(b: seq<byte>): Length {
    if b == [] then Undetermined
    else if b[0] >= 0xf0 then Length(1)
    else if b[0] < 0xc0 then Length(b[0] % 32 + 1)
    else if |b| - 1 < b[0] % 8 then Undetermined
    else Length(UValue(b[1..1 + b[0] % 8]) + b[0] % 8 + 1)
  }

  // ---------------------------------------------------------------- the domain of the round trip

  /** Maps are sorted, as the string map keeps them. */
  ghost predicate WellFormed(v: Value)
    decreases v
  {
    match v
    case Arr(items) => forall i :: 0 <= i < |items| ==> WellFormed(items[i])
    case Assoc(es) => Sorted(es) && forall i :: 0 <= i < |es| ==> WellFormed(es[i].value)
    case _ => true
  }

  const LIMIT: nat := 0x100_0000_0000_0000

  /** Every string that gets written is shorter than 2^56 bytes. */
  ghost predicate Small(v: Value)
    decreases v
  {
    match v
    case Str(s) => |s| < LIMIT
    case Arr(items) => forall i :: 0 <= i < |items| ==> Small(items[i])
    case Assoc(es) => forall i :: 0 <= i < |es| && es[i].key != [] ==> |es[i].key| < LIMIT && Small(es[i].value)
    case _ => true
  }

  /** What comes back: a long that fits 32 bits is an int, an empty key is lost. */
  function Norm(v: Value): Value
    decreases v, 0
  {
    match v
    case Long(l) => if -0x8000_0000 <= l < 0x8000_0000 then Int(l) else v
    case Arr(items) => Arr(NormItems(items))
    case Assoc(es) => Assoc(NormPairs(es))
    case _ => v
  }

  function NormItems(vs: seq<Value>): seq<Value>
    decreases vs
  {
    if vs == [] then [] else [Norm(vs[0])] + NormItems(vs[1..])
  }

  function NormPairs(es: Table<Value>): Table<Value>
    decreases es
  {
    if es == [] then []
    else (if es[0].key == [] then [] else [Entry(es[0].key, Norm(es[0].value))]) + NormPairs(es[1..])
  }

  /** A value that comes back unchanged: no long that would do as an int, no empty key. */
  ghost predicate Plain(v: Value)
    decreases v
  {
    match v
    case Long(l) => !(-0x8000_0000 <= l < 0x8000_0000)
    case Arr(items) => forall i :: 0 <= i < |items| ==> Plain(items[i])
    case Assoc(es) => forall i :: 0 <= i < |es| ==> es[i].key != [] && Plain(es[i].value)
    case _ => true
  }
}
