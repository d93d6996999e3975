/** The bytes of the compact format themselves: what the tags and sizes on the wire are, the forms the decoder reads
    that the encoder does not write, and what it throws at. */
module CompactBytes {
  import opened Bytes
  import opened StringMap
  import opened CompactFormat
  import opened CompactProofs

  // ---------------------------------------------------------------- bytes of numbers

  lemma DivDiv(v: int, n: nat)
    requires n >= 1
    ensures v / 256 / n == v / (256 * n)
  {
    var q, r := v / 256 / n, v / 256 % n;
    var s := v % 256;
    assert v == 256 * (q * n + r) + s;
    assert v == (256 * n) * q + (256 * r + s);
    assert 0 <= 256 * r + s < 256 * n;
    QuotientIs(v, 256 * n, q, 256 * r + s);
  }

  lemma AtLeast(d: nat, e: nat)
    requires e >= 1
    ensures d * e >= d
  {
  }

  lemma QuotientIs(v: int, d: nat, q: int, r: int)
    requires d >= 1 && v == d * q + r && 0 <= r < d
    ensures v / d == q
  {
    var p, m := v / d, v % d;
    assert d * p + m == d * q + r;
    if p > q {
      AtLeast(d, p - q);
    } else if p < q {
      AtLeast(d, q - p);
    }
  }

  lemma {:induction false} SBytesAt(v: int, k: nat)
    requires k < |SBytes(v)|
    ensures SBytes(v)[k] == v / Pow256(k) % 256
    decreases k
  {
    if k > 0 {
      SBytesAt(v / 256, k - 1);
      DivDiv(v, Pow256(k - 1));
    }
  }

  lemma {:induction false} UBytesAt(v: nat, k: nat)
    requires k < |UBytes(v)|
    ensures UBytes(v)[k] == v / Pow256(k) % 256
    decreases k
  {
    if k > 0 {
      UBytesAt(v / 256, k - 1);
      DivDiv(v, Pow256(k - 1));
    }
  }

  // ---------------------------------------------------------------- what is written

  /** The fewest little-endian two's complement bytes that hold `v`. */
  ghost predicate IntegerBytes(b: seq<byte>, v: int) {
    && b != [] && Fits(v, |b|) && (|b| > 1 ==> !Fits(v, |b| - 1))
    && forall k :: 0 <= k < |b| ==> b[k] == v / Pow256(k) % 256
  }

  /** Up to 31 bytes, behind a byte with their number; more, behind one with the number of bytes of their number, and
      these. */
  ghost predicate SizedBytes(b: seq<byte>, short: byte, long: byte, data: seq<byte>) {
    if |data| <= 31 then |b| == 1 + |data| && b[0] == short + |data| && b[1..] == data
    else
      var n := |b| - 1 - |data|;
      && 1 <= n <= 7 && Pow256(n - 1) <= |data| < Pow256(n)
      && b[0] == long + n && (forall k :: 0 <= k < n ==> b[1 + k] == |data| / Pow256(k) % 256) && b[1 + n..] == data
  }

  ghost predicate Written(v: Value, b: seq<byte>) {
    match v
    case Void => b == [0xf0]
    case Bool(x) => b == [if x then 0xf3 else 0xf2]
    case Int(i) => 2 <= |b| <= 5 && b[0] == |b| - 1 && IntegerBytes(b[1..], i)
    case Long(l) => 2 <= |b| <= 9 && b[0] == |b| - 1 && IntegerBytes(b[1..], l)
    case Double(bits) => b == [0x28] + bits
    case Str(s) => SizedBytes(b, 0x60, 0xd8, s)
    case Arr(_) => |b| >= 2 && b[0] == 0xf4 && b[|b| - 1] == 0xf5
    case Assoc(_) => |b| >= 2 && b[0] == 0xf6 && b[|b| - 1] == 0xf7
    case Ref(remote, id) =>
      3 <= |b| <= 10 && b[0] == 0x40 + |b| - 1 && b[1] == (if remote then 0xff else 0) && IntegerBytes(b[2..], id)
  }

  lemma SBytesAre(v: int64)
    ensures IntegerBytes(SBytes(v), v) && 1 <= |SBytes(v)| <= 8
    ensures -0x8000_0000 <= v < 0x8000_0000 ==> |SBytes(v)| <= 4
  {
    SBytesShort(v);
    var b := SBytes(v);
    SBytesLength(v, |b|);
    if |b| > 1 {
      SBytesLength(v, |b| - 1);
    }
    forall k | 0 <= k < |b| ensures b[k] == v / Pow256(k) % 256 {
      SBytesAt(v, k);
    }
  }

  lemma Behind(tag: byte, u: seq<byte>, data: seq<byte>)
    ensures var b := ([tag] + u) + data;
      |b| == 1 + |u| + |data| && b[0] == tag && (forall k :: 0 <= k < |u| ==> b[1 + k] == u[k]) && b[1 + |u|..] == data
  {
  }

  lemma SizeBytes(size: nat)
    requires 31 < size < LIMIT
    ensures var u := UBytes(size); var n := |u|;
      && 1 <= n <= 7 && Pow256(n - 1) <= size < Pow256(n) && forall k :: 0 <= k < n ==> u[k] == size / Pow256(k) % 256
  {
    var u, n := UBytes(size), |UBytes(size)|;
    LengthBytes(size);
    UBytesLength(size, n);
    UBytesLength(size, n - 1);
    forall k | 0 <= k < n ensures u[k] == size / Pow256(k) % 256 {
      UBytesAt(size, k);
    }
  }

  lemma LongSized(tag: byte, long: byte, short: byte, u: seq<byte>, data: seq<byte>)
    requires |data| > 31 && 1 <= |u| <= 7 && tag == long + |u|
    requires Pow256(|u| - 1) <= |data| < Pow256(|u|)
    requires forall k :: 0 <= k < |u| ==> u[k] == |data| / Pow256(k) % 256
    ensures SizedBytes(([tag] + u) + data, short, long, data)
  {
    Behind(tag, u, data);
    hide Pow256;
  }

  lemma LongIs(typetag: byte, data: seq<byte>)
    requires typetag < 0xc0 && typetag % 32 == 0 && 31 < |data| < LIMIT
    ensures SizedBytes(LongForm(typetag, data), typetag, LongTagByte(typetag, 0), data)
  {
    hide SizedBytes, LongForm, UBytes, Pow256;
    var u := UBytes(|data|);
    SizeBytes(|data|);
    LongFormIs(typetag, data);
    LongSized(LongTagByte(typetag, |u|), LongTagByte(typetag, 0), typetag, u, data);
  }

  lemma SizedIs(typetag: byte, data: seq<byte>)
    requires typetag < 0xc0 && typetag % 32 == 0 && |data| < LIMIT
    ensures SizedBytes(Sized(typetag, data), typetag, LongTagByte(typetag, 0), data)
  {
    if |data| > 31 {
      LongIs(typetag, data);
      hide SizedBytes, LongForm;
    }
  }

  /** The encoding of every value starts with the tag the format gives it, and has its number or its bytes behind. */
  lemma EncodingIs(v: Value)
    requires v.Str? ==> |v.s| < LIMIT
    ensures Written(v, Enc(v))
  {
    hide IntegerBytes, SizedBytes, Sized, SBytes, EncItems, EncPairs;
    match v {
      case Int(i) =>
        SBytesAre(i);
        assert ShortForm(0x00, SBytes(i)) == [|SBytes(i)|] + SBytes(i);
        assert Enc(v)[1..] == SBytes(i);
      case Long(l) =>
        SBytesAre(l);
        assert ShortForm(0x00, SBytes(l)) == [|SBytes(l)|] + SBytes(l);
        assert Enc(v)[1..] == SBytes(l);
      case Str(s) => SizedIs(0x60, s);
      case Ref(remote, id) => ReferenceIs(remote, id);
      case _ =>
    }
  }

  lemma ReferenceIs(remote: bool, id: int64)
    ensures Written(Ref(remote, id), Enc(Ref(remote, id)))
  {
    SBytesAre(id);
    var c: byte := if remote then 0xff else 0;
    hide IntegerBytes, SBytes;
    assert EncRef(remote, id) == [0x40 + (1 + |SBytes(id)|)] + ([c] + SBytes(id));
    assert Enc(Ref(remote, id))[2..] == SBytes(id);
  }

  lemma PacketIs(vs: seq<Value>)
    requires |EncItems(vs)| < LIMIT
    ensures SizedBytes(Packet(vs), 0x80, 0xe0, EncItems(vs))
  {
    SizedIs(0x80, EncItems(vs));
    hide SizedBytes, Sized, EncItems;
  }

  // ---------------------------------------------------------------- what else is read

  function Short(tag: byte, d: seq<byte>, t: seq<byte>): seq<byte> {
    [tag] + d + t
  }

  lemma ShortPayload(tag: byte, d: seq<byte>, t: seq<byte>)
    requires tag < 0xc0 && tag % 32 == |d|
    ensures var b := Short(tag, d, t);
      && b[0] == tag && |b| == 1 + |d| + |t| && b[1..1 + |d|] == d
      && DecHeader(b, 0, |b|) == Payload(tag / 32 * 32, 1, 1 + |d|)
  {
  }

  /** An integer may have any number of bytes up to eight, none for zero; it is an int if and only if it has at most
      four. */
  lemma IntegerForms(d: seq<byte>, t: seq<byte>)
    requires |d| <= 31
    ensures var b := Short(|d|, d, t); var r := DecValue(b, 0, |b|);
      if |d| > 8 then r == Throw(IntTooLarge)
      else
        && r.Ok? && r.pos == 1 + |d|
        && if |d| <= 4 then r.v.Int? && r.v.i == SValue(d) else r.v.Long? && r.v.l == SValue(d)
  {
    ShortPayload(|d|, d, t);
    hide SValue, DecHeader;
  }

  lemma DoubleForms(d: seq<byte>, t: seq<byte>)
    requires |d| <= 31
    ensures var b := Short(0x20 + |d|, d, t);
      DecValue(b, 0, |b|) == if |d| != 8 then Throw(RealUnsupportedSize) else Ok(Double(d), 9)
  {
    ShortPayload(0x20 + |d|, d, t);
    hide DecHeader;
  }

  /** The side of a reference is its first byte, any but zero for the sender's remote one; the identifier may have any
      number of bytes up to eight, none for zero. */
  lemma ReferenceForms(d: seq<byte>, t: seq<byte>)
    requires |d| <= 31
    ensures var b := Short(0x40 + |d|, d, t); var r := DecValue(b, 0, |b|);
      if |d| == 0 then r == Throw(ObjectRefMalformed)
      else if |d| > 9 then r == Throw(ObjectRefUnsupportedSize)
      else r.Ok? && r.pos == 1 + |d| && r.v.Ref? && (r.v.remote <==> d[0] != 0) && r.v.id == SValue(d[1..])
  {
    ShortPayload(0x40 + |d|, d, t);
    hide SValue, DecHeader;
    if |d| == 1 {
      EmptyIsZero(d[1..]);
    }
  }

  lemma EmptyIsZero(d: seq<byte>)
    requires d == []
    ensures SValue(d) == 0
  {
  }

  lemma PairsStart(es: Table<Value>)
    requires WellFormed(Assoc(es)) && |EncPairs(es)| < LIMIT
    ensures PairsOk(es, [])
  {
    ShortPairsSmall(es);
  }

  /** A map may also have its size in front. */
  lemma CountedMap(es: Table<Value>, t: seq<byte>)
    requires WellFormed(Assoc(es)) && |EncPairs(es)| < LIMIT
    ensures var b := Sized(0xa0, EncPairs(es)) + t;
      DecValue(b, 0, |b|) == Ok(Assoc(NormPairs(es)), |Sized(0xa0, EncPairs(es))|)
  {
    hide Sized, EncPairs, NormPairs, DecPairs, WellFormed, Small, PairsOk;
    var p, body := Sized(0xa0, EncPairs(es)), EncPairs(es);
    var b := p + t;
    assert b[0..|p|] == p;
    SizedHeader(b, 0, |b|, 0xa0, body);
    PairsStart(es);
    assert body + MapTail(false) == body;
    PairsRoundTrip(es, b, false, |p| - |body|, |p|, []);
    assert [] + NormPairs(es) == NormPairs(es);
  }

  /** Of the one-byte tags five are in use. */
  lemma ImmediateForms(tag: byte, t: seq<byte>)
    requires tag >= 0xf0 && tag != 0xf4 && tag != 0xf6
    ensures var b := Short(tag, [], t);
      DecValue(b, 0, |b|) == if tag == 0xf0 then Ok(Void, 1)
                             else if tag == 0xf2 then Ok(Bool(false), 1)
                             else if tag == 0xf3 then Ok(Bool(true), 1)
                             else Throw(InvalidTag)
  {
    assert Short(tag, [], t)[0] == tag;
  }

  /** Nothing is read beyond the end. */
  lemma CutShort(tag: byte, d: seq<byte>)
    requires tag < 0xc0 && |d| < tag % 32
    ensures DecValue([tag] + d, 0, 1 + |d|) == Throw(TooShort) && DecValue([], 0, 0) == Throw(TooShort)
  {
    assert ([tag] + d)[0] == tag;
  }

  /** An end tag without its beginning, and a key that is no string. */
  lemma Misplaced(x: byte)
    requires x < 0x80
    ensures DecValue([0x81, 0xf5], 0, 2) == Throw(UnexpectedArrayEndTag)
    ensures DecValue([0xa1, 0xf7], 0, 2) == Throw(UnexpectedAssocEndTag)
    ensures DecValue([0xf6, 0x01, x, 0xf0, 0xf7], 0, 5) == Throw(WrongAssocKey)
    ensures DecValue([0xf4, 0xf0], 0, 2) == Throw(TooShort)
  {
    var m: seq<byte> := [0xf6, 0x01, x, 0xf0, 0xf7];
    assert m[2..3] == [x];
    assert DecHeader(m, 1, 5) == Payload(0, 2, 3);
    assert DecValue(m, 1, 5) == Ok(Int(x), 3);
    var a: seq<byte> := [0xf4, 0xf0];
    assert DecValue(a, 1, 2) == Ok(Void, 2);
    assert DecItems(a, true, 2, 2, [Void]) == Throw(TooShort);
    assert [] + [Void] == [Void];
    var e: seq<byte> := [0x81, 0xf5];
    assert DecHeader(e, 0, 2) == Payload(0x80, 1, 2);
    var f: seq<byte> := [0xa1, 0xf7];
    assert DecHeader(f, 0, 2) == Payload(0xa0, 1, 2);
  }

  /** The length told in front of anything that decodes, but the bracketed forms, is how far the decoder reads. */
  lemma LengthIsRead(b: seq<byte>)
    requires DecValue(b, 0, |b|).Ok?
    ensures GetLength(b) == Length(if b[0] == 0xf4 || b[0] == 0xf6 then 1 else DecValue(b, 0, |b|).pos)
  {
  }
}
