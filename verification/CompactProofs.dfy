/** The compact format round-trips exactly on its domain, its decoder is total and stays in range, and its
    packets delimit themselves. */
module CompactProofs {
  import opened Bytes
  import opened StringMap
  import opened CompactFormat

  /** `part` stands in `b` at `at`. */
  ghost predicate StandsAt(b: seq<byte>, at: nat, part: seq<byte>) {
    at + |part| <= |b| && b[at..at + |part|] == part
  }

  lemma StandsSplit(b: seq<byte>, at: nat, x: seq<byte>, y: seq<byte>)
    requires StandsAt(b, at, x + y)
    ensures StandsAt(b, at, x) && StandsAt(b, at + |x|, y)
  {
    assert b[at..at + |x|] == (x + y)[..|x|] == x;
    assert b[at + |x|..at + |x| + |y|] == (x + y)[|x|..] == y;
  }

  lemma StandsAssoc(b: seq<byte>, at: nat, x: seq<byte>, y: seq<byte>, z: seq<byte>)
    requires StandsAt(b, at, (x + y) + z)
    ensures StandsAt(b, at, x) && StandsAt(b, at + |x|, y + z)
  {
    assert (x + y) + z == x + (y + z);
    StandsSplit(b, at, x, y + z);
  }

  lemma StandsFour(b: seq<byte>, at: nat, x: seq<byte>, y: seq<byte>, z: seq<byte>, t: seq<byte>)
    requires StandsAt(b, at, ((x + y) + z) + t)
    ensures StandsAt(b, at, x) && StandsAt(b, at + |x|, y) && StandsAt(b, at + |x| + |y|, z + t)
  {
    StandsAssoc(b, at, x + y, z, t);
    StandsSplit(b, at, x, y);
  }

  lemma StandsByte(b: seq<byte>, at: nat, c: byte)
    requires StandsAt(b, at, [c])
    ensures b[at] == c
  {
    assert b[at..at + 1][0] == c;
  }

  // ---------------------------------------------------------------- headers

  lemma LimitIs()
    ensures Pow256(7) == LIMIT
  {
    assert Pow256(1) == 256 * Pow256(0);
    assert Pow256(2) == 256 * Pow256(1);
    assert Pow256(3) == 256 * Pow256(2);
    assert Pow256(4) == 256 * Pow256(3);
    assert Pow256(5) == 256 * Pow256(4);
    assert Pow256(6) == 256 * Pow256(5);
    assert Pow256(7) == 256 * Pow256(6);
  }

  /** Seven bytes hold exactly the lengths below 2^56. */
  lemma LengthBytes(n: nat)
    ensures |UBytes(n)| <= 7 <==> n < LIMIT
  {
    UBytesLength(n, 7);
    LimitIs();
  }

  lemma ShortHeader(b: seq<byte>, rp: nat, end: nat, typetag: byte, data: seq<byte>)
    requires typetag < 0xc0 && typetag % 32 == 0 && |data| <= 31
    requires end <= |b| && rp + 1 + |data| <= end && StandsAt(b, rp, ShortForm(typetag, data))
    ensures b[rp] == typetag + |data| && b[rp] < 0xc0
    ensures DecHeader(b, rp, end) == Payload(typetag, rp + 1, rp + 1 + |data|)
    ensures StandsAt(b, rp + 1, data)
  {
    StandsSplit(b, rp, [typetag + |data| % 32], data);
    StandsByte(b, rp, typetag + |data| % 32);
    assert (typetag + |data|) / 32 * 32 == typetag && (typetag + |data|) % 32 == |data|;
  }

  lemma LongTag(typetag: byte, n: nat)
    requires typetag < 0xc0 && typetag % 32 == 0 && n <= 7
    ensures var tag := LongTagByte(typetag, n);
      0xc0 <= tag < 0xf0 && tag % 8 == n && (tag - 0xc0) / 8 * 32 == typetag
  {
    var k := typetag / 32;
    assert typetag == 32 * k && typetag / 4 == 8 * k;
  }

  lemma StandsLong(b: seq<byte>, rp: nat, tag: byte, u: seq<byte>, data: seq<byte>)
    requires StandsAt(b, rp, ([tag] + u) + data)
    ensures b[rp] == tag && StandsAt(b, rp + 1, u) && StandsAt(b, rp + 1 + |u|, data)
  {
    StandsAssoc(b, rp, [tag], u, data);
    StandsByte(b, rp, tag);
    StandsSplit(b, rp + 1, u, data);
  }

  function LongTagByte(typetag: byte, n: nat): byte
    requires typetag < 0xc0 && n <= 7
  {
    0xc0 + typetag / 4 + n
  }

  lemma LongFormIs(typetag: byte, data: seq<byte>)
    requires typetag < 0xc0 && typetag % 32 == 0 && |data| < LIMIT
    ensures var u := UBytes(|data|); |u| <= 7 && LongForm(typetag, data) == ([LongTagByte(typetag, |u|)] + u) + data
  {
    LengthBytes(|data|);
  }

  lemma LongParts(b: seq<byte>, rp: nat, typetag: byte, data: seq<byte>)
    requires typetag < 0xc0 && typetag % 32 == 0 && |data| < LIMIT
    requires StandsAt(b, rp, LongForm(typetag, data))
    ensures var u := UBytes(|data|);
      && |u| <= 7 && b[rp] == LongTagByte(typetag, |u|)
      && StandsAt(b, rp + 1, u) && StandsAt(b, rp + 1 + |u|, data)
      && |LongForm(typetag, data)| == 1 + |u| + |data|
  {
    LongFormIs(typetag, data);
    hide UBytes, LongForm, LongTagByte;
    var u := UBytes(|data|);
    StandsLong(b, rp, LongTagByte(typetag, |u|), u, data);
  }

  lemma LongHeader(b: seq<byte>, rp: nat, end: nat, typetag: byte, data: seq<byte>)
    requires typetag < 0xc0 && typetag % 32 == 0 && |data| < LIMIT
    requires end <= |b| && rp + |LongForm(typetag, data)| <= end && StandsAt(b, rp, LongForm(typetag, data))
    ensures 0xc0 <= b[rp] < 0xf0
    ensures var start := rp + 1 + |UBytes(|data|)|;
      DecHeader(b, rp, end) == Payload(typetag, start, start + |data|) && StandsAt(b, start, data)
    ensures |LongForm(typetag, data)| == 1 + |UBytes(|data|)| + |data|
  {
    LongParts(b, rp, typetag, data);
    LongTag(typetag, |UBytes(|data|)|);
    UBytesValue(|data|);
    LongHeaderRead(b, rp, end, UBytes(|data|));
    hide LongTagByte, DecHeader, LongForm, UBytes, UValue;
  }

  lemma LongHeaderRead(b: seq<byte>, rp: nat, end: nat, u: seq<byte>)
    requires rp < end <= |b| && 0xc0 <= b[rp] < 0xf0 && b[rp] % 8 == |u|
    requires StandsAt(b, rp + 1, u) && rp + 1 + |u| + UValue(u) <= end
    ensures var start := rp + 1 + |u|;
      DecHeader(b, rp, end) == Payload((b[rp] - 0xc0) / 8 * 32, start, start + UValue(u))
  {
  }

  /** The payload of a sized form is found again, whichever form it took. */
  lemma SizedHeader(b: seq<byte>, rp: nat, end: nat, typetag: byte, data: seq<byte>)
    requires typetag < 0xc0 && typetag % 32 == 0 && |data| < LIMIT
    requires end <= |b| && rp + |Sized(typetag, data)| <= end && StandsAt(b, rp, Sized(typetag, data))
    ensures b[rp] < 0xf0
    ensures var fin := rp + |Sized(typetag, data)|;
      DecHeader(b, rp, end) == Payload(typetag, fin - |data|, fin) && b[fin - |data|..fin] == data
    ensures |Sized(typetag, data)| > |data|
  {
    if |data| <= 31 {
      ShortHeader(b, rp, end, typetag, data);
    } else {
      LongHeader(b, rp, end, typetag, data);
    }
  }

  // ---------------------------------------------------------------- round trip

  lemma SBytesShort(v: int64)
    ensures 1 <= |SBytes(v)| <= 8
    ensures |SBytes(v)| <= 4 <==> -0x8000_0000 <= v < 0x8000_0000
  {
    HalfValues();
    SBytesValue(v);
    SBytesLength(v, 4);
    SBytesLength(v, 8);
  }

  /** An integer comes back as an int exactly when it fits 32 bits, whatever it was. */
  lemma IntegerRoundTrip(v: int64)
    ensures DecInt(SBytes(v)) == Ok(if -0x8000_0000 <= v < 0x8000_0000 then Int(v) else Long(v), 0)
  {
    SBytesShort(v);
    SBytesValue(v);
  }

  lemma RefRoundTrip(remote: bool, id: int64)
    ensures DecRef([if remote then 0xff else 0] + SBytes(id)) == Ok(Ref(remote, id), 0)
    ensures |SBytes(id)| <= 8
  {
    var d := [if remote then 0xff else 0] + SBytes(id);
    SBytesShort(id);
    SBytesValue(id);
    assert d[1..] == SBytes(id);
  }

  /** No encoding starts with an end tag. */
  lemma FirstByte(v: Value)
    ensures Enc(v) != [] && Enc(v)[0] != 0xf5 && Enc(v)[0] != 0xf7
  {
    match v {
      case Str(s) => SizedFirst(0x60, s);
      case _ =>
    }
  }

  lemma SizedFirst(typetag: byte, data: seq<byte>)
    requires typetag < 0xc0 && typetag % 32 == 0
    ensures Sized(typetag, data) != [] && Sized(typetag, data)[0] < 0xf0
  {
    assert typetag / 32 <= 5;
    assert typetag / 4 <= 40;
  }

  /** A payload of at most 31 bytes that decodes by itself. */
  lemma ShortRoundTrip(b: seq<byte>, rp: nat, end: nat, typetag: byte, data: seq<byte>, v: Value)
    requires typetag < 0xc0 && typetag % 32 == 0 && |data| <= 31
    requires end <= |b| && rp + 1 + |data| <= end && StandsAt(b, rp, ShortForm(typetag, data))
    requires forall c: seq<byte>, i: nat, j: nat ::
      i <= j <= |c| && c[i..j] == data ==> DecPayload(c, typetag, i, j) == Ok(v, 0)
    ensures DecValue(b, rp, end) == Ok(v, rp + 1 + |data|)
  {
    ShortHeader(b, rp, end, typetag, data);
  }

  lemma LeafRoundTrip(v: Value, b: seq<byte>, rp: nat, end: nat)
    requires v.Int? || v.Long? || v.Double? || v.Ref?
    requires end <= |b| && rp + |Enc(v)| <= end && StandsAt(b, rp, Enc(v))
    ensures DecValue(b, rp, end) == Ok(Norm(v), rp + |Enc(v)|)
  {
    match v {
      case Int(i) =>
        IntegerRoundTrip(i);
        SBytesShort(i);
        ShortRoundTrip(b, rp, end, 0x00, SBytes(i), v);
      case Long(l) =>
        IntegerRoundTrip(l);
        SBytesShort(l);
        ShortRoundTrip(b, rp, end, 0x00, SBytes(l), Norm(v));
      case Double(bits) =>
        ShortRoundTrip(b, rp, end, 0x20, bits, v);
      case Ref(remote, id) =>
        RefRoundTrip(remote, id);
        ShortRoundTrip(b, rp, end, 0x40, [if remote then 0xff else 0] + SBytes(id), v);
    }
  }

  lemma StrRoundTrip(s: seq<byte>, b: seq<byte>, rp: nat, end: nat)
    requires |s| < LIMIT
    requires end <= |b| && rp + |Sized(0x60, s)| <= end && StandsAt(b, rp, Sized(0x60, s))
    ensures DecValue(b, rp, end) == Ok(Str(s), rp + |Sized(0x60, s)|)
  {
    SizedHeader(b, rp, end, 0x60, s);
  }

  /** Decoding what was encoded gives the normal form of the value and leaves the cursor right behind it,
      whatever follows. */
  lemma {:induction false} RoundTrip(v: Value, b: seq<byte>, rp: nat, end: nat)
    requires WellFormed(v) && Small(v)
    requires end <= |b| && rp + |Enc(v)| <= end && StandsAt(b, rp, Enc(v))
    ensures DecValue(b, rp, end) == Ok(Norm(v), rp + |Enc(v)|)
    decreases v, 1
  {
    match v {
      case Void => StandsByte(b, rp, 0xf0);
      case Bool(x) => StandsByte(b, rp, if x then 0xf3 else 0xf2);
      case Str(s) => StrRoundTrip(s, b, rp, end);
      case Arr(items) => ArrRoundTrip(items, b, rp, end);
      case Assoc(es) => AssocRoundTrip(es, b, rp, end);
      case _ => LeafRoundTrip(v, b, rp, end);
    }
  }

  lemma {:induction false} ArrRoundTrip(items: seq<Value>, b: seq<byte>, rp: nat, end: nat)
    requires WellFormed(Arr(items)) && Small(Arr(items))
    requires end <= |b| && rp + |Enc(Arr(items))| <= end && StandsAt(b, rp, Enc(Arr(items)))
    ensures DecValue(b, rp, end) == Ok(Norm(Arr(items)), rp + |Enc(Arr(items))|)
    decreases items, 1
  {
    var body := EncItems(items) + [0xf5];
    assert Enc(Arr(items)) == [0xf4] + body;
    StandsSplit(b, rp, [0xf4], body);
    StandsByte(b, rp, 0xf4);
    ItemsRoundTrip(items, b, true, rp + 1, end, []);
    assert [] + NormItems(items) == NormItems(items);
  }

  lemma {:induction false} AssocRoundTrip(es: Table<Value>, b: seq<byte>, rp: nat, end: nat)
    requires WellFormed(Assoc(es)) && Small(Assoc(es))
    requires end <= |b| && rp + |Enc(Assoc(es))| <= end && StandsAt(b, rp, Enc(Assoc(es)))
    ensures DecValue(b, rp, end) == Ok(Norm(Assoc(es)), rp + |Enc(Assoc(es))|)
    decreases es, 2
  {
    var body := EncPairs(es) + [0xf7];
    assert Enc(Assoc(es)) == [0xf6] + body;
    StandsSplit(b, rp, [0xf6], body);
    StandsByte(b, rp, 0xf6);
    PairsRoundTrip(es, b, true, rp + 1, end, []);
    assert [] + NormPairs(es) == NormPairs(es);
  }

  lemma StartsWith(b: seq<byte>, at: nat, part: seq<byte>)
    requires StandsAt(b, at, part) && part != []
    ensures b[at] == part[0]
  {
    assert b[at..at + |part|][0] == b[at];
  }

  lemma ItemsParts(vs: seq<Value>, tail: seq<byte>, b: seq<byte>, rp: nat)
    requires vs != [] && StandsAt(b, rp, EncItems(vs) + tail)
    ensures StandsAt(b, rp, Enc(vs[0])) && StandsAt(b, rp + |Enc(vs[0])|, EncItems(vs[1..]) + tail)
    ensures b[rp] != 0xf5 && Enc(vs[0]) != [] && |EncItems(vs)| == |Enc(vs[0])| + |EncItems(vs[1..])|
  {
    assert EncItems(vs) == Enc(vs[0]) + EncItems(vs[1..]);
    FirstByte(vs[0]);
    hide Sized, ShortForm, LongForm, EncRef, EncPairs, EncPair, SBytes, UBytes;
    StandsAssoc(b, rp, Enc(vs[0]), EncItems(vs[1..]), tail);
    StartsWith(b, rp, Enc(vs[0]));
  }

  lemma NormItemsCons(vs: seq<Value>, acc: seq<Value>)
    requires vs != []
    ensures (acc + [Norm(vs[0])]) + NormItems(vs[1..]) == acc + NormItems(vs)
  {
  }

  lemma DecItemsNext(b: seq<byte>, endTag: bool, rp: nat, end: nat, acc: seq<Value>, v: Value, p: nat)
    requires rp < end <= |b| && b[rp] != 0xf5 && DecValue(b, rp, end) == Ok(v, p)
    ensures DecItems(b, endTag, rp, end, acc) == DecItems(b, endTag, p, end, acc + [v])
  {
  }

  lemma DecItemsDone(b: seq<byte>, endTag: bool, rp: nat, end: nat, acc: seq<Value>)
    requires rp <= end <= |b|
    requires if endTag then rp < end && b[rp] == 0xf5 else rp == end
    ensures DecItems(b, endTag, rp, end, acc) == Ok(acc, rp + if endTag then 1 else 0)
  {
  }

  /** What follows the items: the array tag, or nothing. */
  function Tail(endTag: bool): seq<byte> {
    if endTag then [0xf5] else []
  }

  lemma NoItems(b: seq<byte>, endTag: bool, rp: nat, end: nat, acc: seq<Value>)
    requires end <= |b| && StandsAt(b, rp, EncItems([]) + Tail(endTag))
    requires if endTag then rp + 1 <= end else rp == end
    ensures DecItems(b, endTag, rp, end, acc) == Ok(acc + NormItems([]), rp + |Tail(endTag)|)
  {
    assert acc + [] == acc;
    assert EncItems([]) + Tail(endTag) == Tail(endTag);
    if endTag {
      StandsByte(b, rp, 0xf5);
    }
    DecItemsDone(b, endTag, rp, end, acc);
  }

  /** A sequence of values, ended by the array tag or by the end of the range. */
  lemma {:induction false} ItemsRoundTrip(vs: seq<Value>, b: seq<byte>, endTag: bool, rp: nat, end: nat,
                                          acc: seq<Value>)
    requires forall i :: 0 <= i < |vs| ==> WellFormed(vs[i]) && Small(vs[i])
    requires end <= |b| && StandsAt(b, rp, EncItems(vs) + Tail(endTag))
    requires if endTag then rp + |EncItems(vs)| + 1 <= end else rp + |EncItems(vs)| == end
    ensures DecItems(b, endTag, rp, end, acc) == Ok(acc + NormItems(vs), rp + |EncItems(vs)| + |Tail(endTag)|)
    decreases vs, 0
  {
    hide Enc, DecValue, Norm;
    if vs == [] {
      NoItems(b, endTag, rp, end, acc);
    } else {
      var p := rp + |Enc(vs[0])|;
      ItemsParts(vs, Tail(endTag), b, rp);
      RoundTrip(vs[0], b, rp, end);
      DecItemsNext(b, endTag, rp, end, acc, Norm(vs[0]), p);
      ItemsRoundTrip(vs[1..], b, endTag, p, end, acc + [Norm(vs[0])]);
      NormItemsCons(vs, acc);
    }
  }

  /** What the pairs of a map must be like to come back. */
  ghost predicate PairsOk(es: Table<Value>, acc: Table<Value>) {
    && Sorted(es) && (forall i :: 0 <= i < |es| ==> WellFormed(es[i].value))
    && (forall i :: 0 <= i < |es| && es[i].key != [] ==> |es[i].key| < LIMIT && Small(es[i].value))
    && (forall i, j :: 0 <= i < |acc| && 0 <= j < |es| && es[j].key != [] ==> Less(acc[i].key, es[j].key))
  }

  lemma PairsOkNext(es: Table<Value>, acc: Table<Value>, v: Value)
    requires PairsOk(es, acc) && es != []
    ensures es[0].key != [] ==> |es[0].key| < LIMIT && WellFormed(es[0].value) && Small(es[0].value)
    ensures es[0].key != [] ==> PairsOk(es[1..], acc + [Entry(es[0].key, v)])
    ensures es[0].key != [] ==> Put(acc, es[0].key, v) == acc + [Entry(es[0].key, v)]
    ensures PairsOk(es[1..], acc)
  {
    if es[0].key != [] {
      PutLast(acc, es[0].key, v);
    }
  }

  lemma PairsParts(es: Table<Value>, tail: seq<byte>, b: seq<byte>, rp: nat)
    requires es != [] && es[0].key != [] && StandsAt(b, rp, EncPairs(es) + tail)
    ensures var k, v := Sized(0x60, es[0].key), Enc(es[0].value);
      && StandsAt(b, rp, k) && StandsAt(b, rp + |k|, v)
      && StandsAt(b, rp + |k| + |v|, EncPairs(es[1..]) + tail)
      && |EncPairs(es)| == |k| + |v| + |EncPairs(es[1..])|
    ensures b[rp] != 0xf7
  {
    var k, v := Sized(0x60, es[0].key), Enc(es[0].value);
    assert EncPair(es[0]) == k + v && EncPairs(es) == EncPair(es[0]) + EncPairs(es[1..]);
    SizedFirst(0x60, es[0].key);
    hide EncPair, EncItems, ShortForm, LongForm, EncRef, SBytes, UBytes;
    StandsFour(b, rp, k, v, EncPairs(es[1..]), tail);
    StartsWith(b, rp, k);
  }

  lemma DecPairsNext(b: seq<byte>, endTag: bool, rp: nat, end: nat, acc: Table<Value>, k: seq<byte>, p: nat, v: Value,
                     q: nat)
    requires rp < end <= |b| && b[rp] != 0xf7 && DecValue(b, rp, end) == Ok(Str(k), p)
    requires p <= end && DecValue(b, p, end) == Ok(v, q)
    ensures DecPairs(b, endTag, rp, end, acc) == DecPairs(b, endTag, q, end, Put(acc, k, v))
  {
  }

  lemma NormPairsCons(es: Table<Value>, acc: Table<Value>)
    requires es != []
    ensures acc + NormPairs(es)
         == (if es[0].key == [] then acc else acc + [Entry(es[0].key, Norm(es[0].value))]) + NormPairs(es[1..])
  {
  }

  function MapTail(endTag: bool): seq<byte> {
    if endTag then [0xf7] else []
  }

  lemma NoPairs(b: seq<byte>, endTag: bool, rp: nat, end: nat, acc: Table<Value>)
    requires end <= |b| && StandsAt(b, rp, EncPairs([]) + MapTail(endTag))
    requires if endTag then rp + 1 <= end else rp == end
    ensures DecPairs(b, endTag, rp, end, acc) == Ok(acc + NormPairs([]), rp + |MapTail(endTag)|)
  {
    assert acc + [] == acc;
    assert EncPairs([]) + MapTail(endTag) == MapTail(endTag);
    if endTag {
      StandsByte(b, rp, 0xf7);
    }
  }

  /** Keys come in increasing order, so each pair lands at the end of the new map. */
  lemma {:induction false} PairsRoundTrip(es: Table<Value>, b: seq<byte>, endTag: bool, rp: nat, end: nat,
                                          acc: Table<Value>)
    requires PairsOk(es, acc)
    requires end <= |b| && StandsAt(b, rp, EncPairs(es) + MapTail(endTag))
    requires if endTag then rp + |EncPairs(es)| + 1 <= end else rp + |EncPairs(es)| == end
    ensures DecPairs(b, endTag, rp, end, acc) == Ok(acc + NormPairs(es), rp + |EncPairs(es)| + |MapTail(endTag)|)
    decreases es, 1
  {
    if es == [] {
      NoPairs(b, endTag, rp, end, acc);
    } else if es[0].key == [] {
      PairsOkNext(es, acc, Void);
      NormPairsCons(es, acc);
      assert EncPairs(es) == EncPairs(es[1..]);
      PairsRoundTrip(es[1..], b, endTag, rp, end, acc);
    } else {
      PairRoundTrip(es, b, endTag, rp, end, acc);
    }
  }

  lemma {:induction false} PairRoundTrip(es: Table<Value>, b: seq<byte>, endTag: bool, rp: nat, end: nat,
                                         acc: Table<Value>)
    requires PairsOk(es, acc) && es != [] && es[0].key != []
    requires end <= |b| && StandsAt(b, rp, EncPairs(es) + MapTail(endTag))
    requires if endTag then rp + |EncPairs(es)| + 1 <= end else rp + |EncPairs(es)| == end
    ensures DecPairs(b, endTag, rp, end, acc) == Ok(acc + NormPairs(es), rp + |EncPairs(es)| + |MapTail(endTag)|)
    decreases es, 0
  {
    hide Enc, DecValue, Norm, Sized, EncPair, PairsOk, Put, DecPairs;
    var k, v := es[0].key, Norm(es[0].value);
    var p := rp + |Sized(0x60, k)|;
    var q := p + |Enc(es[0].value)|;
    PairsOkNext(es, acc, v);
    PairsParts(es, MapTail(endTag), b, rp);
    StrRoundTrip(k, b, rp, end);
    RoundTrip(es[0].value, b, p, end);
    DecPairsNext(b, endTag, rp, end, acc, k, p, v, q);
    PairsRoundTrip(es[1..], b, endTag, q, end, acc + [Entry(k, v)]);
    NormPairsCons(es, acc);
  }

  // ---------------------------------------------------------------- exactness

  /** Every string in the value is shorter than 2^56 bytes. */
  ghost predicate Bounded(v: Value)
    decreases v
  {
    match v
    case Str(s) => |s| < LIMIT
    case Arr(items) => forall i :: 0 <= i < |items| ==> Bounded(items[i])
    case Assoc(es) => forall i :: 0 <= i < |es| ==> |es[i].key| < LIMIT && Bounded(es[i].value)
    case _ => true
  }

  /** A length of at most seven bytes cannot announce a payload of 2^56 bytes. */
  lemma HeaderBounded(b: seq<byte>, rp: nat, end: nat)
    requires rp < end <= |b| && b[rp] < 0xf0
    ensures var h := DecHeader(b, rp, end); h.Payload? ==> h.finish - h.start < LIMIT && h.start <= rp + 8
  {
    if b[rp] >= 0xc0 && end - (rp + 1) >= b[rp] % 8 {
      var u := b[rp + 1..rp + 1 + b[rp] % 8];
      UValueBound(u);
      UBytesValue(UValue(u));
      UBytesLength(UValue(u), |u|);
      LengthBytes(UValue(u));
    }
  }

  ghost predicate GoodItems(vs: seq<Value>) {
    forall i :: 0 <= i < |vs| ==> Bounded(vs[i]) && WellFormed(vs[i])
  }

  ghost predicate GoodTable(es: Table<Value>) {
    Sorted(es) && forall i :: 0 <= i < |es| ==> |es[i].key| < LIMIT && Bounded(es[i].value) && WellFormed(es[i].value)
  }

  /** Any byte string whatever decodes, if at all, to a value whose maps are sorted and whose strings are
      short enough to be encoded. */
  lemma {:induction false} DecodedGood(b: seq<byte>, rp: nat, end: nat)
    requires rp <= end <= |b|
    ensures var r := DecValue(b, rp, end); r.Ok? ==> Bounded(r.v) && WellFormed(r.v)
    decreases end - rp, 0
  {
    if rp < end {
      if b[rp] == 0xf4 {
        DecodedItemsGood(b, true, rp + 1, end, []);
      } else if b[rp] == 0xf6 {
        DecodedPairsGood(b, true, rp + 1, end, []);
      } else if b[rp] < 0xf0 {
        HeaderBounded(b, rp, end);
        var h := DecHeader(b, rp, end);
        if h.Payload? {
          PayloadGood(b, h.typetag, h.start, h.finish);
        }
      }
    }
  }

  lemma {:induction false} PayloadGood(b: seq<byte>, typetag: byte, start: nat, finish: nat)
    requires start <= finish <= |b| && finish - start < LIMIT
    ensures var r := DecPayload(b, typetag, start, finish); r.Ok? ==> Bounded(r.v) && WellFormed(r.v)
    decreases finish - start, 2
  {
    if typetag == 0x80 {
      DecodedItemsGood(b, false, start, finish, []);
    } else if typetag == 0xa0 {
      DecodedPairsGood(b, false, start, finish, []);
    }
  }

  lemma {:induction false} DecodedItemsGood(b: seq<byte>, endTag: bool, rp: nat, end: nat, acc: seq<Value>)
    requires rp <= end <= |b| && GoodItems(acc)
    ensures var r := DecItems(b, endTag, rp, end, acc); r.Ok? ==> GoodItems(r.v)
    decreases end - rp, 1
  {
    if rp < end && b[rp] != 0xf5 {
      DecodedGood(b, rp, end);
      match DecValue(b, rp, end) {
        case Throw(_) =>
        case Ok(v, p) => DecodedItemsGood(b, endTag, p, end, acc + [v]);
      }
    }
  }

  lemma {:induction false} PutGood(t: Table<Value>, k: seq<byte>, v: Value)
    requires GoodTable(t) && |k| < LIMIT && Bounded(v) && WellFormed(v)
    ensures GoodTable(Put(t, k, v))
  {
    PutSorted(t, k, v);
    PutEntries(t, k, v);
    var p := Put(t, k, v);
    forall i | 0 <= i < |p|
      ensures |p[i].key| < LIMIT && Bounded(p[i].value) && WellFormed(p[i].value)
    {
      assert p[i] == Entry(k, v) || p[i] in t;
    }
  }

  lemma {:induction false} PutEntries(t: Table<Value>, k: seq<byte>, v: Value)
    ensures forall e :: e in Put(t, k, v) ==> e == Entry(k, v) || e in t
  {
    if t != [] && !Less(k, t[0].key) && t[0].key != k {
      PutEntries(t[1..], k, v);
    }
  }

  lemma {:induction false} DecodedPairsGood(b: seq<byte>, endTag: bool, rp: nat, end: nat, acc: Table<Value>)
    requires rp <= end <= |b| && GoodTable(acc)
    ensures var r := DecPairs(b, endTag, rp, end, acc); r.Ok? ==> GoodTable(r.v)
    decreases end - rp, 1
  {
    if rp < end && b[rp] != 0xf7 {
      DecodedGood(b, rp, end);
      match DecValue(b, rp, end) {
        case Throw(_) =>
        case Ok(kv, p) =>
          DecodedGood(b, p, end);
          match DecValue(b, p, end) {
            case Throw(_) =>
            case Ok(ev, q) =>
              if kv.Str? {
                PutGood(acc, kv.s, ev);
                DecodedPairsGood(b, endTag, q, end, Put(acc, kv.s, ev));
              }
          }
      }
    }
  }

  /** The strings that come back are the ones that were written. */
  lemma {:induction false} NormBounded(v: Value)
    ensures Bounded(Norm(v)) <==> Small(v)
    decreases v, 1
  {
    match v {
      case Arr(items) => NormItemsBounded(items);
      case Assoc(es) => NormPairsBounded(es);
      case _ =>
    }
  }

  lemma {:induction false} NormItemsBounded(vs: seq<Value>)
    ensures Bounded(Arr(NormItems(vs))) <==> Small(Arr(vs))
    decreases vs, 0
  {
    if vs != [] {
      NormBounded(vs[0]);
      NormItemsBounded(vs[1..]);
      BoundedCons(Norm(vs[0]), NormItems(vs[1..]));
      SmallCons(vs);
    }
  }

  lemma BoundedCons(v: Value, vs: seq<Value>)
    ensures Bounded(Arr([v] + vs)) <==> Bounded(v) && Bounded(Arr(vs))
  {
    assert ([v] + vs)[0] == v;
    assert forall i :: 0 <= i < |vs| ==> vs[i] == ([v] + vs)[i + 1];
  }

  lemma SmallCons(vs: seq<Value>)
    requires vs != []
    ensures Small(Arr(vs)) <==> Small(vs[0]) && Small(Arr(vs[1..]))
  {
    assert forall i :: 0 <= i < |vs[1..]| ==> vs[1..][i] == vs[i + 1];
    assert forall i :: 1 <= i < |vs| ==> vs[i] == vs[1..][i - 1];
  }

  lemma {:induction false} NormPairsBounded(es: Table<Value>)
    ensures Bounded(Assoc(NormPairs(es))) <==> Small(Assoc(es))
    decreases es, 0
  {
    if es != [] {
      NormBounded(es[0].value);
      NormPairsBounded(es[1..]);
      BoundedPairsCons(Entry(es[0].key, Norm(es[0].value)), NormPairs(es[1..]));
      SmallPairsCons(es);
      if es[0].key == [] {
        assert NormPairs(es) == NormPairs(es[1..]);
      }
    }
  }

  lemma BoundedPairsCons(e: Entry<Value>, es: Table<Value>)
    ensures Bounded(Assoc([e] + es)) <==> |e.key| < LIMIT && Bounded(e.value) && Bounded(Assoc(es))
  {
    assert ([e] + es)[0] == e;
    assert forall i :: 0 <= i < |es| ==> es[i] == ([e] + es)[i + 1];
  }

  lemma SmallPairsCons(es: Table<Value>)
    requires es != []
    ensures Small(Assoc(es)) <==>
      (es[0].key != [] ==> |es[0].key| < LIMIT && Small(es[0].value)) && Small(Assoc(es[1..]))
  {
    assert forall i :: 0 <= i < |es[1..]| ==> es[1..][i] == es[i + 1];
    assert forall i :: 1 <= i < |es| ==> es[i] == es[1..][i - 1];
  }

  lemma {:induction false} NormPlain(v: Value)
    ensures Norm(v) == v <==> Plain(v)
    decreases v, 1
  {
    match v {
      case Arr(items) => NormItemsPlain(items);
      case Assoc(es) => NormPairsPlain(es);
      case _ =>
    }
  }

  lemma {:induction false} NormItemsPlain(vs: seq<Value>)
    ensures NormItems(vs) == vs <==> Plain(Arr(vs))
    decreases vs, 0
  {
    if vs != [] {
      NormPlain(vs[0]);
      NormItemsPlain(vs[1..]);
      assert vs == [vs[0]] + vs[1..];
      assert NormItems(vs) == vs <==> Norm(vs[0]) == vs[0] && NormItems(vs[1..]) == vs[1..] by {
        assert NormItems(vs)[0] == Norm(vs[0]) && NormItems(vs)[1..] == NormItems(vs[1..]);
      }
      assert forall i :: 0 <= i < |vs[1..]| ==> vs[1..][i] == vs[i + 1];
      assert forall i :: 1 <= i < |vs| ==> vs[i] == vs[1..][i - 1];
    }
  }

  lemma {:induction false} NormPairsLength(es: Table<Value>)
    ensures |NormPairs(es)| <= |es|
  {
    if es != [] {
      NormPairsLength(es[1..]);
    }
  }

  lemma PlainPairsCons(es: Table<Value>)
    requires es != []
    ensures Plain(Assoc(es)) <==> es[0].key != [] && Plain(es[0].value) && Plain(Assoc(es[1..]))
  {
    assert forall i :: 0 <= i < |es[1..]| ==> es[1..][i] == es[i + 1];
    assert forall i :: 1 <= i < |es| ==> es[i] == es[1..][i - 1];
  }

  lemma {:induction false} NormPairsPlain(es: Table<Value>)
    ensures NormPairs(es) == es <==> Plain(Assoc(es))
    decreases es, 0
  {
    if es != [] {
      NormPlain(es[0].value);
      NormPairsPlain(es[1..]);
      NormPairsLength(es[1..]);
      PlainPairsCons(es);
      assert es == [es[0]] + es[1..];
      if es[0].key != [] {
        var n := NormPairs(es);
        assert n[0] == Entry(es[0].key, Norm(es[0].value)) && n[1..] == NormPairs(es[1..]);
      }
    }
  }

  /** Exactly when the round trip works: no written string reaches 2^56 bytes. */
  lemma RoundTripExactly(v: Value, t: seq<byte>)
    requires WellFormed(v)
    ensures DecValue(Enc(v) + t, 0, |Enc(v) + t|) == Ok(Norm(v), |Enc(v)|) <==> Small(v)
  {
    var b := Enc(v) + t;
    if Small(v) {
      assert b[0..|Enc(v)|] == Enc(v);
      RoundTrip(v, b, 0, |b|);
    } else {
      DecodedGood(b, 0, |b|);
      NormBounded(v);
    }
  }

  lemma {:induction false} BoundedSmall(v: Value)
    requires Bounded(v)
    ensures Small(v)
    decreases v
  {
    match v {
      case Arr(items) =>
        forall i | 0 <= i < |items|
          ensures Small(items[i])
        {
          BoundedSmall(items[i]);
        }
      case Assoc(es) =>
        forall i | 0 <= i < |es|
          ensures Small(es[i].value)
        {
          BoundedSmall(es[i].value);
        }
      case _ =>
    }
  }

  /** Exactly when the very value comes back. */
  lemma ComesBackUnchanged(v: Value, t: seq<byte>)
    requires WellFormed(v)
    ensures DecValue(Enc(v) + t, 0, |Enc(v) + t|) == Ok(v, |Enc(v)|) <==> Small(v) && Plain(v)
  {
    RoundTripExactly(v, t);
    NormPlain(v);
    DecodedGood(Enc(v) + t, 0, |Enc(v) + t|);
    if DecValue(Enc(v) + t, 0, |Enc(v) + t|) == Ok(v, |Enc(v)|) {
      BoundedSmall(v);
    }
  }

  // ---------------------------------------------------------------- packets

  /** A string too long for its length field makes every encoding around it at least as long. */
  lemma {:induction false} ShortEncodingSmall(v: Value)
    requires |Enc(v)| < LIMIT
    ensures Small(v)
    decreases v, 1
  {
    match v {
      case Str(s) => assert |Sized(0x60, s)| >= |s|;
      case Arr(items) => ShortItemsSmall(items);
      case Assoc(es) => ShortPairsSmall(es);
      case _ =>
    }
  }

  lemma {:induction false} ShortItemsSmall(vs: seq<Value>)
    requires |EncItems(vs)| < LIMIT
    ensures Small(Arr(vs))
    decreases vs, 0
  {
    if vs != [] {
      ShortEncodingSmall(vs[0]);
      ShortItemsSmall(vs[1..]);
      SmallCons(vs);
    }
  }

  lemma {:induction false} ShortPairsSmall(es: Table<Value>)
    requires |EncPairs(es)| < LIMIT
    ensures Small(Assoc(es))
    decreases es, 0
  {
    if es != [] {
      ShortPairsSmall(es[1..]);
      if es[0].key != [] {
        assert |Sized(0x60, es[0].key)| >= |es[0].key|;
        ShortEncodingSmall(es[0].value);
      }
      SmallPairsCons(es);
    }
  }

  lemma PacketComesBack(vs: seq<Value>, t: seq<byte>)
    requires |EncItems(vs)| < LIMIT && forall i :: 0 <= i < |vs| ==> WellFormed(vs[i])
    ensures var p := Packet(vs); DecValue(p + t, 0, |p + t|) == Ok(Arr(NormItems(vs)), |p|)
  {
    hide Sized, EncItems;
    var p, body := Packet(vs), EncItems(vs);
    var b := p + t;
    assert b[0..|p|] == p;
    SizedHeader(b, 0, |b|, 0x80, body);
    ShortItemsSmall(vs);
    assert body + Tail(false) == body;
    ItemsRoundTrip(vs, b, false, |p| - |body|, |p|, []);
    assert [] + NormItems(vs) == NormItems(vs);
  }

  lemma PacketTooLong(vs: seq<Value>, t: seq<byte>)
    requires |EncItems(vs)| >= LIMIT
    ensures var p := Packet(vs); DecValue(p + t, 0, |p + t|) != Ok(Arr(NormItems(vs)), |p|)
  {
    var body := EncItems(vs);
    var b := Packet(vs) + t;
    SizedFirst(0x80, body);
    LengthBytes(|body|);
    HeaderBounded(b, 0, |b|);
  }

  /** A packet comes back, with the cursor right behind it, exactly when its body is below 2^56 bytes. */
  lemma PacketRoundTrip(vs: seq<Value>, t: seq<byte>)
    requires forall i :: 0 <= i < |vs| ==> WellFormed(vs[i])
    ensures var p := Packet(vs);
      DecValue(p + t, 0, |p + t|) == Ok(Arr(NormItems(vs)), |p|) <==> |EncItems(vs)| < LIMIT
  {
    if |EncItems(vs)| < LIMIT {
      PacketComesBack(vs, t);
    } else {
      PacketTooLong(vs, t);
    }
  }

  /** The op_destroy packet is an ordinary one: an int and an object reference. */
  function ObjectOp(op: int32, remote: bool, id: int64): seq<byte> {
    Sized(0x80, ShortForm(0x00, SBytes(op)) + EncRef(remote, id))
  }

  lemma ObjectOpIsPacket(op: int32, remote: bool, id: int64)
    ensures ObjectOp(op, remote, id) == Packet([Int(op), Ref(remote, id)])
  {
    var vs := [Int(op), Ref(remote, id)];
    assert vs[1..] == [Ref(remote, id)];
    assert vs[1..][1..] == [];
    assert EncItems(vs[1..]) == EncRef(remote, id) + [] == EncRef(remote, id);
    assert EncItems(vs) == Enc(vs[0]) + EncItems(vs[1..]);
  }

  // ---------------------------------------------------------------- delimiting

  /** Once the length can be told, more bytes do not change it. */
  lemma LengthStable(b: seq<byte>, t: seq<byte>)
    requires GetLength(b).Length?
    ensures GetLength(b + t) == GetLength(b)
  {
    if 0xc0 <= b[0] < 0xf0 {
      assert (b + t)[1..1 + b[0] % 8] == b[1..1 + b[0] % 8];
    }
  }

  lemma PacketLength(vs: seq<Value>, t: seq<byte>)
    requires |EncItems(vs)| < LIMIT
    ensures GetLength(Packet(vs) + t) == Length(|Packet(vs)|)
  {
    var p, body := Packet(vs), EncItems(vs);
    var b := p + t;
    assert b[0..|p|] == p;
    SizedFirst(0x80, body);
    if |body| <= 31 {
      ShortHeader(b, 0, |b|, 0x80, body);
    } else {
      LongParts(b, 0, 0x80, body);
      LongTag(0x80, |UBytes(|body|)|);
      UBytesValue(|body|);
    }
  }

  /** Packets delimit themselves: a packet in front tells its own length, and a strict prefix of one either
      tells nothing or asks for more than is there. */
  lemma PacketDelimited(vs: seq<Value>, n: nat)
    requires |EncItems(vs)| < LIMIT && n < |Packet(vs)|
    ensures var l := GetLength(Packet(vs)[..n]); l.Undetermined? || l.n > n
  {
    var p := Packet(vs);
    if GetLength(p[..n]).Length? {
      LengthStable(p[..n], p[n..]);
      assert p[..n] + p[n..] == p + [];
      PacketLength(vs, []);
    }
  }

  /** So no packet is a prefix of another, and a stream of packets splits in one way only. */
  lemma PacketsPrefixFree(vs: seq<Value>, t: seq<byte>, ws: seq<Value>, u: seq<byte>)
    requires |EncItems(vs)| < LIMIT && |EncItems(ws)| < LIMIT
    requires Packet(vs) + t == Packet(ws) + u
    ensures Packet(vs) == Packet(ws) && t == u
  {
    PacketLength(vs, t);
    PacketLength(ws, u);
    assert Packet(vs) == (Packet(vs) + t)[..|Packet(vs)|];
    assert Packet(ws) == (Packet(ws) + u)[..|Packet(ws)|];
    assert t == (Packet(vs) + t)[|Packet(vs)|..];
    assert u == (Packet(ws) + u)[|Packet(ws)|..];
  }
}
