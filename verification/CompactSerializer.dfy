/** The encoders of the compact format, writing into a shared buffer. */
module CompactSerializer {
  import opened Bytes
  import opened StringMap
  import opened StringBuffer
  import opened CompactFormat

  /** Encoders own the buffer and its array only, growing it as needed. */
  method SerializeVeryShortForm(typetag: byte, buf: Buffer)
    requires buf.Valid()
    modifies buf, buf.data
    ensures buf.Valid() && (buf.data == old(buf.data) || fresh(buf.data))
    ensures buf.Contents() == old(buf.Contents()) + [typetag]
  {
    buf.Append([typetag]);
  }

  lemma Concat(x: seq<byte>, y: seq<byte>, z: seq<byte>)
    ensures (x + y) + z == x + (y + z)
  {
  }

  /** The byte copying loop of both forms. */
  method CopyBytes(a: array<byte>, at: nat, src: seq<byte>)
    requires at + |src| <= a.Length
    modifies a
    ensures a[..at + |src|] == old(a[..at]) + src
  {
    ghost var before := a[..at];
    var i := 0;
    while i < |src|
      invariant 0 <= i <= |src|
      invariant a[..at + i] == before + src[..i]
    {
      a[at + i] := src[i];
      i := i + 1;
      assert a[..at + i] == a[..at + (i - 1)] + [src[i - 1]];
    }
    assert src[..|src|] == src;
  }

  method SerializeShortForm(typetag: byte, rp: seq<byte>, buf: Buffer)
    requires typetag < 0xe0 && typetag % 32 == 0 && buf.Valid()
    modifies buf, buf.data
    ensures buf.Valid() && (buf.data == old(buf.data) || fresh(buf.data))
    ensures buf.Contents() == old(buf.Contents()) + ShortForm(typetag, rp)
  {
    ghost var before := buf.Contents();
    buf.MakeSpace(|rp| + 1);
    var a, wp := buf.data, buf.size;
    var head: byte := typetag + |rp| % 32;
    a[wp] := head;
    assert a[..wp + 1] == before + [head];
    CopyBytes(a, wp + 1, rp);
    Concat(before, [head], rp);
    buf.AppendDone(|rp| + 1);
  }

  method ByteLengthUnsigned(size: nat) returns (len: nat)
    ensures len == |UBytes(size)|
  {
    var v := size;
    len := 0;
    while v != 0
      invariant len + |UBytes(v)| == |UBytes(size)|
      decreases v
    {
      len := len + 1;
      v := v / 256;
    }
  }

  /** The bytes of an integer in memory that have to be kept: the fewest that still give its value. */
  method ByteLengthSigned(buf: seq<byte>, ghost v: int) returns (n: nat)
    requires |buf| >= 1 && buf == Memory(v, |buf|) && Bytes.Fits(v, |buf|)
    ensures 1 <= n <= |buf| && n == |SBytes(v)| && buf[..n] == SBytes(v)
    ensures SValue(buf[..n]) == v
    ensures forall m :: 1 <= m < n ==> SValue(buf[..m]) != v
  {
    var p := 0;
    while p < |buf| - 1
      invariant 0 <= p <= |buf| - 1
      invariant Bytes.Fits(v, |buf| - p)
      decreases |buf| - p
    {
      var q := |buf| - p - 1;
      MemoryTruncates(v, |buf|, q + 1);
      DroppableFits(v, q + 1);
      assert buf[q] == Memory(v, q + 1)[q] && buf[q - 1] == Memory(v, q + 1)[q - 1];
      if buf[q] == 0xff && buf[q - 1] >= 128 {
      } else if buf[q] == 0x00 && buf[q - 1] < 128 {
      } else {
        break;
      }
      p := p + 1;
    }
    n := |buf| - p;
    SBytesLength(v, n);
    if n > 1 {
      SBytesLength(v, n - 1);
      MemoryTruncates(v, |buf|, n);
      DroppableFits(v, n);
    } else {
      SBytesValue(v);
    }
    MemoryPrefix(v, |buf|);
    SBytesValue(v);
    forall m | 1 <= m < n
      ensures SValue(buf[..m]) != v
    {
      SValueFits(buf[..m]);
      SBytesLength(v, m);
    }
  }

  lemma {:induction false} MemoryTruncates(v: int, width: nat, n: nat)
    requires n <= width
    ensures Memory(v, width)[..n] == Memory(v, n)
    decreases n
  {
    if n > 0 {
      MemoryTruncates(v / 256, width - 1, n - 1);
      assert Memory(v, width)[..n] == [v % 256] + Memory(v / 256, width - 1)[..n - 1];
    }
  }

  method SerializeLongForm(typetag: byte, rp: seq<byte>, buf: Buffer)
    requires typetag < 0xc0 && typetag % 32 == 0 && buf.Valid()
    modifies buf, buf.data
    ensures buf.Valid() && (buf.data == old(buf.data) || fresh(buf.data))
    ensures buf.Contents() == old(buf.Contents()) + LongForm(typetag, rp)
  {
    ghost var before := buf.Contents();
    var lengthLen := ByteLengthUnsigned(|rp|);
    var lenbuf := UBytes(|rp|);
    buf.MakeSpace(|rp| + lengthLen + 1);
    var a, wp := buf.data, buf.size;
    var head: byte := 0xc0 + typetag / 4 + lengthLen % 8;
    a[wp] := head;
    assert a[..wp + 1] == before + [head];
    CopyBytes(a, wp + 1, lenbuf);
    Concat(before, [head], lenbuf);
    CopyBytes(a, wp + 1 + lengthLen, rp);
    Concat(before, [head] + lenbuf, rp);
    buf.AppendDone(|rp| + lengthLen + 1);
  }

  method SerializeIntegral(v: int, width: nat, buf: Buffer)
    requires width >= 1 && Bytes.Fits(v, width) && buf.Valid()
    modifies buf, buf.data
    ensures buf.Valid() && (buf.data == old(buf.data) || fresh(buf.data))
    ensures buf.Contents() == old(buf.Contents()) + ShortForm(0x00, SBytes(v))
  {
    var vp := Memory(v, width);
    var vlen := ByteLengthSigned(vp, v);
    SerializeShortForm(0x00, vp[..vlen], buf);
  }

  method SerializeString(s: seq<byte>, buf: Buffer)
    requires buf.Valid()
    modifies buf, buf.data
    ensures buf.Valid() && (buf.data == old(buf.data) || fresh(buf.data))
    ensures buf.Contents() == old(buf.Contents()) + Sized(0x60, s)
  {
    if |s| <= 31 {
      SerializeShortForm(0x60, s, buf);
    } else {
      SerializeLongForm(0x60, s, buf);
    }
  }

  method SerializeObjectRef(remote: bool, id: int64, buf: Buffer)
    requires buf.Valid()
    modifies buf, buf.data
    ensures buf.Valid() && (buf.data == old(buf.data) || fresh(buf.data))
    ensures buf.Contents() == old(buf.Contents()) + EncRef(remote, id)
  {
    HalfValues();
    var vlen := ByteLengthSigned(Memory(id, 8), id);
    SerializeShortForm(0x40, [if remote then 0xff else 0] + Memory(id, 8)[..vlen], buf);
  }

  lemma {:induction false} EncItemsAppend(vs: seq<Value>, n: nat)
    requires n < |vs|
    ensures EncItems(vs[..n + 1]) == EncItems(vs[..n]) + Enc(vs[n])
    decreases n
  {
    if n == 0 {
      assert vs[..1] == [vs[0]] && vs[..1][1..] == [];
      assert EncItems(vs[..1]) == Enc(vs[0]) + [];
    } else {
      EncItemsAppend(vs[1..], n - 1);
      assert vs[..n + 1][1..] == vs[1..][..n] && vs[..n][1..] == vs[1..][..n - 1];
    }
  }

  /** One variant: the shared buffer grows by exactly its encoding. */
  method SerializeValue(v: Value, buf: Buffer)
    requires WellFormed(v) && buf.Valid()
    modifies buf, buf.data
    ensures buf.Valid() && (buf.data == old(buf.data) || fresh(buf.data))
    ensures buf.Contents() == old(buf.Contents()) + Enc(v)
    decreases v, 1
  {
    match v {
      case Void => SerializeVeryShortForm(0xf0, buf);
      case Bool(b) => SerializeVeryShortForm(if b then 0xf3 else 0xf2, buf);
      case Int(i) =>
        HalfValues();
        SerializeIntegral(i, 4, buf);
      case Long(l) =>
        HalfValues();
        SerializeIntegral(l, 8, buf);
      case Double(bits) => SerializeShortForm(0x20, bits, buf);
      case Str(s) => SerializeString(s, buf);
      case Arr(items) => SerializeArray(items, buf);
      case Assoc(entries) => SerializeAssoc(entries, buf);
      case Ref(remote, id) => SerializeObjectRef(remote, id, buf);
    }
  }

  method SerializeArray(items: seq<Value>, buf: Buffer)
    requires (forall i :: 0 <= i < |items| ==> WellFormed(items[i])) && buf.Valid()
    modifies buf, buf.data
    ensures buf.Valid() && (buf.data == old(buf.data) || fresh(buf.data))
    ensures buf.Contents() == old(buf.Contents()) + Enc(Arr(items))
    decreases items, 0
  {
    ghost var before := buf.Contents() + [0xf4];
    SerializeVeryShortForm(0xf4, buf);
    for i := 0 to |items|
      invariant buf.Valid() && (buf.data == old(buf.data) || fresh(buf.data))
      invariant buf.Contents() == before + EncItems(items[..i])
    {
      SerializeValue(items[i], buf);
      EncItemsAppend(items, i);
      Concat(before, EncItems(items[..i]), Enc(items[i]));
    }
    assert items[..|items|] == items;
    SerializeVeryShortForm(0xf5, buf);
    Framed(old(buf.Contents()), [0xf4], EncItems(items), [0xf5]);
  }

  /** What the enumerator has produced when its cursor is at position `n`. */
  lemma {:induction false} EncPairsAppend(es: Table<Value>, n: nat)
    requires n < |es|
    ensures EncPairs(es[..n + 1]) == EncPairs(es[..n]) + EncPair(es[n])
    decreases n
  {
    if n == 0 {
      assert es[..1] == [es[0]] && es[..1][1..] == [];
      assert EncPairs(es[..1]) == EncPair(es[0]) + [];
    } else {
      EncPairsAppend(es[1..], n - 1);
      assert es[..n + 1][1..] == es[1..][..n] && es[..n][1..] == es[1..][..n - 1];
      Concat(EncPair(es[0]), EncPairs(es[1..][..n - 1]), EncPair(es[n]));
    }
  }

  /** The pair at the cursor. */
  method SerializePair(e: Entry<Value>, buf: Buffer)
    requires e.key != [] && WellFormed(e.value) && buf.Valid()
    modifies buf, buf.data
    ensures buf.Valid() && (buf.data == old(buf.data) || fresh(buf.data))
    ensures buf.Contents() == old(buf.Contents()) + EncPair(e)
    decreases e
  {
    ghost var before := buf.Contents();
    SerializeString(e.key, buf);
    SerializeValue(e.value, buf);
    Concat(before, Sized(0x60, e.key), Enc(e.value));
  }

  /** The enumeration loop: the cursor is the last key yielded. */
  method SerializeAssoc(entries: Table<Value>, buf: Buffer)
    requires Sorted(entries) && (forall i :: 0 <= i < |entries| ==> WellFormed(entries[i].value)) && buf.Valid()
    modifies buf, buf.data
    ensures buf.Valid() && (buf.data == old(buf.data) || fresh(buf.data))
    ensures buf.Contents() == old(buf.Contents()) + Enc(Assoc(entries))
    decreases entries, 0
  {
    hide EncPairs, Lookup, Sorted, WellFormed;
    ghost var before := buf.Contents() + [0xf6];
    SerializeVeryShortForm(0xf6, buf);
    var key: seq<byte> := [];
    StartOfPairs(entries);
    while UpperBound(entries, key) < |entries|
      invariant buf.Valid() && (buf.data == old(buf.data) || fresh(buf.data))
      invariant buf.Contents() == before + EncPairs(entries[..UpperBound(entries, key)])
      decreases |entries| - UpperBound(entries, key)
    {
      var n := UpperBound(entries, key);
      key := entries[n].key;
      LookupAt(entries, n, Void);
      SerializePair(Entry(key, Lookup(entries, key, Void)), buf);
      UpperBoundNext(entries, n);
      EncPairsAppend(entries, n);
      Concat(before, EncPairs(entries[..n]), EncPair(entries[n]));
    }
    assert entries[..|entries|] == entries;
    SerializeVeryShortForm(0xf7, buf);
    Framed(old(buf.Contents()), [0xf6], EncPairs(entries), [0xf7]);
  }

  lemma Framed(x: seq<byte>, y: seq<byte>, z: seq<byte>, t: seq<byte>)
    ensures ((x + y) + z) + t == x + ((y + z) + t)
  {
  }

  lemma StartOfPairs(es: Table<Value>)
    requires Sorted(es)
    ensures EncPairs(es[..UpperBound(es, [])]) == []
  {
    FirstKey(es);
    if es != [] && es[0].key == [] {
      assert es[..1] == [es[0]] && es[..1][1..] == [];
    }
  }

  /** `ase_serialize_compact`: the variants of a packet, then the header in front. */
  method SerializePacket(vs: seq<Value>) returns (packet: seq<byte>)
    requires forall i :: 0 <= i < |vs| ==> WellFormed(vs[i])
    ensures packet == Packet(vs)
  {
    var buf := new Buffer(0);
    for i := 0 to |vs|
      invariant buf.Valid() && fresh(buf) && fresh(buf.data)
      invariant buf.Contents() == EncItems(vs[..i])
    {
      SerializeValue(vs[i], buf);
      EncItemsAppend(vs, i);
    }
    assert vs[..|vs|] == vs;
    packet := WithLength(buf);
  }

  /** `ase_serialize_compact_array_with_length`. */
  method WithLength(buf: Buffer) returns (packet: seq<byte>)
    requires buf.Valid()
    ensures packet == Sized(0x80, buf.Contents())
  {
    var length := buf.size;
    if length <= 31 {
      packet := [0x80 + length % 32] + buf.data[..length];
    } else {
      var lengthLen := ByteLengthUnsigned(length);
      packet := [0xc0 + 0x80 / 4 + lengthLen % 8] + UBytes(length)[..lengthLen] + buf.data[..length];
    }
  }
}
