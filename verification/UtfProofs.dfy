/** What the two UTF converters promise: they invert each other on the well-formed strings, the one towards UTF-16
    never writes an ill-formed string, and the exact set of inputs each accepts. */
module UtfProofs {
  import opened Bytes
  import opened Utf

  // ---------------------------------------------------------------- well-formed means encoded

  /** The scalar value of the UTF-8 character at the front. */
  function First8(b: seq<byte>): (s: scalar)
    requires Char8(b) > 0
    ensures Utf8(s) == b[..Char8(b)]
  {
    var n := Char8(b);
    if n == 1 then b[0] as int
    else if n == 2 then SplitJoin2(b[0], b[1]); Join2(b[0], b[1])
    else if n == 3 then SplitJoin3(b[0], b[1], b[2]); Join3(b[0], b[1], b[2])
    else SplitJoin4(b[0], b[1], b[2], b[3]); Join4(b[0], b[1], b[2], b[3])
  }

  lemma SplitJoin2(c: byte, c2: byte)
    requires 0xc2 <= c <= 0xdf && IsTrail(c2)
    ensures 0x80 <= Join2(c, c2) < 0x800 && Utf8(Join2(c, c2)) == [c, c2]
  {
    var h, l := c as int - 0xc0, c2 as int - 0x80;
    assert (h * 64 + l) / 64 == h;
  }

  lemma Quotients(h: nat, m: nat, l: nat)
    requires m < 64 && l < 64
    ensures var u := h * 4096 + m * 64 + l; u / 4096 == h && u / 64 == h * 64 + m && u / 64 % 64 == m && u % 64 == l
  {
  }

  lemma SplitJoin3(c: byte, c2: byte, c3: byte)
    requires 0xe0 <= c <= 0xef && IsTrail(c2) && IsTrail(c3)
    requires c == 0xe0 ==> 0xa0 <= c2
    requires c == 0xed ==> c2 <= 0x9f
    ensures var u := Join3(c, c2, c3); 0x800 <= u < 0x1_0000 && !(0xd800 <= u < 0xe000) && Utf8(u) == [c, c2, c3]
  {
    var h, m, l := c as int - 0xe0, c2 as int - 0x80, c3 as int - 0x80;
    Quotients(h, m, l);
  }

  lemma Quotients4(h: nat, m: nat, k: nat, l: nat)
    requires m < 64 && k < 64 && l < 64
    ensures var u := h * 262144 + m * 4096 + k * 64 + l;
      u / 262144 == h && u / 4096 % 64 == m && u / 64 % 64 == k && u % 64 == l
  {
    var u := h * 262144 + m * 4096 + k * 64 + l;
    Quotients(h * 64 + m, k, l);
    assert u == (h * 64 + m) * 4096 + k * 64 + l;
    assert u / 4096 == h * 64 + m;
    assert u / 262144 == h;
  }

  lemma SplitJoin4(c: byte, c2: byte, c3: byte, c4: byte)
    requires 0xf0 <= c <= 0xf4 && IsTrail(c2) && IsTrail(c3) && IsTrail(c4)
    requires c == 0xf0 ==> 0x90 <= c2
    requires c == 0xf4 ==> c2 <= 0x8f
    ensures var u := Join4(c, c2, c3, c4); 0x1_0000 <= u < 0x11_0000 && Utf8(u) == [c, c2, c3, c4]
  {
    var h, m, k, l := c as int - 0xf0, c2 as int - 0x80, c3 as int - 0x80, c4 as int - 0x80;
    Quotients4(h, m, k, l);
  }

  function Scalars8(b: seq<byte>): (ss: seq<scalar>)
    requires WellFormed8(b)
    ensures Encode8(ss) == b
  {
    if b == [] then [] else [First8(b)] + Scalars8(b[Char8(b)..])
  }

  function Scalars16(u: seq<unit>): (ss: seq<scalar>)
    requires WellFormed16(u)
    ensures Encode16(ss) == u
  {
    if u == [] then []
    else if IsHigh(u[0]) then [JoinPair(u[0], u[1])] + Scalars16(u[2..])
    else [u[0] as int] + Scalars16(u[1..])
  }

  /** The grammar of RFC 3629 describes exactly the encodings of sequences of scalar values. */
  lemma {:induction false} WellFormed8Iff(ss: seq<scalar>)
    ensures WellFormed8(Encode8(ss)) && Scalars8(Encode8(ss)) == ss
    decreases |ss|
  {
    if ss != [] {
      var s, t := ss[0], Encode8(ss[1..]);
      Char8OfUtf8(s, t);
      AppendFront(Utf8(s), t);
      WellFormed8Iff(ss[1..]);
      Utf8Injective(s, First8(Utf8(s) + t));
      assert Encode8(ss) == Utf8(s) + t;
      assert ss == [s] + ss[1..];
    }
  }

  lemma Utf8Injective(s: scalar, s': scalar)
    requires Utf8(s) == Utf8(s')
    ensures s == s'
  {
    if s >= 0x1_0000 {
      JoinSplit4(s);
      JoinSplit4(s');
    } else if s >= 0x800 {
      JoinSplit3(s);
      JoinSplit3(s');
    } else if s >= 0x80 {
      JoinSplit2(s);
      JoinSplit2(s');
    }
  }

  lemma {:induction false} WellFormed16Iff(ss: seq<scalar>)
    ensures WellFormed16(Encode16(ss)) && Scalars16(Encode16(ss)) == ss
    decreases |ss|
  {
    if ss != [] {
      var s, t := ss[0], Encode16(ss[1..]);
      AppendFront(Utf16(s), t);
      WellFormed16Iff(ss[1..]);
      if s >= 0x1_0000 {
        JoinSplitPair(s);
      }
      assert Encode16(ss) == Utf16(s) + t;
      assert ss == [s] + ss[1..];
    }
  }

  // ---------------------------------------------------------------- the converters on well-formed input

  lemma {:induction false} Conv8OfEncode8(ss: seq<scalar>, room: nat)
    requires room >= |Encode16(ss)|
    ensures Conv8(Encode8(ss), room) == Out16(Success, |Encode8(ss)|, Encode16(ss))
    decreases |ss|
  {
    if ss != [] {
      var s, t := ss[0], Encode8(ss[1..]);
      Next8OfUtf8(s, t, room);
      AppendFront(Utf8(s), t);
      Conv8OfEncode8(ss[1..], room - |Utf16(s)|);
    }
  }

  lemma {:induction false} Conv16OfEncode16(ss: seq<scalar>, room: nat)
    requires room >= |Encode8(ss)|
    ensures Conv16(Encode16(ss), room) == Out8(Success, |Encode16(ss)|, Encode8(ss))
    decreases |ss|
  {
    if ss != [] {
      var s, t := ss[0], Encode16(ss[1..]);
      Next16OfUtf16(s, t, room);
      AppendFront(Utf16(s), t);
      Conv16OfEncode16(ss[1..], room - |Utf8(s)|);
    }
  }

  /** The sizes the callers allocate are enough: a unit per byte, three bytes per unit. */
  lemma {:induction false} EncodedSizes(ss: seq<scalar>)
    ensures |Encode16(ss)| <= |Encode8(ss)| <= 3 * |Encode16(ss)|
    decreases |ss|
  {
    if ss != [] {
      EncodedSizes(ss[1..]);
    }
  }

  /** UTF-16 to UTF-8 and back is the identity on every well-formed UTF-16 string. */
  lemma RoundTrip16(u: seq<unit>)
    requires WellFormed16(u)
    ensures var there := Conv16(u, 3 * |u|);
      && there.err == Success && WellFormed8(there.bytes)
      && Conv8(there.bytes, |there.bytes|) == Out16(Success, |there.bytes|, u)
  {
    var ss := Scalars16(u);
    EncodedSizes(ss);
    Conv16OfEncode16(ss, 3 * |u|);
    WellFormed8Iff(ss);
    Conv8OfEncode8(ss, |Encode8(ss)|);
  }

  /** UTF-8 to UTF-16 and back is the identity on every well-formed UTF-8 string. */
  lemma RoundTrip8(b: seq<byte>)
    requires WellFormed8(b)
    ensures var there := Conv8(b, |b|);
      && there.err == Success && WellFormed16(there.units)
      && Conv16(there.units, 3 * |there.units|) == Out8(Success, |there.units|, b)
  {
    var ss := Scalars8(b);
    EncodedSizes(ss);
    Conv8OfEncode8(ss, |b|);
    WellFormed16Iff(ss);
    Conv16OfEncode16(ss, 3 * |Encode16(ss)|);
  }

  // ---------------------------------------------------------------- the converters on any input

  lemma {:induction false} WellFormed16Append(u: seq<unit>, v: seq<unit>)
    requires WellFormed16(u) && WellFormed16(v)
    ensures WellFormed16(u + v)
    decreases |u|
  {
    if u == [] {
      assert u + v == v;
    } else {
      var k := if IsHigh(u[0]) then 2 else 1;
      WellFormed16Append(u[k..], v);
      assert (u + v)[k..] == u[k..] + v;
    }
  }

  lemma Next8WellFormed(r: seq<byte>, room: nat)
    requires r != [] && Next8(r, room).Go8?
    ensures WellFormed16(Next8(r, room).units)
  {
    var us := Next8(r, room).units;
    if |us| == 1 {
      assert us[1..] == [];
    } else {
      assert us[2..] == [];
    }
  }

  /** Whatever the bytes, and wherever it stops, the units written are well-formed UTF-16. */
  lemma {:induction false} Conv8WellFormed(r: seq<byte>, room: nat)
    ensures WellFormed16(Conv8(r, room).units)
    decreases |r|
  {
    if r != [] && Next8(r, room).Go8? {
      var n := Next8(r, room);
      Next8WellFormed(r, room);
      Conv8WellFormed(r[n.used..], room - |n.units|);
      WellFormed16Append(n.units, Conv8(r[n.used..], room - |n.units|).units);
    }
  }

  /** Every accepted byte string, UTF-8 or not, is re-encoded as well-formed UTF-8 that reads as the same units. */
  lemma AcceptedReencodes(r: seq<byte>, room: nat)
    requires Conv8(r, room).err == Success
    ensures var us := Conv8(r, room).units; var again := Conv16(us, 3 * |us|);
      && again.err == Success && WellFormed8(again.bytes)
      && Conv8(again.bytes, |again.bytes|) == Out16(Success, |again.bytes|, us)
  {
    Conv8WellFormed(r, room);
    RoundTrip16(Conv8(r, room).units);
  }

  // ---------------------------------------------------------------- how far 8to16 is from accepting UTF-8

  /** How long a character the lead byte announces; 0 for a byte that cannot lead. */
  function Width(c: byte): nat {
    if c < 0x80 then 1
    else if 0xc0 <= c < 0xe0 then 2
    else if 0xe0 <= c < 0xf0 then 3
    else if 0xf0 <= c < 0xf8 then 4
    else 0
  }

  /** In every two-byte character the second byte is a trail byte: the test the two-byte branch leaves out. */
  predicate TwoByteTrails(b: seq<byte>)
    decreases |b|
  {
    b == [] || Width(b[0]) == 0 || Width(b[0]) > |b|
    || ((Width(b[0]) == 2 ==> IsTrail(b[1])) && TwoByteTrails(b[Width(b[0])..]))
  }

  /** Not every accepted string is UTF-8. */
  lemma AcceptsTooMuch()
    ensures Conv8([0xc3, 0x28], 2) == Out16(Success, 2, [0xe8]) && !WellFormed8([0xc3, 0x28])
  {
    var b: seq<byte> := [0xc3, 0x28];
    assert Join2(0xc3, 0x28) == 0xe8;
    assert Next8(b, 2) == Go8(2, [0xe8]);
    assert b[2..] == [];
    assert Conv8(b[2..], 1) == Out16(Success, 0, []);
  }

  lemma RoundIsChar(b: seq<byte>, room: nat)
    requires b != [] && room >= |b|
    ensures Next8(b, room).Go8? ==> Next8(b, room).used == Width(b[0])
    ensures (Next8(b, room).Go8? && (Width(b[0]) == 2 ==> IsTrail(b[1]))) <==> Char8(b) > 0
    ensures Char8(b) > 0 ==> Char8(b) == Width(b[0])
  {
    if Width(b[0]) == 3 && |b| >= 3 && IsTrail(b[1]) && IsTrail(b[2]) {
      JoinRange3(b[0], b[1], b[2]);
    } else if Width(b[0]) == 4 && |b| >= 4 && IsTrail(b[1]) && IsTrail(b[2]) && IsTrail(b[3]) {
      JoinRange4(b[0], b[1], b[2], b[3]);
    }
  }

  lemma JoinRange3(c: byte, c2: byte, c3: byte)
    requires 0xe0 <= c < 0xf0 && IsTrail(c2) && IsTrail(c3)
    ensures var u := Join3(c, c2, c3);
      (u >= 2048 && !(0xd800 <= u < 0xe000)) <==> ((c == 0xe0 ==> 0xa0 <= c2) && (c == 0xed ==> c2 <= 0x9f))
  {
  }

  lemma JoinRange4(c: byte, c2: byte, c3: byte, c4: byte)
    requires 0xf0 <= c < 0xf8 && IsTrail(c2) && IsTrail(c3) && IsTrail(c4)
    ensures var u := Join4(c, c2, c3, c4);
      0x1_0000 <= u <= 0x10_ffff <==> (c <= 0xf4 && (c == 0xf0 ==> 0x90 <= c2) && (c == 0xf4 ==> c2 <= 0x8f))
  {
  }

  /** Apart from that test the converter accepts exactly UTF-8. */
  lemma {:induction false} AcceptsUtf8(b: seq<byte>, room: nat)
    requires room >= |b|
    ensures WellFormed8(b) <==> Conv8(b, room).err == Success && TwoByteTrails(b)
    decreases |b|
  {
    if b != [] {
      var n := Next8(b, room);
      RoundIsChar(b, room);
      if n.Go8? {
        AcceptsUtf8(b[n.used..], room - |n.units|);
      }
    }
  }

  // ---------------------------------------------------------------- 8to16 into a unit a byte

  /** The lead byte of a four-byte character at the very end, and only one-byte characters before it. */
  predicate CutFour(r: seq<byte>) {
    r != [] && 0xf0 <= r[|r| - 1] < 0xf8 && forall i :: 0 <= i < |r| - 1 ==> r[i] < 0x80
  }

  lemma CutFourNext(r: seq<byte>)
    requires |r| >= 2
    ensures CutFour(r) <==> r[0] < 0x80 && CutFour(r[1..])
  {
    var t := r[1..];
    assert t[|t| - 1] == r[|r| - 1];
    assert forall i :: 0 <= i < |t| ==> t[i] == r[i + 1];
    if r[0] < 0x80 && CutFour(t) {
      forall i | 0 <= i < |r| - 1 ensures r[i] < 0x80 {
        if i > 0 {
          assert t[i - 1] < 0x80;
        }
      }
    }
  }

  /** A round uses up the room as fast as the input exactly on a one-byte character. */
  lemma RoundRoom8(r: seq<byte>, room: nat)
    requires r != [] && room >= |r|
    ensures var n := Next8(r, room);
      && (n.Stop8? && n.err == BufferFull <==> room == |r| && |r| == 1 && CutFour(r))
      && (n.Stop8? ==> r[0] >= 0x80)
      && (n.Go8? ==> (n.used == |n.units| <==> r[0] < 0x80) && (r[0] < 0x80 ==> n.used == 1))
  {
  }

  /** A truncated four-byte character is reported as a full buffer, and nothing else is, exactly when no more than its
      lead is there and only one-byte characters come before it, so that no spare room is left. */
  lemma {:induction false} Conv8Full(r: seq<byte>, room: nat)
    requires room >= |r|
    ensures Conv8(r, room).err == BufferFull <==> room == |r| && CutFour(r)
    decreases |r|
  {
    if r != [] {
      var n := Next8(r, room);
      RoundRoom8(r, room);
      hide Next8;
      if |r| >= 2 {
        CutFourNext(r);
      }
      if n.Go8? {
        Conv8Full(r[n.used..], room - |n.units|);
      }
    }
  }

  // ---------------------------------------------------------------- 16to8 into three bytes a unit

  /** With three bytes a unit the conversion succeeds exactly on well-formed UTF-16, and then writes the RFC 3629
      encoding of its scalar values. */
  lemma {:induction false} Conv16Exact(u: seq<unit>, room: nat)
    requires room >= 3 * |u|
    ensures Conv16(u, room).err == Success <==> WellFormed16(u)
    ensures WellFormed16(u) ==> Conv16(u, room).bytes == Encode8(Scalars16(u))
    decreases |u|
  {
    if WellFormed16(u) {
      EncodedSizes(Scalars16(u));
      Conv16OfEncode16(Scalars16(u), room);
    } else {
      var n := Next16(u, room);
      if n.Go16? {
        Conv16Exact(u[n.used..], room - |n.bytes|);
      }
    }
  }

  predicate IsThreeByte(c: unit) {
    c >= 0x800 && !IsHigh(c) && !IsLow(c)
  }

  /** A high surrogate at the very end, and only three-byte characters before it. */
  predicate CutPair(u: seq<unit>) {
    u != [] && IsHigh(u[|u| - 1]) && forall i :: 0 <= i < |u| - 1 ==> IsThreeByte(u[i])
  }

  lemma CutPairNext(u: seq<unit>)
    requires |u| >= 2
    ensures CutPair(u) <==> IsThreeByte(u[0]) && CutPair(u[1..])
  {
    var t := u[1..];
    assert t[|t| - 1] == u[|u| - 1];
    assert forall i :: 0 <= i < |t| ==> t[i] == u[i + 1];
    if IsThreeByte(u[0]) && CutPair(t) {
      forall i | 0 <= i < |u| - 1 ensures IsThreeByte(u[i]) {
        if i > 0 {
          assert IsThreeByte(t[i - 1]);
        }
      }
    }
  }

  /** A round uses up the room as fast as the input exactly on a three-byte character. */
  lemma RoundRoom16(u: seq<unit>, room: nat)
    requires u != [] && room >= 3 * |u|
    ensures var n := Next16(u, room);
      && (n.Stop16? && n.err == BufferFull <==> room == 3 * |u| && |u| == 1 && CutPair(u))
      && (n.Stop16? ==> !IsThreeByte(u[0]))
      && (n.Go16? ==> (3 * n.used == |n.bytes| <==> IsThreeByte(u[0])) && (IsThreeByte(u[0]) ==> n.used == 1))
  {
  }

  /** A truncated surrogate pair is reported as a full buffer, and nothing else is, exactly when only three-byte
      characters come before it, so that no spare room is left. */
  lemma {:induction false} Conv16Full(u: seq<unit>, room: nat)
    requires room >= 3 * |u|
    ensures Conv16(u, room).err == BufferFull <==> room == 3 * |u| && CutPair(u)
    decreases |u|
  {
    if u != [] {
      var n := Next16(u, room);
      RoundRoom16(u, room);
      hide Next16;
      if |u| >= 2 {
        CutPairNext(u);
      }
      if n.Go16? {
        Conv16Full(u[n.used..], room - |n.bytes|);
      }
    }
  }

  // ---------------------------------------------------------------- where and why they stop

  /** No room is left for the character that starts here. */
  predicate NoRoom8(c: byte, room: nat) {
    room == 0 || (0xf0 <= c < 0xf8 && room < 2)
  }

  /** Why no character can be read here: it goes on behind the end; or its lead byte, or a trail byte of the longer
      forms, is none; or it would be overlong, a surrogate, or beyond U+10FFFF. */
  predicate StopsAt8(r: seq<byte>, room: nat, e: Err)
    requires r != []
  {
    var c := r[0];
    && (e == BufferFull <==> NoRoom8(c, room))
    && match e
       case Success => false
       case BufferFull => true
       case Incomplete => Width(c) > |r|
       case Malformed =>
         || Width(c) == 0
         || (3 <= Width(c) <= |r| && exists i :: 1 <= i < Width(c) && !IsTrail(r[i]))
       case Range =>
         && 2 <= Width(c) <= |r| && (Width(c) > 2 ==> forall i :: 1 <= i < Width(c) ==> IsTrail(r[i]))
         && (c < 0xc2 || (c == 0xe0 && r[1] < 0xa0) || (c == 0xed && r[1] >= 0xa0)
             || (c == 0xf0 && r[1] < 0x90) || (c == 0xf4 && r[1] >= 0x90) || c > 0xf4)
  }

  lemma RoundStops8(r: seq<byte>, room: nat)
    requires r != [] && Next8(r, room).Stop8?
    ensures StopsAt8(r, room, Next8(r, room).err)
  {
    if Width(r[0]) == 3 && |r| >= 3 && IsTrail(r[1]) && IsTrail(r[2]) {
      JoinRange3(r[0], r[1], r[2]);
    } else if Width(r[0]) == 4 && |r| >= 4 && IsTrail(r[1]) && IsTrail(r[2]) && IsTrail(r[3]) {
      JoinRange4(r[0], r[1], r[2], r[3]);
    }
  }

  lemma RoundReadsFront8(r: seq<byte>, room: nat, n: nat)
    requires r != [] && Next8(r, room).Go8? && Next8(r, room).used <= n <= |r|
    ensures Next8(r[..n], room) == Next8(r, room)
  {
  }

  lemma Conv8Goes(r: seq<byte>, room: nat, n: Round8)
    requires r != [] && n == Next8(r, room) && n.Go8?
    ensures var o := Conv8(r[n.used..], room - |n.units|);
      Conv8(r, room) == Out16(o.err, n.used + o.used, n.units + o.units)
  {
    hide Next8;
  }

  /** What a conversion has consumed it has converted: the part by itself comes to its end with the same units. */
  lemma {:induction false} Conv8Front(r: seq<byte>, room: nat)
    ensures var o := Conv8(r, room); Conv8(r[..o.used], room) == Out16(Success, o.used, o.units)
    decreases |r|
  {
    hide Next8;
    if r != [] && Next8(r, room).Go8? {
      var n := Next8(r, room);
      var o := Conv8(r[n.used..], room - |n.units|);
      Conv8Goes(r, room, n);
      Conv8Front(r[n.used..], room - |n.units|);
      RoundReadsFront8(r, room, n.used + o.used);
      Conv8Goes(r[..n.used + o.used], room, n);
      assert r[..n.used + o.used][n.used..] == r[n.used..][..o.used];
    }
  }

  predicate Stopped8(r: seq<byte>, room: nat, o: Out16) {
    o.used < |r| && |o.units| <= room && StopsAt8(r[o.used..], room - |o.units|, o.err)
  }

  lemma Stopped8Later(r: seq<byte>, room: nat, k: nat, us: seq<unit>, o: Out16)
    requires k <= |r| && |us| <= room && Stopped8(r[k..], room - |us|, o)
    ensures Stopped8(r, room, Out16(o.err, k + o.used, us + o.units))
  {
    hide StopsAt8;
    assert r[k..][o.used..] == r[k + o.used..];
  }

  /** A conversion that does not come to the end stops in front of a character that cannot be read or that there is no
      room for, with the error that says why. */
  lemma {:induction false} Conv8Stops(r: seq<byte>, room: nat)
    requires Conv8(r, room).err != Success
    ensures Stopped8(r, room, Conv8(r, room))
    decreases |r|
  {
    hide StopsAt8, Stopped8, Next8;
    var n := Next8(r, room);
    if n.Go8? {
      Conv8Goes(r, room, n);
      Conv8Stops(r[n.used..], room - |n.units|);
      Stopped8Later(r, room, n.used, n.units, Conv8(r[n.used..], room - |n.units|));
    } else {
      StopsNow8(r, room);
    }
  }

  lemma StopsNow8(r: seq<byte>, room: nat)
    requires r != [] && Next8(r, room).Stop8?
    ensures Stopped8(r, room, Conv8(r, room))
  {
    RoundStops8(r, room);
    hide Next8, StopsAt8;
    assert r[0..] == r;
  }

  /** How many bytes the character that starts with this unit takes. */
  function Size8(c: unit): nat {
    if c < 0x80 then 1 else if c < 0x800 then 2 else if IsHigh(c) then 4 else if IsLow(c) then 1 else 3
  }

  /** Why no character can be read here: a high surrogate ends the string, or no low one follows it, or a low one comes
      first. */
  predicate StopsAt16(u: seq<unit>, room: nat, e: Err)
    requires u != []
  {
    && (e == BufferFull <==> room < Size8(u[0]))
    && match e
       case BufferFull => true
       case Incomplete => IsHigh(u[0]) && |u| == 1
       case Malformed => IsLow(u[0]) || (IsHigh(u[0]) && |u| >= 2 && !IsLow(u[1]))
       case _ => false
  }

  lemma RoundReadsFront16(u: seq<unit>, room: nat, n: nat)
    requires u != [] && Next16(u, room).Go16? && Next16(u, room).used <= n <= |u|
    ensures Next16(u[..n], room) == Next16(u, room)
  {
  }

  lemma Conv16Goes(u: seq<unit>, room: nat, n: Round16)
    requires u != [] && n == Next16(u, room) && n.Go16?
    ensures var o := Conv16(u[n.used..], room - |n.bytes|);
      Conv16(u, room) == Out8(o.err, n.used + o.used, n.bytes + o.bytes)
  {
    hide Next16;
  }

  lemma {:induction false} Conv16Front(u: seq<unit>, room: nat)
    ensures var o := Conv16(u, room); Conv16(u[..o.used], room) == Out8(Success, o.used, o.bytes)
    decreases |u|
  {
    hide Next16;
    if u != [] && Next16(u, room).Go16? {
      var n := Next16(u, room);
      var o := Conv16(u[n.used..], room - |n.bytes|);
      Conv16Goes(u, room, n);
      Conv16Front(u[n.used..], room - |n.bytes|);
      RoundReadsFront16(u, room, n.used + o.used);
      Conv16Goes(u[..n.used + o.used], room, n);
      assert u[..n.used + o.used][n.used..] == u[n.used..][..o.used];
    }
  }

  lemma RoundStops16(u: seq<unit>, room: nat)
    requires u != [] && Next16(u, room).Stop16?
    ensures StopsAt16(u, room, Next16(u, room).err)
  {
  }

  predicate Stopped16(u: seq<unit>, room: nat, o: Out8) {
    o.used < |u| && |o.bytes| <= room && StopsAt16(u[o.used..], room - |o.bytes|, o.err)
  }

  lemma Stopped16Later(u: seq<unit>, room: nat, k: nat, bs: seq<byte>, o: Out8)
    requires k <= |u| && |bs| <= room && Stopped16(u[k..], room - |bs|, o)
    ensures Stopped16(u, room, Out8(o.err, k + o.used, bs + o.bytes))
  {
    hide StopsAt16;
    assert u[k..][o.used..] == u[k + o.used..];
  }

  lemma {:induction false} Conv16Stops(u: seq<unit>, room: nat)
    requires Conv16(u, room).err != Success
    ensures Stopped16(u, room, Conv16(u, room))
    decreases |u|
  {
    hide StopsAt16, Stopped16, Next16;
    var n := Next16(u, room);
    if n.Go16? {
      Conv16Goes(u, room, n);
      Conv16Stops(u[n.used..], room - |n.bytes|);
      Stopped16Later(u, room, n.used, n.bytes, Conv16(u[n.used..], room - |n.bytes|));
    } else {
      StopsNow16(u, room);
    }
  }

  lemma StopsNow16(u: seq<unit>, room: nat)
    requires u != [] && Next16(u, room).Stop16?
    ensures Stopped16(u, room, Conv16(u, room))
  {
    RoundStops16(u, room);
    hide Next16, StopsAt16;
    assert u[0..] == u;
  }
}
