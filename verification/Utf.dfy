/** UTF-8 and UTF-16: the standards, and the two converters as functions over the bytes and units left.
    The converters look at one character per round; `room` is the space left in the output buffer. */
module Utf {
  import opened Bytes

  type unit = x: int | 0 <= x < 0x1_0000
  type scalar = x: int | 0 <= x < 0xd800 || 0xe000 <= x < 0x11_0000

  // ---------------------------------------------------------------- the standards

  /** Section 3 of RFC 3629. */
  function Utf8(s: scalar): seq<byte> {
    if s < 0x80 then [s]
    else if s < 0x800 then [0xc0 + s / 64, 0x80 + s % 64]
    else if s < 0x1_0000 then [0xe0 + s / 4096, 0x80 + s / 64 % 64, 0x80 + s % 64]
    else [0xf0 + s / 262144, 0x80 + s / 4096 % 64, 0x80 + s / 64 % 64, 0x80 + s % 64]
  }

  /** Section 2.1 of RFC 2781. */
  function Utf16(s: scalar): seq<unit> {
    if s < 0x1_0000 then [s] else [0xd800 + (s - 0x1_0000) / 1024, 0xdc00 + (s - 0x1_0000) % 1024]
  }

  function Encode8(ss: seq<scalar>): seq<byte> {
    if ss == [] then [] else Utf8(ss[0]) + Encode8(ss[1..])
  }

  function Encode16(ss: seq<scalar>): seq<unit> {
    if ss == [] then [] else Utf16(ss[0]) + Encode16(ss[1..])
  }

  predicate IsTrail(c: byte) {
    0x80 <= c < 0xc0
  }

  /** The length of the UTF-8 character at the front, by the grammar in section 4 of RFC 3629; 0 if there is none. */
  function Char8(b: seq<byte>): (n: nat)
    ensures n <= 4 && n <= |b|
  {
    if b == [] then 0
    else if b[0] < 0x80 then 1
    else if 0xc2 <= b[0] <= 0xdf then (if |b| >= 2 && IsTrail(b[1]) then 2 else 0)
    else if 0xe0 <= b[0] <= 0xef then
      if |b| >= 3 && IsTrail(b[1]) && IsTrail(b[2])
         && (b[0] == 0xe0 ==> 0xa0 <= b[1]) && (b[0] == 0xed ==> b[1] <= 0x9f) then 3 else 0
    else if 0xf0 <= b[0] <= 0xf4 then
      if |b| >= 4 && IsTrail(b[1]) && IsTrail(b[2]) && IsTrail(b[3])
         && (b[0] == 0xf0 ==> 0x90 <= b[1]) && (b[0] == 0xf4 ==> b[1] <= 0x8f) then 4 else 0
    else 0
  }

  predicate WellFormed8(b: seq<byte>) {
    b == [] || (Char8(b) > 0 && WellFormed8(b[Char8(b)..]))
  }

  predicate IsHigh(c: unit) {
    0xd800 <= c < 0xdc00
  }

  predicate IsLow(c: unit) {
    0xdc00 <= c < 0xe000
  }

  /** Section 2.2 of RFC 2781. */
  predicate WellFormed16(u: seq<unit>) {
    || u == []
    || (!IsHigh(u[0]) && !IsLow(u[0]) && WellFormed16(u[1..]))
    || (IsHigh(u[0]) && |u| >= 2 && IsLow(u[1]) && WellFormed16(u[2..]))
  }

  // ---------------------------------------------------------------- the converters

  /** The payload bits of a lead and its trails, joined: the marks are subtracted where the branch has tested them, and
      masked off from the second byte of the two-byte form, which it has not. */
  function Join2(c: byte, c2: byte): nat
    requires 0xc0 <= c < 0xe0
  {
    (c as int - 0xc0) * 64 + c2 as int % 64
  }

  function Join3(c: byte, c2: byte, c3: byte): nat
    requires 0xe0 <= c < 0xf0 && IsTrail(c2) && IsTrail(c3)
  {
    (c as int - 0xe0) * 4096 + (c2 as int - 0x80) * 64 + (c3 as int - 0x80)
  }

  function Join4(c: byte, c2: byte, c3: byte, c4: byte): nat
    requires 0xf0 <= c < 0xf8 && IsTrail(c2) && IsTrail(c3) && IsTrail(c4)
  {
    (c as int - 0xf0) * 262144 + (c2 as int - 0x80) * 4096 + (c3 as int - 0x80) * 64 + (c4 as int - 0x80)
  }

  function JoinPair(hi: unit, lo: unit): nat
    requires IsHigh(hi) && IsLow(lo)
  {
    (hi as int - 0xd800) * 1024 + (lo as int - 0xdc00) + 0x1_0000
  }

  /** A character's bits, dealt out under the marks. */
  function Split2(c: unit): (b: seq<byte>)
    ensures |b| == 2
  {
    var c: int := c;
    [0xc0 + c / 64 % 32, 0x80 + c % 64]
  }

  function Split3(c: unit): (b: seq<byte>)
    ensures |b| == 3
  {
    var c: int := c;
    [0xe0 + c / 4096 % 16, 0x80 + c / 64 % 64, 0x80 + c % 64]
  }

  function Split4(u: nat): (b: seq<byte>)
    ensures |b| == 4
  {
    [0xf0 + u / 262144 % 8, 0x80 + u / 4096 % 64, 0x80 + u / 64 % 64, 0x80 + u % 64]
  }

  function Pair(u: nat): (p: seq<unit>)
    requires u < 0x10_0000
    ensures |p| == 2 && IsHigh(p[0]) && IsLow(p[1])
  {
    [u / 1024 + 0xd800, u % 1024 + 0xdc00]
  }

  datatype Err = Success | Malformed | Range | Incomplete | BufferFull

  /** One round of `pmc_uconv_8to16`. */
  datatype Round8 = Stop8(err: Err) | Go8(used: nat, units: seq<unit>)

  function Next8(r: seq<byte>, room: nat): (n: Round8)
    requires r != []
    ensures n.Go8? ==> 1 <= |n.units| <= n.used <= |r| && |n.units| <= room
    ensures n.Stop8? ==> n.err != Success
  {
    var c := r[0];
    if room == 0 then Stop8(BufferFull)
    else if c < 0x80 then Go8(1, [c])
    else if 0xc0 <= c < 0xe0 then
      if |r| < 2 then Stop8(Incomplete)
      else
        var u := Join2(c, r[1]);
        if u < 128 then Stop8(Range) else Go8(2, [u])
    else if 0xe0 <= c < 0xf0 then
      if |r| < 3 then Stop8(Incomplete)
      else if !IsTrail(r[1]) || !IsTrail(r[2]) then Stop8(Malformed)
      else
        var u := Join3(c, r[1], r[2]);
        if u < 2048 || 0xd800 <= u < 0xe000 then Stop8(Range) else Go8(3, [u])
    else if 0xf0 <= c < 0xf8 then
      if room < 2 then Stop8(BufferFull)
      else if |r| < 4 then Stop8(Incomplete)
      else if !IsTrail(r[1]) || !IsTrail(r[2]) || !IsTrail(r[3]) then Stop8(Malformed)
      else
        var u := Join4(c, r[1], r[2], r[3]);
        if u < 0x1_0000 || u > 0x10_ffff then Stop8(Range)
        else Go8(4, Pair(u - 0x1_0000))
    else Stop8(Malformed)
  }

  /** The whole conversion: why it stops, the bytes consumed and the units written by then. */
  datatype Out16 = Out16(err: Err, used: nat, units: seq<unit>)

  function Conv8(r: seq<byte>, room: nat): (o: Out16)
    ensures |o.units| <= o.used <= |r| && |o.units| <= room
    ensures o.err == Success <==> o.used == |r|
    decreases |r|
  {
    if r == [] then Out16(Success, 0, [])
    else
      match Next8(r, room)
      case Stop8(e) => Out16(e, 0, [])
      case Go8(k, us) =>
        var o := Conv8(r[k..], room - |us|);
        Out16(o.err, k + o.used, us + o.units)
  }

  /** One round of `pmc_uconv_16to8`. */
  datatype Round16 = Stop16(err: Err) | Go16(used: nat, bytes: seq<byte>)

  function Next16(r: seq<unit>, room: nat): (n: Round16)
    requires r != []
    ensures n.Go16? ==> 1 <= n.used <= |r| && 1 <= |n.bytes| <= room && |n.bytes| <= 3 * n.used
    ensures n.Stop16? ==> n.err != Success
  {
    var c := r[0];
    if room == 0 then Stop16(BufferFull)
    else if c < 0x80 then Go16(1, [c])
    else if c < 0x800 then
      if room < 2 then Stop16(BufferFull) else Go16(1, Split2(c))
    else if IsHigh(c) then
      if room < 4 then Stop16(BufferFull)
      else if |r| < 2 then Stop16(Incomplete)
      else if !IsLow(r[1]) then Stop16(Malformed)
      else
        Go16(2, Split4(JoinPair(c, r[1])))
    else if IsLow(c) then Stop16(Malformed)
    else if room < 3 then Stop16(BufferFull)
    else Go16(1, Split3(c))
  }

  datatype Out8 = Out8(err: Err, used: nat, bytes: seq<byte>)

  function Conv16(r: seq<unit>, room: nat): (o: Out8)
    ensures o.used <= |r| && |o.bytes| <= room && |o.bytes| <= 3 * o.used
    ensures o.err == Success <==> o.used == |r|
    decreases |r|
  {
    if r == [] then Out8(Success, 0, [])
    else
      match Next16(r, room)
      case Stop16(e) => Out8(e, 0, [])
      case Go16(k, bs) =>
        var o := Conv16(r[k..], room - |bs|);
        Out8(o.err, k + o.used, bs + o.bytes)
  }

  // ---------------------------------------------------------------- one character

  /** Six bits at a time. */
  lemma Digits(s: nat)
    ensures s / 64 * 64 + s % 64 == s
    ensures s / 4096 * 64 + s / 64 % 64 == s / 64
    ensures s / 262144 * 64 + s / 4096 % 64 == s / 4096
  {
    assert s / 64 / 64 == s / 4096;
    assert s / 4096 / 64 == s / 262144;
  }

  lemma JoinSplit2(s: scalar)
    requires 0x80 <= s < 0x800
    ensures Join2(0xc0 + s / 64, 0x80 + s % 64) == s
  {
    Digits(s);
  }

  lemma JoinSplit3(s: scalar)
    requires 0x800 <= s < 0x1_0000
    ensures Join3(0xe0 + s / 4096, 0x80 + s / 64 % 64, 0x80 + s % 64) == s
  {
    Digits(s);
  }

  lemma JoinSplit4(s: scalar)
    requires 0x1_0000 <= s
    ensures Join4(0xf0 + s / 262144, 0x80 + s / 4096 % 64, 0x80 + s / 64 % 64, 0x80 + s % 64) == s
  {
    Digits(s);
  }

  lemma JoinSplitPair(s: scalar)
    requires 0x1_0000 <= s
    ensures Utf16(s) == Pair(s - 0x1_0000) && JoinPair(Utf16(s)[0], Utf16(s)[1]) == s
  {
  }

  lemma AppendFront<T>(x: seq<T>, t: seq<T>)
    ensures (x + t)[..|x|] == x && (x + t)[|x|..] == t
    ensures forall i :: 0 <= i < |x| ==> (x + t)[i] == x[i]
  {
  }

  lemma Next8Two(c: byte, c2: byte, t: seq<byte>, room: nat)
    requires 0xc0 <= c < 0xe0 && Join2(c, c2) >= 128 && room >= 1
    ensures Next8([c, c2] + t, room) == Go8(2, [Join2(c, c2)])
  {
    AppendFront([c, c2], t);
  }

  lemma Next8Three(c: byte, c2: byte, c3: byte, t: seq<byte>, room: nat, s: scalar)
    requires 0xe0 <= c < 0xf0 && IsTrail(c2) && IsTrail(c3) && Join3(c, c2, c3) == s && s >= 2048 && room >= 1
    ensures Next8([c, c2, c3] + t, room) == Go8(3, [s])
  {
    AppendFront([c, c2, c3], t);
  }

  lemma Next8Four(c: byte, c2: byte, c3: byte, c4: byte, t: seq<byte>, room: nat, s: scalar)
    requires 0xf0 <= c < 0xf8 && IsTrail(c2) && IsTrail(c3) && IsTrail(c4)
    requires Join4(c, c2, c3, c4) == s && s >= 0x1_0000 && room >= 2
    ensures Next8([c, c2, c3, c4] + t, room) == Go8(4, Utf16(s))
  {
    AppendFront([c, c2, c3, c4], t);
    JoinSplitPair(s);
  }

  /** Each scalar value's UTF-8 form is read as its UTF-16 form. */
  lemma Next8OfUtf8(s: scalar, t: seq<byte>, room: nat)
    requires room >= |Utf16(s)|
    ensures Next8(Utf8(s) + t, room) == Go8(|Utf8(s)|, Utf16(s))
  {
    if s < 0x80 {
    } else if s < 0x800 {
      JoinSplit2(s);
      Next8Two(0xc0 + s / 64, 0x80 + s % 64, t, room);
    } else if s < 0x1_0000 {
      JoinSplit3(s);
      Next8Three(0xe0 + s / 4096, 0x80 + s / 64 % 64, 0x80 + s % 64, t, room, s);
    } else {
      JoinSplit4(s);
      Next8Four(0xf0 + s / 262144, 0x80 + s / 4096 % 64, 0x80 + s / 64 % 64, 0x80 + s % 64, t, room, s);
    }
  }

  lemma SplitIsUtf8(s: scalar)
    ensures 0x80 <= s < 0x800 ==> Split2(s) == Utf8(s)
    ensures 0x800 <= s < 0x1_0000 ==> Split3(s) == Utf8(s)
    ensures 0x1_0000 <= s ==> Split4(s) == Utf8(s)
  {
    if 0x80 <= s < 0x800 {
      assert s / 64 % 32 == s / 64;
    } else if 0x800 <= s < 0x1_0000 {
      assert s / 4096 % 16 == s / 4096;
    } else if 0x1_0000 <= s {
      assert s / 262144 % 8 == s / 262144;
    }
  }

  /** And back. */
  lemma Next16OfUtf16(s: scalar, t: seq<unit>, room: nat)
    requires room >= |Utf8(s)|
    ensures Next16(Utf16(s) + t, room) == Go16(|Utf16(s)|, Utf8(s))
  {
    AppendFront(Utf16(s), t);
    SplitIsUtf8(s);
    if s >= 0x1_0000 {
      JoinSplitPair(s);
    }
  }

  lemma Char8OfUtf8(s: scalar, t: seq<byte>)
    ensures Char8(Utf8(s) + t) == |Utf8(s)|
  {
    AppendFront(Utf8(s), t);
    Digits(s);
  }
}
