/** Strings made from the other encoding: `ase_utf16_string`, whose permissive form replaces what it cannot read and
    goes on behind it, and `ase_string::init_16`. */
module Utf16String {
  import opened Bytes
  import opened Utf
  import opened UtfConverter
  import opened UtfProofs

  const REPLACEMENT: unit := 0xfffd

  /** How many trail bytes stand at the front. */
  function Trails(r: seq<byte>): (n: nat)
    ensures n <= |r|
    ensures forall i :: 0 <= i < n ==> IsTrail(r[i])
    ensures n < |r| ==> !IsTrail(r[n])
  {
    if r == [] || !IsTrail(r[0]) then 0 else 1 + Trails(r[1..])
  }

  /** One character of the permissive conversion: a character the converter reads, or else one byte and the trail bytes
      behind it, replaced. Only a full buffer stops it. */
  function NextPermissive(r: seq<byte>, room: nat): (n: Round8)
    requires r != []
    ensures n.Go8? ==> 1 <= |n.units| <= n.used <= |r| && |n.units| <= room
    ensures n.Stop8? ==> n.err == BufferFull
  {
    match Next8(r, room)
    case Go8(k, us) => Go8(k, us)
    case Stop8(e) => if e == BufferFull then Stop8(e) else Go8(1 + Trails(r[1..]), [REPLACEMENT])
  }

  function Permissive(r: seq<byte>, room: nat): (o: Out16)
    ensures |o.units| <= o.used <= |r| && |o.units| <= room
    ensures o.err == Success <==> o.used == |r|
    ensures o.err in {Success, BufferFull}
    decreases |r|
  {
    if r == [] then Out16(Success, 0, [])
    else
      match NextPermissive(r, room)
      case Stop8(e) => Out16(e, 0, [])
      case Go8(k, us) =>
        var o := Permissive(r[k..], room - |us|);
        Out16(o.err, k + o.used, us + o.units)
  }

  /** Where the source's loop resumes behind the replacement. */
  function Resume(r: seq<byte>, used: nat): (k: nat)
    requires used < |r|
    ensures used < k <= |r|
  {
    used + 1 + Trails(r[used + 1..])
  }

  function Prepend(k: nat, us: seq<unit>, o: Out16): Out16 {
    Out16(o.err, k + o.used, us + o.units)
  }

  lemma PrependTwice(k: nat, us: seq<unit>, j: nat, vs: seq<unit>, o: Out16)
    ensures Prepend(k, us, Prepend(j, vs, o)) == Prepend(k + j, us + vs, o)
  {
    assert us + (vs + o.units) == (us + vs) + o.units;
  }

  predicate IsFinal(e: Err) {
    e == Success || e == BufferFull
  }

  lemma PermissiveGoes(r: seq<byte>, room: nat, k: nat, us: seq<unit>)
    requires r != [] && NextPermissive(r, room) == Go8(k, us)
    ensures Permissive(r, room) == Prepend(k, us, Permissive(r[k..], room - |us|))
  {
    hide NextPermissive;
  }

  lemma ReadOne(r: seq<byte>, room: nat, n: Round8)
    requires r != [] && Next8(r, room) == n && n.Go8?
    ensures Conv8(r, room) == Prepend(n.used, n.units, Conv8(r[n.used..], room - |n.units|))
    ensures Permissive(r, room) == Prepend(n.used, n.units, Permissive(r[n.used..], room - |n.units|))
  {
    hide Next8;
    PermissiveGoes(r, room, n.used, n.units);
  }

  lemma ReplaceOne(r: seq<byte>, room: nat, e: Err)
    requires room >= |r| && r != [] && Next8(r, room) == Stop8(e)
    ensures Conv8(r, room) == Out16(e, 0, [])
    ensures Permissive(r, room) ==
      if e == BufferFull then Out16(e, 0, [])
      else Prepend(Resume(r, 0), [REPLACEMENT], Permissive(r[Resume(r, 0)..], room - 1))
  {
    hide Next8, Trails;
    if e != BufferFull {
      PermissiveGoes(r, room, Resume(r, 0), [REPLACEMENT]);
    }
  }

  lemma ResumeLater(r: seq<byte>, k: nat, used: nat)
    requires k + used < |r|
    ensures Resume(r, k + used) == k + Resume(r[k..], used)
    ensures r[k..][Resume(r[k..], used)..] == r[Resume(r, k + used)..]
  {
    assert r[k..][used + 1..] == r[k + used + 1..];
  }

  /** The source's loop resumes the strict conversion behind each replacement; that is the same, character by
      character. */
  lemma {:induction false} StrictThenPermissive(r: seq<byte>, room: nat)
    requires room >= |r|
    ensures var o := Conv8(r, room);
      if IsFinal(o.err) then Permissive(r, room) == o
      else
        var k := Resume(r, o.used);
        Permissive(r, room) == Prepend(k, o.units + [REPLACEMENT], Permissive(r[k..], room - |o.units| - 1))
    decreases |r|
  {
    hide Next8, NextPermissive;
    if r == [] {
    } else if Next8(r, room).Go8? {
      var n := Next8(r, room);
      ReadOne(r, room, n);
      Behind(r, room, n.used, n.units);
    } else {
      ReplaceOne(r, room, Next8(r, room).err);
      assert [] + [REPLACEMENT] == [REPLACEMENT];
    }
  }

  lemma {:induction false} Behind(r: seq<byte>, room: nat, k: nat, us: seq<unit>)
    requires 0 < k <= |r| <= room && |us| <= k
    requires Conv8(r, room) == Prepend(k, us, Conv8(r[k..], room - |us|))
    requires Permissive(r, room) == Prepend(k, us, Permissive(r[k..], room - |us|))
    ensures var o := Conv8(r, room);
      if IsFinal(o.err) then Permissive(r, room) == o
      else
        var k := Resume(r, o.used);
        Permissive(r, room) == Prepend(k, o.units + [REPLACEMENT], Permissive(r[k..], room - |o.units| - 1))
    decreases |r|, 0
  {
    hide Conv8, Permissive, Resume;
    var t := r[k..];
    var o := Conv8(t, room - |us|);
    StrictThenPermissive(t, room - |us|);
    if !IsFinal(o.err) {
      ResumeLater(r, k, o.used);
      var j := Resume(t, o.used);
      PrependTwice(k, us, j, o.units + [REPLACEMENT], Permissive(t[j..], room - |us| - |o.units| - 1));
      assert us + (o.units + [REPLACEMENT]) == (us + o.units) + [REPLACEMENT];
      assert room - |us| - |o.units| - 1 == room - |us + o.units| - 1;
    }
  }

  /** The permissive conversion never writes an ill-formed string. */
  lemma {:induction false} PermissiveWellFormed(r: seq<byte>, room: nat)
    ensures WellFormed16(Permissive(r, room).units)
    decreases |r|
  {
    if r != [] && NextPermissive(r, room).Go8? {
      var n := NextPermissive(r, room);
      if Next8(r, room).Go8? {
        Next8WellFormed(r, room);
      } else {
        assert [REPLACEMENT][1..] == [];
      }
      PermissiveWellFormed(r[n.used..], room - |n.units|);
      WellFormed16Append(n.units, Permissive(r[n.used..], room - |n.units|).units);
    }
  }

  /** On UTF-8 it changes nothing. */
  lemma PermissiveOnUtf8(b: seq<byte>)
    requires WellFormed8(b)
    ensures Permissive(b, |b|) == Out16(Success, |b|, Encode16(Scalars8(b)))
  {
    EncodedSizes(Scalars8(b));
    Conv8OfEncode8(Scalars8(b), |b|);
    StrictThenPermissive(b, |b|);
  }

  // ---------------------------------------------------------------- when the buffer is full

  /** `c` is one unit for one byte when `d` follows: not the lead of a two-byte character, and no trail byte is skipped
      behind it. */
  predicate Lone(c: byte, d: byte) {
    !(0xc2 <= c <= 0xdf) && (IsTrail(d) ==> c < 0x80)
  }

  /** A lead byte of a four-byte character at the very end, and only lone bytes before it. */
  predicate CutLead(r: seq<byte>) {
    r != [] && 0xf0 <= r[|r| - 1] < 0xf8 && forall i :: 0 <= i < |r| - 1 ==> Lone(r[i], r[i + 1])
  }

  lemma CutLeadNext(r: seq<byte>)
    requires |r| >= 2
    ensures CutLead(r) <==> Lone(r[0], r[1]) && CutLead(r[1..])
  {
    var t := r[1..];
    assert t[|t| - 1] == r[|r| - 1];
    assert forall i :: 0 <= i < |t| ==> t[i] == r[i + 1];
    if Lone(r[0], r[1]) && CutLead(t) {
      forall i | 0 <= i < |r| - 1 ensures Lone(r[i], r[i + 1]) {
        if i > 0 {
          assert Lone(t[i - 1], t[i]);
        }
      }
    }
  }

  /** A round uses up the room as fast as the input exactly when the byte is a lone one. */
  lemma LoneRound(r: seq<byte>, room: nat)
    requires |r| >= 2 && room >= |r|
    ensures var n := NextPermissive(r, room);
      && n.Go8? && (n.used == |n.units| <==> Lone(r[0], r[1])) && (Lone(r[0], r[1]) ==> n.used == 1)
  {
    var t := r[1..];
    assert t[0] == r[1];
    assert Trails(t) == 0 <==> !IsTrail(r[1]);
  }

  lemma LastRound(r: seq<byte>, room: nat)
    requires |r| == 1 <= room
    ensures Permissive(r, room) == if room == 1 && 0xf0 <= r[0] < 0xf8 then Out16(BufferFull, 0, [])
                                   else Out16(Success, 1, NextPermissive(r, room).units)
  {
    assert r[1..] == [];
    var n := NextPermissive(r, room);
    if n.Go8? {
      assert n.used == 1;
      assert n.units + [] == n.units;
    }
  }

  lemma PermissiveRound(r: seq<byte>, room: nat, n: Round8)
    requires r != [] && n == NextPermissive(r, room) && n.Go8?
    ensures Permissive(r, room) == Prepend(n.used, n.units, Permissive(r[n.used..], room - |n.units|))
  {
  }

  /** With a unit of room for every byte, the conversion fails exactly on a string cut behind the lead byte of a
      four-byte character with nothing before it that left room over; every other string is converted to its end. */
  lemma {:induction false} PermissiveFull(r: seq<byte>, room: nat)
    requires room >= |r|
    ensures Permissive(r, room).err == BufferFull <==> room == |r| && CutLead(r)
    ensures Permissive(r, room).err == BufferFull ==> Permissive(r, room).used == |Permissive(r, room).units| == |r| - 1
    decreases |r|
  {
    hide Next8, NextPermissive;
    if |r| == 1 {
      LastRound(r, room);
    } else if |r| >= 2 {
      var n := NextPermissive(r, room);
      LoneRound(r, room);
      CutLeadNext(r);
      PermissiveRound(r, room, n);
      PermissiveFull(r[n.used..], room - |n.units|);
    }
  }

  // ---------------------------------------------------------------- what is replaced

  /** What the strict converter reads, and as what: the UTF-8 form of a scalar value, or a two-byte character without
      its trail byte, the one thing it reads that is not UTF-8. */
  ghost predicate Readable(c: seq<byte>, us: seq<unit>) {
    || (exists s: scalar :: c == Utf8(s) && us == Utf16(s))
    || (|c| == 2 && 0xc2 <= c[0] <= 0xdf && !IsTrail(c[1]) && us == [(c[0] as int - 0xc0) * 64 + c[1] as int % 64])
  }

  /** A piece of the input: a character, or a byte that starts none with the trail bytes behind it. */
  datatype Piece = Char(bytes: seq<byte>, units: seq<unit>) | Broken(bytes: seq<byte>)

  ghost predicate PieceOf(r: seq<byte>, p: Piece) {
    && p.bytes != [] && p.bytes <= r
    && match p
       case Char(c, us) => Readable(c, us)
       case Broken(c) =>
         && (forall n, us :: 0 <= n <= |r| ==> !Readable(r[..n], us))
         && (forall i :: 1 <= i < |c| ==> IsTrail(c[i])) && (|c| < |r| ==> !IsTrail(r[|c|]))
  }

  ghost predicate Splits(r: seq<byte>, ps: seq<Piece>)
    decreases |ps|
  {
    if ps == [] then r == [] else PieceOf(r, ps[0]) && Splits(r[|ps[0].bytes|..], ps[1..])
  }

  /** Each character in UTF-16, and U+FFFD for each broken piece. */
  function UnitsOf(ps: seq<Piece>): seq<unit> {
    if ps == [] then []
    else (match ps[0] case Char(_, us) => us case Broken(_) => [0xfffd]) + UnitsOf(ps[1..])
  }

  lemma ReadableRound(r: seq<byte>, room: nat, n: nat, us: seq<unit>)
    requires n <= |r| <= room && Readable(r[..n], us)
    ensures n > 0 && Next8(r, room) == Go8(n, us)
  {
    var c := r[..n];
    assert r == c + r[n..];
    if s: scalar :| c == Utf8(s) && us == Utf16(s) {
      Next8OfUtf8(s, r[n..], room);
    } else {
      assert r[0] == c[0] && r[1] == c[1];
      assert Join2(r[0], r[1]) == (c[0] as int - 0xc0) * 64 + c[1] as int % 64;
    }
  }

  lemma RoundReadable(r: seq<byte>, room: nat)
    requires r != [] && |r| <= room && Next8(r, room).Go8?
    ensures var n := Next8(r, room); Readable(r[..n.used], n.units)
  {
    RoundIsChar(r, room);
    if Char8(r) > 0 {
      CharReadable(r, room);
    } else {
      LooseReadable(r, room);
    }
    hide Next8, Readable, Char8;
  }

  lemma CharReadable(r: seq<byte>, room: nat)
    requires |r| <= room && Char8(r) > 0
    ensures var n := Next8(r, room); n.Go8? && Readable(r[..n.used], n.units)
  {
    var s, n := First8(r), Char8(r);
    hide Next8, Char8;
    assert r == Utf8(s) + r[n..];
    Next8OfUtf8(s, r[n..], room);
    assert r[..n] == Utf8(s);
  }

  lemma LooseReadable(r: seq<byte>, room: nat)
    requires r != [] && |r| <= room && Next8(r, room).Go8? && Width(r[0]) == 2 && !IsTrail(r[1])
    ensures var n := Next8(r, room); Readable(r[..n.used], n.units)
  {
    assert Next8(r, room) == Go8(2, [Join2(r[0], r[1])]);
  }

  lemma {:induction false} TrailsAre(r: seq<byte>, n: nat)
    requires n <= |r| && (forall i :: 0 <= i < n ==> IsTrail(r[i])) && (n < |r| ==> !IsTrail(r[n]))
    ensures Trails(r) == n
    decreases n
  {
    if n > 0 {
      TrailsAre(r[1..], n - 1);
    }
  }

  lemma BrokenRound(r: seq<byte>, room: nat, p: Piece)
    requires |r| <= room && p.Broken? && PieceOf(r, p) && Permissive(r, room).err == Success
    ensures NextPermissive(r, room) == Go8(|p.bytes|, [0xfffd])
  {
    if Next8(r, room).Go8? {
      RoundReadable(r, room);
    } else {
      forall i | 0 <= i < |p.bytes| - 1 ensures IsTrail(r[1..][i]) {
        assert p.bytes[i + 1] == r[i + 1];
      }
      TrailsAre(r[1..], |p.bytes| - 1);
    }
    hide Next8, Trails, Readable;
  }

  lemma PieceRound(r: seq<byte>, room: nat, p: Piece)
    requires |r| <= room && PieceOf(r, p) && Permissive(r, room).err == Success
    ensures NextPermissive(r, room) == Go8(|p.bytes|, if p.Char? then p.units else [0xfffd])
  {
    if p.Char? {
      assert r[..|p.bytes|] == p.bytes;
      ReadableRound(r, room, |p.bytes|, p.units);
    } else {
      BrokenRound(r, room, p);
    }
    hide Readable, Trails, Next8, Permissive;
  }

  lemma {:induction false} PiecesConverted(r: seq<byte>, room: nat, ps: seq<Piece>)
    requires |r| <= room && Splits(r, ps) && Permissive(r, room).err == Success
    ensures Permissive(r, room).units == UnitsOf(ps)
    decreases |ps|
  {
    hide PieceOf, NextPermissive;
    if ps != [] {
      var p := ps[0];
      var us := if p.Char? then p.units else [0xfffd];
      PieceRound(r, room, p);
      PieceRest(r, room, p, us);
      PiecesConverted(r[|p.bytes|..], room - |us|, ps[1..]);
    }
  }

  lemma PieceRest(r: seq<byte>, room: nat, p: Piece, us: seq<unit>)
    requires |r| <= room && r != [] && NextPermissive(r, room) == Go8(|p.bytes|, us)
    requires Permissive(r, room).err == Success
    ensures |us| <= |p.bytes| <= |r|
    ensures var o := Permissive(r[|p.bytes|..], room - |us|);
      o.err == Success && Permissive(r, room).units == us + o.units
  {
    PermissiveGoes(r, room, |p.bytes|, us);
    hide NextPermissive;
  }

  lemma {:induction false} Split(r: seq<byte>) returns (ps: seq<Piece>)
    ensures Splits(r, ps)
    decreases |r|
  {
    if r == [] {
      ps := [];
    } else {
      var n := Next8(r, |r| + 2);
      var p: Piece;
      if n.Go8? {
        RoundReadable(r, |r| + 2);
        p := Char(r[..n.used], n.units);
      } else {
        forall k, us | 0 <= k <= |r| ensures !Readable(r[..k], us) {
          if Readable(r[..k], us) {
            ReadableRound(r, |r| + 2, k, us);
          }
        }
        p := Broken(r[..1 + Trails(r[1..])]);
      }
      hide Readable, Trails, Next8;
      var rest := Split(r[|p.bytes|..]);
      ps := [p] + rest;
    }
  }

  /** The permissive conversion, where it comes to the end of the string: any string splits into characters and broken
      pieces, in one way as far as what is written goes, and each piece is written in its place, a broken one as
      U+FFFD. */
  lemma PermissivePieces(r: seq<byte>, room: nat)
    requires room >= |r| && !(room == |r| && CutLead(r))
    ensures exists ps :: Splits(r, ps)
    ensures forall ps :: Splits(r, ps) ==> Permissive(r, room).units == UnitsOf(ps)
  {
    PermissiveFull(r, room);
    var ps := Split(r);
    forall qs | Splits(r, qs) ensures Permissive(r, room).units == UnitsOf(qs) {
      PiecesConverted(r, room, qs);
    }
  }

  // ---------------------------------------------------------------- the loop

  lemma Onward(whole: Out16, r: nat, out: seq<unit>, rest: Out16, k: nat, more: seq<unit>, later: Out16)
    requires whole == Prepend(r, out, rest) && rest == Prepend(k, more, later)
    ensures whole == Prepend(r + k, out + more, later)
  {
    PrependTwice(r, out, k, more, later);
  }

  lemma Moved(r8: seq<byte>, r: nat, used: nat, t: seq<byte>)
    requires r + used < |r8| && t == r8[r..]
    ensures t[Resume(t, used)..] == r8[r + Resume(t, used)..]
    ensures r + Resume(t, used) == r + used + 1 + Trails(r8[r + used + 1..])
  {
    assert t[used + 1..] == r8[r + used + 1..];
  }

  /** The inner loop: past the trail bytes. */
  method SkipTrails(r8: seq<byte>, r0: nat) returns (r: nat)
    requires r0 <= |r8|
    ensures r == r0 + Trails(r8[r0..])
  {
    r := r0;
    while r < |r8| && IsTrail(r8[r])
      invariant r0 <= r <= |r8| && r0 + Trails(r8[r0..]) == r + Trails(r8[r..])
    {
      assert r8[r..][1..] == r8[r + 1..];
      r := r + 1;
    }
  }

  /** One turn of the loop of `create_u16buffer`: the strict conversion of what is unread and, unless that ends it, a
      replacement and the step past the byte and its trails. */
  method ConvertOn(str: seq<byte>, r0: nat, buffer: array<unit>, w0: nat, permissive: bool,
                   ghost t: seq<byte>, ghost room: nat)
    returns (err: Err, r: nat, w: nat, ghost o: Out16)
    requires w0 <= r0 <= |str| && buffer.Length == |str| + 1 && t == str[r0..] && room == |str| - w0
    modifies buffer
    ensures o == Conv8(t, room) && err == o.err && w <= r <= |str|
    ensures !permissive || IsFinal(err) ==> r == r0 + o.used && buffer[..w] == old(buffer[..w0]) + o.units
    ensures permissive && !IsFinal(err) ==> o.used < |t|
    ensures permissive && !IsFinal(err) ==> r == r0 + Resume(t, o.used) && t[Resume(t, o.used)..] == str[r..]
    ensures permissive && !IsFinal(err) ==> buffer[..w] == old(buffer[..w0]) + (o.units + [REPLACEMENT])
  {
    hide Conv8, Resume;
    o := Conv8(t, room);
    assert str[r0..|str|] == t;
    err, r, w := Uconv8to16(str, r0, |str|, buffer, w0, |str|);
    assert buffer[..w] == old(buffer[..w0]) + o.units;
    if permissive && err != BufferFull && err != Success {
      buffer[w] := REPLACEMENT;
      w := w + 1;
      Moved(str, r0, o.used, t);
      r := SkipTrails(str, r + 1);
      assert buffer[..w] == old(buffer[..w0]) + (o.units + [REPLACEMENT]);
    }
  }

  /** `create_u16buffer`: one unit for each byte and one for the terminating zero; permissively, the strict conversion
      again behind each replacement. */
  method CreateBuffer(str: seq<byte>, permissive: bool) returns (buffer: array<unit>, len16: nat, err: Err)
    ensures var o := if permissive then Permissive(str, |str|) else Conv8(str, |str|);
      && err == o.err && len16 == |o.units| && buffer.Length == |str| + 1
      && buffer[..len16] == o.units && buffer[len16] == 0
    ensures fresh(buffer)
  {
    hide Conv8, Permissive, Prepend, Resume;
    buffer := new unit[|str| + 1];
    var start8, start16 := 0, 0;
    ghost var whole := if permissive then Permissive(str, |str|) else Conv8(str, |str|);
    ghost var t, room, rest := str, |str|, whole;
    PrependNothing(whole);
    while true
      invariant buffer.Length == |str| + 1 && fresh(buffer)
      invariant 0 <= start16 <= start8 <= |str| && t == str[start8..] && room == |str| - start16
      invariant rest == if permissive then Permissive(t, room) else Conv8(t, room)
      invariant whole == Prepend(start8, buffer[..start16], rest)
      decreases |str| - start8
    {
      ghost var r, done := start8, buffer[..start16];
      ghost var o: Out16;
      StrictThenPermissive(t, room);
      err, start8, start16, o := ConvertOn(str, start8, buffer, start16, permissive, t, room);
      if !permissive || err == BufferFull || err == Success {
        PrependMeans(r, done, o);
        assert whole.units == buffer[..start16];
        break;
      }
      ghost var k, more := Resume(t, o.used), o.units + [REPLACEMENT];
      ghost var later := Permissive(t[k..], room - |o.units| - 1);
      Onward(whole, r, done, rest, k, more, later);
      t, room, rest := t[k..], room - |o.units| - 1, later;
    }
    buffer[start16] := 0;
    len16 := start16;
  }

  lemma PrependMeans(k: nat, us: seq<unit>, o: Out16)
    ensures var p := Prepend(k, us, o); p.err == o.err && p.units == us + o.units
  {
  }

  lemma PrependNothing(o: Out16)
    ensures Prepend(0, [], o) == o
  {
    assert [] + o.units == o.units;
  }

  // ---------------------------------------------------------------- the strings

  /** `ase_utf16_string::init`: throws, that is `ok` is false and the buffer is given back, unless the conversion came
      to the end of `str`. */
  method InitUtf16(str: seq<byte>, permissive: bool) returns (ok: bool, buffer: array<unit>, length: nat)
    ensures permissive ==> (ok <==> !CutLead(str))
    ensures !permissive ==> (ok <==> Conv8(str, |str|).err == Success)
    ensures !permissive ==> (ok && TwoByteTrails(str) <==> WellFormed8(str))
    ensures ok ==> length < buffer.Length
    ensures ok ==> buffer[..length] == (if permissive then Permissive(str, |str|) else Conv8(str, |str|)).units
    ensures ok && permissive ==> exists ps :: Splits(str, ps) && buffer[..length] == UnitsOf(ps)
    ensures ok ==> WellFormed16(buffer[..length]) && buffer[length] == 0
    ensures ok && WellFormed8(str) ==> buffer[..length] == Encode16(Scalars8(str))
  {
    var err;
    buffer, length, err := CreateBuffer(str, permissive);
    if permissive && err != BufferFull {
      err := Success;
    }
    ok := err == Success;
    if permissive {
      PermissiveFull(str, |str|);
      PermissiveWellFormed(str, |str|);
      if ok {
        PermissivePieces(str, |str|);
      }
    } else {
      AcceptsUtf8(str, |str|);
      Conv8WellFormed(str, |str|);
    }
    if WellFormed8(str) {
      PermissiveOnUtf8(str);
      EncodedSizes(Scalars8(str));
      Conv8OfEncode8(Scalars8(str), |str|);
    }
  }

  /** `ase_string::init_16`: three bytes for each unit and one for the terminating zero, cut down to what was used. */
  method InitUtf8(str: seq<unit>) returns (ok: bool, rep: array<byte>, len: nat)
    ensures ok <==> WellFormed16(str)
    ensures ok ==> rep.Length == len + 1 && rep[..len] == Encode8(Scalars16(str)) && rep[len] == 0
  {
    var buflen := 3 * |str|;
    rep := new byte[buflen + 1];
    assert str[0..|str|] == str;
    Conv16Exact(str, buflen);
    var err, pos;
    err, pos, len := Uconv16to8(str, 0, |str|, rep, 0, buflen);
    ghost var o := Conv16(str, buflen);
    assert rep[..len] == o.bytes;
    rep[len] := 0;
    ok := err == Success;
    if ok {
      rep := Resize(rep, len);
    }
  }

  /** `impl_resize`: the first `len` bytes and the zero behind them, in a buffer of their own. */
  method Resize(rep: array<byte>, len: nat) returns (cut: array<byte>)
    requires len < rep.Length
    ensures cut.Length == len + 1 && cut[..] == rep[..len + 1]
  {
    cut := new byte[len + 1];
    for i := 0 to len + 1
      invariant cut[..i] == rep[..i]
    {
      cut[i] := rep[i];
    }
    assert cut[..] == cut[..len + 1];
  }
}
