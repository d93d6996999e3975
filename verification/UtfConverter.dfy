/** The converters as loops that move a read and a write position and store into the output buffer. */
module UtfConverter {
  import opened Bytes
  import opened Utf

  /** `w` after `out` was written from `at` on. */
  ghost function Written<T>(w: seq<T>, at: nat, out: seq<T>): seq<T>
    requires at + |out| <= |w|
  {
    w[..at] + out + w[at + |out|..]
  }

  lemma WrittenTwice<T>(w: seq<T>, at: nat, first: seq<T>, more: seq<T>)
    requires at + |first| + |more| <= |w|
    ensures Written(Written(w, at, first), at + |first|, more) == Written(w, at, first + more)
  {
  }

  // ---------------------------------------------------------------- UTF-8 to UTF-16

  /** The conversion of `r8[r0..end]` into the room up to `wend`, of which `done` is what `r8[r0..r]` gave. */
  ghost predicate Rest8(r8: seq<byte>, r0: nat, r: nat, end: nat, w0: nat, w: nat, wend: nat, done: seq<unit>)
    requires r0 <= r <= end <= |r8|
  {
    && w == w0 + |done| <= wend
    && var o := Conv8(r8[r..end], wend - w);
      Conv8(r8[r0..end], wend - w0) == Out16(o.err, r - r0 + o.used, done + o.units)
  }

  lemma Rest8Next(r8: seq<byte>, r0: nat, r: nat, end: nat, w0: nat, w: nat, wend: nat, done: seq<unit>)
    requires r0 <= r < end <= |r8| && Rest8(r8, r0, r, end, w0, w, wend, done)
    ensures match Next8(r8[r..end], wend - w)
      case Stop8(e) => Conv8(r8[r0..end], wend - w0) == Out16(e, r - r0, done)
      case Go8(k, us) => r + k <= end && Rest8(r8, r0, r + k, end, w0, w + |us|, wend, done + us)
  {
    hide Next8;
    var n := Next8(r8[r..end], wend - w);
    if n.Go8? {
      var r', w' := r + n.used, w + |n.units|;
      assert r8[r..end][n.used..] == r8[r'..end];
      var o := Conv8(r8[r'..end], wend - w');
      assert done + (n.units + o.units) == (done + n.units) + o.units;
    } else {
      assert done + [] == done;
    }
  }

  /** The body of the loop of `pmc_uconv_8to16`; `err` other than `Success` is its `break`. */
  method Round8to16(r8: seq<byte>, r0: nat, r8end: nat, w16: array<unit>, w0: nat, w16end: nat)
    returns (err: Err, r: nat, w: nat)
    requires r0 < r8end <= |r8| && w0 <= w16end <= w16.Length
    modifies w16
    ensures match Next8(r8[r0..r8end], w16end - w0)
      case Stop8(e) => err == e && r == r0 && w == w0 && w16[..] == old(w16[..])
      case Go8(k, us) => err == Success && r == r0 + k && w == w0 + |us| && w16[..] == Written(old(w16[..]), w0, us)
  {
    err, r, w := Success, r0, w0;
    var c: int := r8[r];
    if w >= w16end {
      err := BufferFull;
    } else if c < 0x80 {
      w16[w] := c;
      r, w := r + 1, w + 1;
    } else if 0xc0 <= c < 0xe0 {
      if r + 1 >= r8end {
        err := Incomplete;
        return;
      }
      var u := Join2(r8[r], r8[r + 1]);
      if u < 128 {
        err := Range;
        return;
      }
      w16[w] := u;
      r, w := r + 2, w + 1;
    } else if 0xe0 <= c < 0xf0 {
      if r + 2 >= r8end {
        err := Incomplete;
        return;
      }
      if !IsTrail(r8[r + 1]) || !IsTrail(r8[r + 2]) {
        err := Malformed;
        return;
      }
      var u := Join3(r8[r], r8[r + 1], r8[r + 2]);
      if u < 2048 || (u >= 0xd800 && u < 0xe000) {
        err := Range;
        return;
      }
      w16[w] := u;
      r, w := r + 3, w + 1;
    } else if 0xf0 <= c < 0xf8 {
      if w + 1 >= w16end {
        err := BufferFull;
        return;
      }
      if r + 3 >= r8end {
        err := Incomplete;
        return;
      }
      if !IsTrail(r8[r + 1]) || !IsTrail(r8[r + 2]) || !IsTrail(r8[r + 3]) {
        err := Malformed;
        return;
      }
      var u := Join4(r8[r], r8[r + 1], r8[r + 2], r8[r + 3]);
      if u < 0x1_0000 || u > 0x10_ffff {
        err := Range;
        return;
      }
      u := u - 0x1_0000;
      w16[w] := u / 1024 + 0xd800;
      w16[w + 1] := u % 1024 + 0xdc00;
      r, w := r + 4, w + 2;
    } else {
      err := Malformed;
    }
  }

  /** `pmc_uconv_8to16`: converts `r8[r0..r8end]` into `w16[w0..w16end]`; returns where it stopped in both. */
  method Uconv8to16(r8: seq<byte>, r0: nat, r8end: nat, w16: array<unit>, w0: nat, w16end: nat)
    returns (err: Err, r: nat, w: nat)
    requires r0 <= r8end <= |r8| && w0 <= w16end <= w16.Length
    modifies w16
    ensures var o := Conv8(r8[r0..r8end], w16end - w0);
      err == o.err && r == r0 + o.used && w == w0 + |o.units| && w16[..] == Written(old(w16[..]), w0, o.units)
  {
    hide Next8;
    err, r, w := Success, r0, w0;
    ghost var done: seq<unit> := [];
    while r < r8end
      invariant err == Success && r0 <= r <= r8end
      invariant Rest8(r8, r0, r, r8end, w0, w, w16end, done)
      invariant w16[..] == Written(old(w16[..]), w0, done)
    {
      ghost var n := Next8(r8[r..r8end], w16end - w);
      Rest8Next(r8, r0, r, r8end, w0, w, w16end, done);
      err, r, w := Round8to16(r8, r, r8end, w16, w, w16end);
      if err != Success {
        return;
      }
      WrittenTwice(old(w16[..]), w0, done, n.units);
      done := done + n.units;
    }
    assert r8[r..r8end] == [] && done + [] == done;
  }

  // ---------------------------------------------------------------- UTF-16 to UTF-8

  /** The conversion of `r16[r0..end]` into the room up to `wend`, of which `done` is what `r16[r0..r]` gave. */
  ghost predicate Rest16(r16: seq<unit>, r0: nat, r: nat, end: nat, w0: nat, w: nat, wend: nat, done: seq<byte>)
    requires r0 <= r <= end <= |r16|
  {
    && w == w0 + |done| <= wend
    && var o := Conv16(r16[r..end], wend - w);
      Conv16(r16[r0..end], wend - w0) == Out8(o.err, r - r0 + o.used, done + o.bytes)
  }

  lemma Rest16Next(r16: seq<unit>, r0: nat, r: nat, end: nat, w0: nat, w: nat, wend: nat, done: seq<byte>)
    requires r0 <= r < end <= |r16| && Rest16(r16, r0, r, end, w0, w, wend, done)
    ensures match Next16(r16[r..end], wend - w)
      case Stop16(e) => Conv16(r16[r0..end], wend - w0) == Out8(e, r - r0, done)
      case Go16(k, us) => r + k <= end && Rest16(r16, r0, r + k, end, w0, w + |us|, wend, done + us)
  {
    hide Next16;
    var n := Next16(r16[r..end], wend - w);
    if n.Go16? {
      var r', w' := r + n.used, w + |n.bytes|;
      assert r16[r..end][n.used..] == r16[r'..end];
      var o := Conv16(r16[r'..end], wend - w');
      assert done + (n.bytes + o.bytes) == (done + n.bytes) + o.bytes;
    } else {
      assert done + [] == done;
    }
  }

  /** The body of the loop of `pmc_uconv_16to8`. */
  method Round16to8(r16: seq<unit>, r0: nat, r16end: nat, w8: array<byte>, w0: nat, w8end: nat)
    returns (err: Err, r: nat, w: nat)
    requires r0 < r16end <= |r16| && w0 <= w8end <= w8.Length
    modifies w8
    ensures match Next16(r16[r0..r16end], w8end - w0)
      case Stop16(e) => err == e && r == r0 && w == w0 && w8[..] == old(w8[..])
      case Go16(k, bs) => err == Success && r == r0 + k && w == w0 + |bs| && w8[..] == Written(old(w8[..]), w0, bs)
  {
    err, r, w := Success, r0, w0;
    var c: int := r16[r];
    if w >= w8end {
      err := BufferFull;
    } else if c < 0x80 {
      w8[w] := c;
      r, w := r + 1, w + 1;
    } else if c < 0x800 {
      if w + 1 >= w8end {
        err := BufferFull;
        return;
      }
      w8[w] := 0xc0 + c / 64 % 32;
      w8[w + 1] := 0x80 + c % 64;
      r, w := r + 1, w + 2;
    } else if c >= 0xd800 && c < 0xdc00 {
      if w + 3 >= w8end {
        err := BufferFull;
        return;
      }
      if r + 1 >= r16end {
        err := Incomplete;
        return;
      }
      var c2: int := r16[r + 1];
      if c2 < 0xdc00 || c2 >= 0xe000 {
        err := Malformed;
        return;
      }
      var u := JoinPair(c, c2);
      w8[w] := 0xf0 + u / 262144 % 8;
      w8[w + 1] := 0x80 + u / 4096 % 64;
      w8[w + 2] := 0x80 + u / 64 % 64;
      w8[w + 3] := 0x80 + u % 64;
      r, w := r + 2, w + 4;
    } else if c >= 0xdc00 && c < 0xe000 {
      err := Malformed;
    } else {
      if w + 2 >= w8end {
        err := BufferFull;
        return;
      }
      w8[w] := 0xe0 + c / 4096 % 16;
      w8[w + 1] := 0x80 + c / 64 % 64;
      w8[w + 2] := 0x80 + c % 64;
      r, w := r + 1, w + 3;
    }
  }

  /** `pmc_uconv_16to8`: converts `r16[r0..r16end]` into `w8[w0..w8end]`; returns where it stopped in both. */
  method Uconv16to8(r16: seq<unit>, r0: nat, r16end: nat, w8: array<byte>, w0: nat, w8end: nat)
    returns (err: Err, r: nat, w: nat)
    requires r0 <= r16end <= |r16| && w0 <= w8end <= w8.Length
    modifies w8
    ensures var o := Conv16(r16[r0..r16end], w8end - w0);
      err == o.err && r == r0 + o.used && w == w0 + |o.bytes| && w8[..] == Written(old(w8[..]), w0, o.bytes)
  {
    hide Next16;
    err, r, w := Success, r0, w0;
    ghost var done: seq<byte> := [];
    while r < r16end
      invariant err == Success && r0 <= r <= r16end
      invariant Rest16(r16, r0, r, r16end, w0, w, w8end, done)
      invariant w8[..] == Written(old(w8[..]), w0, done)
    {
      ghost var n := Next16(r16[r..r16end], w8end - w);
      Rest16Next(r16, r0, r, r16end, w0, w, w8end, done);
      err, r, w := Round16to8(r16, r, r16end, w8, w, w8end);
      if err != Success {
        return;
      }
      WrittenTwice(old(w8[..]), w0, done, n.bytes);
      done := done + n.bytes;
    }
    assert r16[r..r16end] == [] && done + [] == done;
  }
}
