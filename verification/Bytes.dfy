/** Bytes, their order, and integers as the machine lays them out (little-endian, two's complement). */
module Bytes {
  type byte = x: int | 0 <= x < 256
  type int32 = x: int | -0x8000_0000 <= x < 0x8000_0000
  type int64 = x: int | -0x8000_0000_0000_0000 <= x < 0x8000_0000_0000_0000

  // ---------------------------------------------------------------- unsigned

  /** The unsigned value of little-endian bytes. */
  function UValue(b: seq<byte>): nat {
    if b == [] then 0 else b[0] + 256 * UValue(b[1..])
  }

  /** The significant bytes of a size. */
  function UBytes(v: nat): seq<byte> {
    if v == 0 then [] else [v % 256] + UBytes(v / 256)
  }

  function Pow256(n: nat): (p: nat)
    ensures p >= 1
  {
    if n == 0 then 1 else 256 * Pow256(n - 1)
  }

  lemma {:induction false} UBytesValue(v: nat)
    ensures UValue(UBytes(v)) == v
  {
    if v != 0 {
      UBytesValue(v / 256);
      assert UBytes(v)[1..] == UBytes(v / 256);
    }
  }

  lemma {:induction false} UBytesLength(v: nat, n: nat)
    ensures |UBytes(v)| <= n <==> v < Pow256(n)
  {
    if v != 0 && n != 0 {
      UBytesLength(v / 256, n - 1);
    }
  }

  lemma {:induction false} UValueBound(b: seq<byte>)
    ensures UValue(b) < Pow256(|b|)
  {
    if b != [] {
      UValueBound(b[1..]);
    }
  }

  // ---------------------------------------------------------------- signed

  /** The signed value of little-endian two's complement bytes. */
  function SValue(b: seq<byte>): int {
    if b == [] then 0
    else if |b| == 1 then (if b[0] < 128 then b[0] else b[0] - 256)
    else b[0] + 256 * SValue(b[1..])
  }

  /** `v` in memory, in `width` bytes. */
  function Memory(v: int, width: nat): (b: seq<byte>)
    ensures |b| == width
    decreases width
  {
    if width == 0 then [] else [v % 256] + Memory(v / 256, width - 1)
  }

  /** The shortest two's complement form of `v`. */
  function SBytes(v: int): seq<byte>
    decreases if v < 0 then -v else v
  {
    if -128 <= v < 128 then [v % 256] else [v % 256] + SBytes(v / 256)
  }

  function Half(n: nat): nat
    requires n > 0
  {
    if n == 1 then 128 else 256 * Half(n - 1)
  }

  /** `v` fits in `n` bytes with its sign. */
  predicate Fits(v: int, n: nat)
    requires n > 0
  {
    -(Half(n) as int) <= v < Half(n)
  }

  lemma {:induction false} SBytesValue(v: int)
    ensures SValue(SBytes(v)) == v && |SBytes(v)| >= 1
    decreases if v < 0 then -v else v
  {
    if !(-128 <= v < 128) {
      SBytesValue(v / 256);
      assert SBytes(v)[1..] == SBytes(v / 256);
    }
  }

  /** The shortest form is the shortest: its length is the least that holds the value. */
  lemma {:induction false} SBytesLength(v: int, n: nat)
    requires n > 0
    ensures |SBytes(v)| <= n <==> Fits(v, n)
    decreases n
  {
    SBytesValue(v);
    if !(-128 <= v < 128) {
      SBytesValue(v / 256);
      if n > 1 {
        SBytesLength(v / 256, n - 1);
      }
    } else if n > 1 {
      HalfGrows(n);
    }
  }

  lemma {:induction false} HalfGrows(n: nat)
    requires n > 0
    ensures Half(n) >= 128
  {
    if n > 1 {
      HalfGrows(n - 1);
    }
  }

  lemma {:induction false} SValueFits(b: seq<byte>)
    requires b != []
    ensures Fits(SValue(b), |b|)
  {
    if |b| > 1 {
      SValueFits(b[1..]);
    }
  }

  /** Where the sign needs the last byte kept. */
  predicate Droppable(last: byte, previous: byte) {
    (last == 0xff && previous >= 128) || (last == 0 && previous < 128)
  }

  /** The last of `n` bytes can go exactly when the value fits in fewer. */
  lemma {:induction false} DroppableFits(v: int, n: nat)
    requires n >= 2 && Fits(v, n)
    ensures Droppable(Memory(v, n)[n - 1], Memory(v, n)[n - 2]) <==> Fits(v, n - 1)
    decreases n
  {
    if n == 2 {
      assert Memory(v, 2) == [v % 256, v / 256 % 256] by {
        assert Memory(v / 256, 1) == [v / 256 % 256] + Memory(v / 256 / 256, 0);
      }
    } else {
      DroppableFits(v / 256, n - 1);
      assert Memory(v, n)[n - 1] == Memory(v / 256, n - 1)[n - 2];
      assert Memory(v, n)[n - 2] == Memory(v / 256, n - 1)[n - 3];
    }
  }

  /** The shortest form is a prefix of the value in memory. */
  lemma {:induction false} MemoryPrefix(v: int, n: nat)
    requires n > 0 && Fits(v, n)
    ensures |SBytes(v)| <= n && Memory(v, n)[..|SBytes(v)|] == SBytes(v)
    decreases n
  {
    SBytesLength(v, n);
    if !(-128 <= v < 128) {
      MemoryPrefix(v / 256, n - 1);
      assert Memory(v, n)[1..] == Memory(v / 256, n - 1);
    }
  }

  function SignFill(b: seq<byte>): byte
    requires b != []
  {
    if b[|b| - 1] >= 128 then 0xff else 0
  }

  /** Filling up with the sign, as the decoder does in the target variable, keeps the value. */
  lemma {:induction false} SignExtend(b: seq<byte>, n: nat)
    requires b != []
    ensures SValue(b + seq(n, i => SignFill(b))) == SValue(b)
    decreases |b|, n
  {
    var fill := seq(n, i => SignFill(b));
    if n == 0 {
      assert b + fill == b;
    } else if |b| == 1 {
      var c := [SignFill(b)];
      SignExtendOne(b[0], n);
      assert (b + fill)[1..] == seq(n, i => SignFill(b));
    } else {
      SignExtend(b[1..], n);
      assert (b + fill)[1..] == b[1..] + fill;
    }
  }

  lemma {:induction false} SignExtendOne(x: byte, n: nat)
    requires n > 0
    ensures SValue(seq(n, i => if x >= 128 then 0xff else 0)) == if x >= 128 then -1 else 0
  {
    var fill: seq<byte> := seq(n, i => if x >= 128 then 0xff else 0);
    if n > 1 {
      SignExtendOne(x, n - 1);
      assert fill[1..] == seq(n - 1, i => if x >= 128 then 0xff else 0);
    }
  }

  // ---------------------------------------------------------------- order

  /** `operator <` of ase_string: bytewise, a proper prefix first. */
  predicate Less(a: seq<byte>, b: seq<byte>) {
    b != [] && (a == [] || a[0] < b[0] || (a[0] == b[0] && Less(a[1..], b[1..])))
  }

  lemma {:induction false} LessTrans(a: seq<byte>, b: seq<byte>, c: seq<byte>)
    requires Less(a, b) && Less(b, c)
    ensures Less(a, c)
  {
    if a != [] && a[0] == b[0] && b[0] == c[0] {
      LessTrans(a[1..], b[1..], c[1..]);
    }
  }

  lemma {:induction false} LessIrreflexive(a: seq<byte>)
    ensures !Less(a, a)
  {
    if a != [] {
      LessIrreflexive(a[1..]);
    }
  }

  lemma {:induction false} LessTotal(a: seq<byte>, b: seq<byte>)
    ensures Less(a, b) || Less(b, a) || a == b
  {
    if a != [] && b != [] && a[0] == b[0] {
      LessTotal(a[1..], b[1..]);
      assert a == [a[0]] + a[1..] && b == [b[0]] + b[1..];
    }
  }

  /** The strings differ at `k` first, and the byte of `a` is less. */
  ghost predicate LessAt(a: seq<byte>, b: seq<byte>, k: nat) {
    k < |a| && k < |b| && a[..k] == b[..k] && a[k] < b[k]
  }

  /** The order by the first byte that differs; what has none comes before what it is a prefix of. */
  lemma {:induction false} LessIs(a: seq<byte>, b: seq<byte>)
    ensures Less(a, b) <==> (a < b || exists k: nat :: LessAt(a, b, k))
  {
    if a != [] && b != [] {
      if a[0] == b[0] {
        LessIs(a[1..], b[1..]);
        LessCons(a, b);
      } else {
        assert LessAt(a, b, 0) <==> a[0] < b[0];
        assert forall k :: 0 < k < |a| && k < |b| ==> a[..k][0] != b[..k][0];
      }
    }
  }

  lemma LessCons(a: seq<byte>, b: seq<byte>)
    requires a != [] && b != [] && a[0] == b[0]
    ensures a < b <==> a[1..] < b[1..]
    ensures (exists k: nat :: LessAt(a, b, k)) <==> (exists k: nat :: LessAt(a[1..], b[1..], k))
  {
    var x, y := a[1..], b[1..];
    assert a == [a[0]] + x && b == [b[0]] + y;
    forall k: nat | LessAt(a, b, k) ensures k > 0 && LessAt(x, y, k - 1) {
      assert x[..k - 1] == a[..k][1..] && y[..k - 1] == b[..k][1..];
    }
    forall k: nat | LessAt(x, y, k) ensures LessAt(a, b, k + 1) {
      assert a[..k + 1] == [a[0]] + x[..k] && b[..k + 1] == [b[0]] + y[..k];
    }
    if k: nat :| LessAt(a, b, k) {
      assert LessAt(x, y, k - 1);
    }
    if k: nat :| LessAt(x, y, k) {
      assert LessAt(a, b, k + 1);
    }
  }
}
