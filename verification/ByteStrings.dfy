/** Byte strings, fixed-width integers and the few sequence facts everything else leans on. */
module ByteStrings {

  type byte = x: int | 0 <= x < 256
  type Bytes = seq<byte>

  /** A 32-byte value as it appears on chain: an id, a key, a transaction id. */
  type Digest = s: seq<byte> | |s| == 32 witness seq(32, _ => 0)

  const TWO32: int := 0x1_0000_0000
  const TWO63: int := 0x8000_0000_0000_0000
  const TWO64: int := 0x1_0000_0000_0000_0000

  datatype Option<+T> = None | Some(value: T)

  datatype Result<+T, +E> = Ok(value: T) | Err(error: E)

  function Zeros(n: nat): (z: Bytes)
    ensures |z| == n && forall i :: 0 <= i < n ==> z[i] == 0
  {
    seq(n, _ => 0)
  }

  function Pow256(n: nat): (p: nat)
    ensures p > 0
  {
    if n == 0 then 1 else 256 * Pow256(n - 1)
  }

  /** `n` in `width` little-endian bytes, truncating what does not fit. */
  function LeBytes(n: nat, width: nat): (b: Bytes)
    ensures |b| == width
  {
    if width == 0 then [] else [n % 256] + LeBytes(n / 256, width - 1)
  }

  function LeValue(b: Bytes): nat {
    if b == [] then 0 else b[0] + 256 * LeValue(b[1..])
  }

  lemma {:induction false} LeBound(b: Bytes)
    ensures LeValue(b) < Pow256(|b|)
  {
    if b != [] {
      LeBound(b[1..]);
    }
  }

  lemma {:induction false} LeRoundTrip(n: nat, width: nat)
    requires n < Pow256(width)
    ensures LeValue(LeBytes(n, width)) == n
  {
    if width > 0 {
      LeRoundTrip(n / 256, width - 1);
      assert LeBytes(n, width)[1..] == LeBytes(n / 256, width - 1);
    }
  }

  lemma {:induction false} LeInverse(b: Bytes)
    ensures LeBytes(LeValue(b), |b|) == b
  {
    if b != [] {
      LeInverse(b[1..]);
      assert (b[0] + 256 * LeValue(b[1..])) / 256 == LeValue(b[1..]);
      assert b == [b[0]] + b[1..];
    }
  }

  /** Two numbers that fit the width and render alike are the same number. */
  lemma LeInjective(m: nat, n: nat, width: nat)
    requires m < Pow256(width) && n < Pow256(width)
    requires LeBytes(m, width) == LeBytes(n, width)
    ensures m == n
  {
    LeRoundTrip(m, width);
    LeRoundTrip(n, width);
  }

  lemma Pow256Values()
    ensures Pow256(1) == 256 && Pow256(2) == 0x1_0000 && Pow256(4) == TWO32
    ensures Pow256(8) == TWO64
    ensures Pow256(16) == 0x1_0000_0000_0000_0000_0000_0000_0000_0000
  {
    assert Pow256(3) == 256 * Pow256(2);
    assert Pow256(5) == 256 * Pow256(4);
    assert Pow256(6) == 256 * Pow256(5);
    assert Pow256(7) == 256 * Pow256(6);
    assert Pow256(9) == 256 * Pow256(8);
    assert Pow256(10) == 256 * Pow256(9);
    assert Pow256(11) == 256 * Pow256(10);
    assert Pow256(12) == 256 * Pow256(11);
    assert Pow256(13) == 256 * Pow256(12);
    assert Pow256(14) == 256 * Pow256(13);
    assert Pow256(15) == 256 * Pow256(14);
  }

  /** A byte string read as a big-endian number. */
  function BeValue(b: Bytes): (n: nat)
    ensures n < Pow256(|b|)
  {
    if b == [] then 0 else BeValue(b[..|b| - 1]) * 256 + b[|b| - 1]
  }

  lemma {:induction false} BeInjective(a: Bytes, b: Bytes)
    requires |a| == |b| && BeValue(a) == BeValue(b)
    ensures a == b
  {
    if a != [] {
      var m, n := a[..|a| - 1], b[..|b| - 1];
      assert BeValue(m) == BeValue(n) && a[|a| - 1] == b[|b| - 1];
      BeInjective(m, n);
      assert a == m + [a[|a| - 1]] && b == n + [b[|b| - 1]];
    }
  }

  /** Leading zero bytes do not change a big-endian value. */
  lemma {:induction false} BeLeadingZeros(k: nat, b: Bytes)
    ensures BeValue(Zeros(k) + b) == BeValue(b)
  {
    var z := Zeros(k) + b;
    if b == [] {
      if k > 0 {
        assert z[..|z| - 1] == Zeros(k - 1) + [];
        BeLeadingZeros(k - 1, []);
      }
    } else {
      assert z[..|z| - 1] == Zeros(k) + b[..|b| - 1];
      BeLeadingZeros(k, b[..|b| - 1]);
    }
  }

  lemma AppendEqual(a: Bytes, b: Bytes, c: Bytes, d: Bytes)
    requires a + b == c + d && |a| == |c|
    ensures a == c && b == d
  {
    assert a == (a + b)[..|a|] && c == (c + d)[..|c|];
    assert b == (a + b)[|a|..] && d == (c + d)[|c|..];
  }

  /** `n` in `width` big-endian bytes, left-padded with zeros. */
  function BeBytes(n: nat, width: nat): (b: Bytes)
    ensures |b| == width
  {
    if width == 0 then [] else BeBytes(n / 256, width - 1) + [n % 256]
  }

  lemma {:induction false} BeRoundTrip(n: nat, width: nat)
    requires n < Pow256(width)
    ensures BeValue(BeBytes(n, width)) == n
  {
    if width > 0 {
      BeRoundTrip(n / 256, width - 1);
      assert BeBytes(n, width)[..width - 1] == BeBytes(n / 256, width - 1);
    }
  }

  lemma {:induction false} Pow256Monotone(m: nat, n: nat)
    requires m <= n
    ensures Pow256(m) <= Pow256(n)
  {
    if m < n {
      Pow256Monotone(m, n - 1);
    }
  }

  /** A slice inside one of three concatenated parts is a slice of that part. */
  lemma SliceOfThree(a: Bytes, b: Bytes, c: Bytes, i: nat, j: nat)
    requires i <= j
    ensures j <= |a| ==> (a + b + c)[i..j] == a[i..j]
    ensures |a| <= i && j <= |a| + |b| ==> (a + b + c)[i..j] == b[i - |a|..j - |a|]
    ensures |a| + |b| <= i && j <= |a| + |b| + |c| ==> (a + b + c)[i..j] == c[i - |a| - |b|..j - |a| - |b|]
  {
  }
}
