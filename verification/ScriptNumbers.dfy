/** Script numbers: minimal sign-magnitude little-endian byte strings of at most eight bytes. */
module ScriptNumbers {
  import opened ByteStrings

  function Magnitude(n: nat): (m: Bytes)
    ensures m == [] <==> n == 0
    ensures m != [] ==> m[|m| - 1] != 0
    ensures LeValue(m) == n
  {
    if n == 0 then [] else
      var high := Magnitude(n / 256);
      var m := [n % 256] + high;
      assert m[1..] == high;
      m
  }

  function Abs(n: int): nat {
    if n < 0 then -n else n
  }

  /** Setting a magnitude's sign bit, in place or in an extra byte. */
  function Signed(m: Bytes, negative: bool): Bytes
    requires m != []
  {
    var last := m[|m| - 1];
    if last >= 128 then m + [if negative then 128 else 0]
    else m[..|m| - 1] + [last + if negative then 128 else 0]
  }

  function EncodeNum(n: int): Bytes {
    var m := Magnitude(Abs(n));
    if m == [] then [] else Signed(m, n < 0)
  }

  /** `None` for more than eight bytes or a non-minimal rendering. */
  function DecodeNum(b: Bytes): Option<int> {
    if |b| > 8 then None
    else if b == [] then Some(0)
    else
      var last := b[|b| - 1];
      if last % 128 == 0 && (|b| == 1 || b[|b| - 2] < 128) then None
      else
        var mag: int := LeValue(b[..|b| - 1] + [last % 128]);
        Some(if last >= 128 then -mag else mag)
  }

  lemma {:induction false} LeTrailingZero(m: Bytes)
    ensures LeValue(m + [0]) == LeValue(m)
  {
    if m != [] {
      LeTrailingZero(m[1..]);
      assert (m + [0])[1..] == m[1..] + [0];
    }
  }

  lemma {:induction false} MagnitudeOfValue(m: Bytes)
    requires m != [] ==> m[|m| - 1] != 0
    ensures Magnitude(LeValue(m)) == m
  {
    hide Magnitude;
    if m != [] {
      var rest := m[1..];
      MagnitudeOfValue(rest);
      assert m == [m[0]] + rest;
      assert rest == [] <==> LeValue(rest) == 0;
      LowByte(m[0], LeValue(rest));
    }
  }

  lemma LowByte(low: byte, high: nat)
    requires low != 0 || high != 0
    ensures Magnitude(low + 256 * high) == [low] + Magnitude(high)
  {
    hide LeValue;
    assert (low + 256 * high) % 256 == low && (low + 256 * high) / 256 == high;
  }

  lemma {:induction false} MagnitudeLength(n: nat, width: nat)
    ensures |Magnitude(n)| <= width <==> n < Pow256(width)
  {
    hide LeValue;
    if n > 0 && width > 0 {
      MagnitudeLength(n / 256, width - 1);
      DivideBound(n, Pow256(width - 1));
      assert |Magnitude(n)| == 1 + |Magnitude(n / 256)|;
    }
  }

  lemma DivideBound(n: nat, p: nat)
    ensures n / 256 < p <==> n < 256 * p
  {
  }

  lemma {:induction false} MagnitudeTop(n: nat, width: nat)
    requires width > 0 && 2 * n < Pow256(width)
    ensures |Magnitude(n)| <= width
    ensures |Magnitude(n)| == width ==> Magnitude(n)[width - 1] < 128
  {
    hide LeValue;
    MagnitudeLength(n, width);
    if n > 0 && width > 1 {
      assert 2 * (n / 256) < Pow256(width - 1);
      MagnitudeTop(n / 256, width - 1);
    }
  }

  /** Reading a rendering given with its low bytes. */
  lemma DecodeParts(b: Bytes, low: Bytes, m: Bytes)
    requires 0 < |b| <= 8 && low == b[..|b| - 1]
    requires b[|b| - 1] % 128 != 0 || (low != [] && low[|low| - 1] >= 128)
    requires m == low + [b[|b| - 1] % 128]
    ensures DecodeNum(b) == Some(if b[|b| - 1] >= 128 then -(LeValue(m) as int) else LeValue(m))
  {
  }

  /** Clearing the sign bit again gives the magnitude back: when it has a byte of its own, … */
  lemma DecodeWide(m: Bytes, negative: bool)
    requires m != [] && m[|m| - 1] >= 128 && |m| < 8
    ensures var b := m + [if negative then 128 else 0];
            DecodeNum(b) == Some(if negative then -(LeValue(m) as int) else LeValue(m))
  {
    hide DecodeNum, LeValue;
    var b := m + [if negative then 128 else 0];
    LeTrailingZero(m);
    assert b[..|b| - 1] == m;
    DecodeParts(b, m, m + [0]);
  }

  /** … and when it shares the last one. */
  lemma DecodeNarrow(m: Bytes, negative: bool)
    requires m != [] && 0 < m[|m| - 1] < 128 && |m| <= 8
    ensures var b := m[..|m| - 1] + [m[|m| - 1] + if negative then 128 else 0];
            DecodeNum(b) == Some(if negative then -(LeValue(m) as int) else LeValue(m))
  {
    hide DecodeNum, LeValue;
    var last := m[|m| - 1] + if negative then 128 else 0;
    var b := m[..|m| - 1] + [last];
    assert b[..|b| - 1] == m[..|m| - 1] && b[|b| - 1] == last && last % 128 == m[|m| - 1];
    DecodeParts(b, m[..|m| - 1], m);
  }

  lemma DecodeSigned(m: Bytes, negative: bool)
    requires m != [] && m[|m| - 1] != 0
    requires |m| <= 8 && (|m| == 8 ==> m[7] < 128)
    ensures |Signed(m, negative)| <= 8
    ensures DecodeNum(Signed(m, negative)) == Some(if negative then -(LeValue(m) as int) else LeValue(m))
  {
    hide DecodeNum, LeValue;
    if m[|m| - 1] >= 128 {
      DecodeWide(m, negative);
    } else {
      DecodeNarrow(m, negative);
    }
  }

  /** Every number a script can push reads back as itself. */
  lemma NumRoundTrip(n: int)
    requires -TWO63 < n < TWO63
    ensures DecodeNum(EncodeNum(n)) == Some(n)
    ensures |EncodeNum(n)| <= 8
  {
    var m := Magnitude(Abs(n));
    Pow256Values();
    MagnitudeTop(Abs(n), 8);
    if m != [] {
      DecodeSigned(m, n < 0);
    }
  }

  lemma EncodeSigned(m: Bytes, negative: bool, n: int)
    requires m != [] && m[|m| - 1] != 0
    requires Abs(n) == LeValue(m) && (n < 0 ==> negative) && (n > 0 ==> !negative)
    ensures EncodeNum(n) == Signed(m, negative)
  {
    MagnitudeOfValue(m);
    assert Magnitude(Abs(n)) == m;
  }

  lemma DecodeUniqueShort(b: Bytes)
    requires b != [] && b[|b| - 1] % 128 != 0
    requires DecodeNum(b).Some?
    ensures b == EncodeNum(DecodeNum(b).value)
  {
    hide EncodeNum, LeValue;
    var low, last := b[..|b| - 1], b[|b| - 1];
    var m := low + [last % 128];
    EncodeSigned(m, last >= 128, DecodeNum(b).value);
    assert m[..|m| - 1] == low;
    assert b == low + [last];
  }

  lemma DecodeUniqueLong(b: Bytes)
    requires b != [] && b[|b| - 1] % 128 == 0
    requires DecodeNum(b).Some?
    ensures b == EncodeNum(DecodeNum(b).value)
  {
    var low, last := b[..|b| - 1], b[|b| - 1];
    LeTrailingZero(low);
    EncodeSigned(low, last >= 128, DecodeNum(b).value);
    assert b == low + [last];
  }

  /** A number has one accepted rendering. */
  lemma DecodeUnique(b: Bytes)
    requires DecodeNum(b).Some?
    ensures b == EncodeNum(DecodeNum(b).value)
  {
    if b != [] {
      if b[|b| - 1] % 128 == 0 {
        DecodeUniqueLong(b);
      } else {
        DecodeUniqueShort(b);
      }
    }
  }

  /** The cast `as i64` of an unsigned 64-bit amount. */
  function AsI64(n: nat): (i: int)
    ensures n < TWO63 ==> i == n
    ensures n < TWO64 ==> -TWO63 <= i < TWO63 && (i == n || i == n - TWO64)
  {
    if n < TWO63 then n else n - TWO64
  }
}
