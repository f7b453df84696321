/** Kernel error numbers returned (negated) by the drivers. */
module Errno {
  const EIO := 5
  const ENOMEM := 12
  const ENODEV := 19
  const EINVAL := 22
  const ERANGE := 34
}

/** Fixed-width integers and big-endian byte order, as the kernel's
    put_unaligned_be16/32 and get_unaligned_be32 helpers use them. */
module BigEndian {
  type Byte = x: int | 0 <= x < 0x100
  type U16 = x: int | 0 <= x < 0x1_0000
  type U32 = x: int | 0 <= x < 0x1_0000_0000

  function Pow256(n: nat): (p: nat)
    ensures p >= 1
  {
    if n == 0 then 1 else 256 * Pow256(n - 1)
  }

  function Zeros(n: nat): seq<Byte>
  {
    seq(n, _ => 0)
  }

  /** The low `n` bytes of `v`, most significant first. */
  function ToBe(v: nat, n: nat): (s: seq<Byte>)
    ensures |s| == n
  {
    if n == 0 then [] else ToBe(v / 256, n - 1) + [v % 256]
  }

  /** The number whose big-endian representation is `s`. */
  function FromBe(s: seq<Byte>): (v: nat)
    ensures v < Pow256(|s|)
  {
    if s == [] then 0 else FromBe(s[..|s| - 1]) * 256 + s[|s| - 1]
  }

  lemma MulMonotone(d: int, k: int)
    requires d > 0 && k >= 1
    ensures d * k >= d
  {
    if k > 1 {
      MulMonotone(d, k - 1);
      assert d * k == d * (k - 1) + d;
    }
  }

  lemma DivModUnique(v: int, d: int, q: int, m: int)
    requires d > 0 && 0 <= m < d && v == d * q + m
    ensures v / d == q && v % d == m
  {
    var q', m' := v / d, v % d;
    assert v == d * q' + m' && 0 <= m' < d;
    if q' < q {
      assert d * q - d * q' == d * (q - q');
      MulMonotone(d, q - q');
    } else if q' > q {
      assert d * q' - d * q == d * (q' - q);
      MulMonotone(d, q' - q);
    }
  }

  /** Splitting off the lowest byte commutes with reducing modulo 256 * p. */
  lemma ModSplit(v: nat, p: nat)
    requires p >= 1
    ensures ((v / 256) % p) * 256 + v % 256 == v % (256 * p)
  {
    var q, r := v / 256, v % 256;
    var a, b := q / p, q % p;
    assert q == p * a + b;
    assert v == (256 * p) * a + (256 * b + r) by {
      assert v == 256 * q + r;
      assert 256 * q == 256 * (p * a) + 256 * b;
    }
    DivModUnique(v, 256 * p, a, 256 * b + r);
  }

  /** Decoding the low `n` bytes of `v` gives `v` reduced to `n` bytes. */
  lemma {:induction false} DecodeEncode(v: nat, n: nat)
    ensures FromBe(ToBe(v, n)) == v % Pow256(n)
  {
    if n > 0 {
      var s := ToBe(v, n);
      assert s[..n - 1] == ToBe(v / 256, n - 1);
      DecodeEncode(v / 256, n - 1);
      ModSplit(v, Pow256(n - 1));
    }
  }

  /** Encoding a decoded sequence at its own width gives the sequence back. */
  lemma {:induction false} EncodeDecode(s: seq<Byte>)
    ensures ToBe(FromBe(s), |s|) == s
  {
    if s != [] {
      var init, last := s[..|s| - 1], s[|s| - 1];
      DivModUnique(FromBe(s), 256, FromBe(init), last);
      EncodeDecode(init);
      assert s == init + [last];
    }
  }

  /** Only the low `n` bytes of `v` determine its `n`-byte encoding. */
  lemma EncodeMod(v: nat, n: nat)
    ensures ToBe(v % Pow256(n), n) == ToBe(v, n)
  {
    DecodeEncode(v, n);
    EncodeDecode(ToBe(v, n));
  }

  /** Multiplying by 256^m appends `m` zero bytes to the encoding. */
  lemma {:induction false} EncodeShifted(v: nat, n: nat, m: nat)
    ensures ToBe(v * Pow256(m), n + m) == ToBe(v, n) + Zeros(m)
  {
    if m > 0 {
      var w := v * Pow256(m - 1);
      assert v * Pow256(m) == 256 * w;
      calc {
        ToBe(256 * w, n + m);
        ToBe(w, n + m - 1) + [0];
        { EncodeShifted(v, n, m - 1); }
        ToBe(v, n) + Zeros(m - 1) + [0];
        { assert Zeros(m - 1) + [0] == Zeros(m); }
        ToBe(v, n) + Zeros(m);
      }
    }
  }

  /** Leading zero bytes do not change the decoded value. */
  lemma {:induction false} ZeroPadded(m: nat, s: seq<Byte>)
    ensures FromBe(Zeros(m) + s) == FromBe(s)
  {
    if s == [] {
      assert Zeros(m) + s == Zeros(m);
      if m > 0 {
        assert Zeros(m)[..m - 1] == Zeros(m - 1);
        ZeroPadded(m - 1, []);
        assert Zeros(m - 1) + [] == Zeros(m - 1);
      }
    } else {
      var t := Zeros(m) + s;
      assert t[..|t| - 1] == Zeros(m) + s[..|s| - 1];
      ZeroPadded(m, s[..|s| - 1]);
    }
  }
}
