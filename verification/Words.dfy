/** Machine words: u32/u64 arithmetic, big-endian encodings and the bits of a 64-bit word. */
module Words {
  type Byte = x: int | 0 <= x < 256
  type Bytes = seq<Byte>

  const U32_MAX: nat := 0xFFFF_FFFF
  const U64_MAX: nat := 0xFFFF_FFFF_FFFF_FFFF
  type U32 = x: int | 0 <= x <= U32_MAX
  type U64 = x: int | 0 <= x <= U64_MAX

  /** `saturating_add` on u32. */
  function SatAdd32(x: U32, y: U32): (r: U32)
    ensures x <= r && (r == x + y || (r == U32_MAX && x + y > U32_MAX))
  {
    if x + y > U32_MAX then U32_MAX else x + y
  }

  /** `saturating_add` on u64. */
  function SatAdd64(x: U64, y: U64): (r: U64)
    ensures x <= r && (r == x + y || (r == U64_MAX && x + y > U64_MAX))
  {
    if x + y > U64_MAX then U64_MAX else x + y
  }

  // ---- big-endian encodings ----

  function Pow256(n: nat): (p: nat)
    ensures p > 0
  {
    if n == 0 then 1 else 256 * Pow256(n - 1)
  }

  /** `to_be_bytes` at a width of `len` bytes. */
  function ToBE(x: nat, len: nat): (b: Bytes)
    ensures |b| == len
  {
    if len == 0 then [] else ToBE(x / 256, len - 1) + [x % 256]
  }

  /** `from_be_bytes`. */
  function FromBE(b: Bytes): nat {
    if b == [] then 0 else 256 * FromBE(b[..|b| - 1]) + b[|b| - 1]
  }

  lemma {:induction false} BERoundTrip(x: nat, len: nat)
    requires x < Pow256(len)
    ensures FromBE(ToBE(x, len)) == x
  {
    if len > 0 {
      BERoundTrip(x / 256, len - 1);
      assert ToBE(x, len)[..len - 1] == ToBE(x / 256, len - 1);
    }
  }

  lemma {:induction false} FromBEBound(b: Bytes)
    ensures FromBE(b) < Pow256(|b|)
  {
    if b != [] {
      FromBEBound(b[..|b| - 1]);
    }
  }

  lemma Pow256Widths()
    ensures Pow256(4) == U32_MAX + 1 && Pow256(8) == U64_MAX + 1
  {
    assert Pow256(2) == 65536;
    assert Pow256(4) == 65536 * 65536;
    assert Pow256(6) == 65536 * Pow256(4);
    assert Pow256(8) == 65536 * Pow256(6);
  }

  // ---- bits of a 64-bit word ----

  function Pow2(n: nat): (p: nat)
    ensures p > 0
  {
    if n == 0 then 1 else 2 * Pow2(n - 1)
  }

  lemma {:induction false} Pow2Add(a: nat, b: nat)
    ensures Pow2(a + b) == Pow2(a) * Pow2(b)
  {
    if b > 0 {
      Pow2Add(a, b - 1);
      assert Pow2(a) * (2 * Pow2(b - 1)) == 2 * (Pow2(a) * Pow2(b - 1));
    }
  }

  lemma Pow2Of64()
    ensures Pow2(64) == U64_MAX + 1
  {
    assert Pow2(4) == 16;
    Pow2Add(4, 4);
    Pow2Add(8, 8);
    Pow2Add(16, 16);
    Pow2Add(32, 32);
  }

  /** `(w >> d) & 1 == 1`. */
  predicate Bit(w: nat, d: nat) {
    if d == 0 then w % 2 == 1 else Bit(w / 2, d - 1)
  }

  /** `w << s` on u64: what is shifted past bit 63 is lost. */
  function Shl(w: U64, s: nat): U64
    decreases s
  {
    if s == 0 then w else Shl((2 * w) % (U64_MAX + 1), s - 1)
  }

  /** `w | (1 << d)`. */
  function WithBit(w: nat, d: nat): nat {
    if d == 0 then w - w % 2 + 1 else w % 2 + 2 * WithBit(w / 2, d - 1)
  }

  lemma {:induction false} WithBitFits(w: nat, d: nat, width: nat)
    requires d < width && w < Pow2(width)
    ensures WithBit(w, d) < Pow2(width)
  {
    if d > 0 {
      WithBitFits(w / 2, d - 1, width - 1);
    }
  }

  lemma {:induction false} BitOfWithBit(w: nat, d: nat, e: nat)
    ensures Bit(WithBit(w, d), e) == (e == d || Bit(w, e))
  {
    if d > 0 && e > 0 {
      BitOfWithBit(w / 2, d - 1, e - 1);
    }
  }

  lemma HalfOfMod(w: nat, m: nat)
    requires m > 0
    ensures (w % (2 * m)) / 2 == (w / 2) % m && (w % (2 * m)) % 2 == w % 2
  {
    var h, b := w / 2, w % 2;
    var q, r := h / m, h % m;
    assert h == m * q + r;
    assert w == (2 * m) * q + (2 * r + b);
    ModUnique(w, 2 * m, q, 2 * r + b);
  }

  lemma ModUnique(n: int, m: nat, q: int, r: nat)
    requires r < m && n == m * q + r
    ensures n / m == q && n % m == r
  {
    var q1, r1 := n / m, n % m;
    assert m * (q - q1) == r1 - r;
    MulAtLeast(m, q - q1);
  }

  /** A nonzero multiple of `m` is at least `m` away from 0. */
  lemma MulAtLeast(m: int, k: int)
    requires m >= 0
    ensures k >= 1 ==> m * k >= m
    ensures k <= -1 ==> m * k <= -m
  {
    if k >= 1 {
      assert m * k == m * (k - 1) + m;
    } else if k <= -1 {
      assert m * k == -(m * (-k - 1)) - m;
    }
  }

  lemma {:induction false} BitOfMod(w: nat, n: nat, e: nat)
    requires e < n
    ensures Bit(w % Pow2(n), e) == Bit(w, e)
  {
    HalfOfMod(w, Pow2(n - 1));
    if e > 0 {
      BitOfMod(w / 2, n - 1, e - 1);
    }
  }

  lemma {:induction false} BitOfShl(w: U64, s: nat, e: nat)
    requires e < 64
    ensures Bit(Shl(w, s), e) == (s <= e && Bit(w, e - s))
    decreases s
  {
    if s > 0 {
      var w1 := (2 * w) % (U64_MAX + 1);
      Pow2Of64();
      BitOfShl(w1, s - 1, e);
      if s <= e + 1 {
        BitOfMod(2 * w, 64, e - (s - 1));
        assert (2 * w) / 2 == w;
      }
    }
  }

  lemma {:induction false} BitOfZero(e: nat)
    ensures !Bit(0, e)
  {
    if e > 0 {
      BitOfZero(e - 1);
    }
  }
}
