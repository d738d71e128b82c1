/**
 * The streaming linear resampler of audio.rs, on exact rationals: the phase is scaled by `dst`, so a
 * step is `src` and the threshold is `dst`.
 */
module Resampling {
  import opened Words

  /** `a / b`, rounded up. */
  function CeilDiv(a: nat, b: nat): nat
    requires b > 0
  {
    (a + b - 1) / b
  }

  lemma CeilDivIs(a: nat, b: nat, c: nat)
    requires b > 0
    ensures c == CeilDiv(a, b) <==> a <= c * b < a + b
  {
    var q := (a + b - 1) / b;
    var r := (a + b - 1) % b;
    assert a + b - 1 == b * q + r;
    assert b * q == q * b;
    if a <= c * b < a + b {
      ModUnique(a + b - 1, b, c, a + b - 1 - c * b);
    }
  }

  /** `c` reaches `a` exactly if it is at least the rounded-up quotient. */
  lemma CeilDivLeast(a: nat, b: nat, c: nat)
    requires b > 0
    ensures c >= CeilDiv(a, b) <==> c * b >= a
  {
    var q := CeilDiv(a, b);
    CeilDivIs(a, b, q);
    if c >= q {
      MulMono(q, c, b);
    } else {
      MulMono(c + 1, q, b);
      assert (c + 1) * b == c * b + b;
    }
  }

  lemma MulMono(x: nat, y: nat, b: nat)
    requires x <= y
    ensures x * b <= y * b
  {
    assert y * b == x * b + (y - x) * b;
  }

  /** How many outputs exist after `n` inputs. */
  function Count(n: nat, src: nat, dst: nat): nat
    requires src > 0
  {
    if n == 0 then 0 else CeilDiv((n - 1) * dst, src)
  }

  /** Output `k` lies at input position `k * src / dst`, between two inputs. */
  predicate Reached(n: nat, k: nat, src: nat, dst: nat) {
    n > 0 && k * src < (n - 1) * dst
  }

  lemma ReachedIff(n: nat, k: nat, src: nat, dst: nat)
    requires src > 0
    ensures k < Count(n, src, dst) <==> Reached(n, k, src, dst)
  {
    if n > 0 {
      CeilDivLeast((n - 1) * dst, src, k);
    }
  }

  lemma PositionInside(n: nat, k: nat, src: nat, dst: nat)
    requires dst > 0 && Reached(n, k, src, dst)
    ensures (k * src) / dst + 1 < n
  {
    var i := (k * src) / dst;
    assert k * src == dst * i + (k * src) % dst;
    assert dst * i == i * dst;
    if i >= n - 1 {
      MulMono(n - 1, i, dst);
    }
  }

  /** The weight of the later neighbour. */
  function Fraction(rest: nat, dst: nat): (f: real)
    requires rest < dst
    ensures 0.0 <= f < 1.0
  {
    rest as real / dst as real
  }

  /** A point on the line from `x` to `y`. */
  function Between(x: real, y: real, f: real): real {
    x + (y - x) * f
  }

  lemma BetweenIsBetween(x: real, y: real, f: real)
    requires 0.0 <= f <= 1.0
    ensures x <= Between(x, y, f) <= y || y <= Between(x, y, f) <= x
  {
    var d := y - x;
    assert d * f + d * (1.0 - f) == d;
    if d >= 0.0 {
      NotNegative(d, f);
      NotNegative(d, 1.0 - f);
    } else {
      NotNegative(-d, f);
      NotNegative(-d, 1.0 - f);
      assert (-d) * f == -(d * f) && (-d) * (1.0 - f) == -(d * (1.0 - f));
    }
  }

  lemma NotNegative(x: real, y: real)
    requires x >= 0.0 && y >= 0.0
    ensures x * y >= 0.0
  {
  }

  /** The linear interpolation of the input at position `k * src / dst`. */
  function Interpolated(input: seq<real>, k: nat, src: nat, dst: nat): real
    requires dst > 0 && Reached(|input|, k, src, dst)
  {
    PositionInside(|input|, k, src, dst);
    var p := k * src;
    Between(input[p / dst], input[p / dst + 1], Fraction(p % dst, dst))
  }

  /** The whole output for the whole input. */
  function Resampled(input: seq<real>, src: nat, dst: nat): (out: seq<real>)
    requires src > 0 && dst > 0
    ensures |out| == Count(|input|, src, dst)
  {
    seq(Count(|input|, src, dst), k requires 0 <= k < Count(|input|, src, dst) =>
      ReachedIff(|input|, k, src, dst);
      Interpolated(input, k, src, dst))
  }

  lemma ResampledAt(input: seq<real>, k: nat, src: nat, dst: nat)
    requires src > 0 && dst > 0 && Reached(|input|, k, src, dst)
    ensures k < |Resampled(input, src, dst)| && Resampled(input, src, dst)[k] == Interpolated(input, k, src, dst)
  {
    ReachedIff(|input|, k, src, dst);
  }

  lemma SameOutput(a: seq<real>, b: seq<real>, k: nat, src: nat, dst: nat)
    requires src > 0 && dst > 0 && Reached(|a|, k, src, dst)
    ensures Reached(|a + b|, k, src, dst) && Interpolated(a + b, k, src, dst) == Interpolated(a, k, src, dst)
  {
    MulMono(|a| - 1, |a + b| - 1, dst);
    PositionInside(|a|, k, src, dst);
  }

  /** More input never changes an output that exists already. */
  lemma ResampledPrefix(a: seq<real>, b: seq<real>, src: nat, dst: nat)
    requires src > 0 && dst > 0
    ensures Resampled(a, src, dst) <= Resampled(a + b, src, dst)
  {
    var ra, rb := Resampled(a, src, dst), Resampled(a + b, src, dst);
    forall k | 0 <= k < |ra| ensures k < |rb| && rb[k] == ra[k] {
      ReachedIff(|a|, k, src, dst);
      SameOutput(a, b, k, src, dst);
      ResampledAt(a, k, src, dst);
      ResampledAt(a + b, k, src, dst);
    }
    CountMonotone(|a|, |a + b|, src, dst);
    assert ra == rb[..|ra|];
  }

  lemma CountMonotone(n: nat, m: nat, src: nat, dst: nat)
    requires src > 0 && n <= m
    ensures Count(n, src, dst) <= Count(m, src, dst)
  {
    var k := Count(n, src, dst);
    if k > 0 {
      ReachedIff(n, k - 1, src, dst);
      MulMono(n - 1, m - 1, dst);
      ReachedIff(m, k - 1, src, dst);
    }
  }

  /** Each output lies between the two inputs around it. */
  lemma OutputBetweenNeighbours(input: seq<real>, k: nat, src: nat, dst: nat)
    requires src > 0 && dst > 0 && k < |Resampled(input, src, dst)|
    ensures var i := (k * src) / dst;
            var v := Resampled(input, src, dst)[k];
            i + 1 < |input| && (input[i] <= v <= input[i + 1] || input[i + 1] <= v <= input[i])
  {
    ReachedIff(|input|, k, src, dst);
    PositionInside(|input|, k, src, dst);
    ResampledAt(input, k, src, dst);
    var p := k * src;
    BetweenIsBetween(input[p / dst], input[p / dst + 1], Fraction(p % dst, dst));
  }

  /** The point of the line through `c` with slope `d`. */
  function OnLine(c: real, d: real, x: real): real {
    c + d * x
  }

  lemma BetweenOnLine(c: real, d: real, x: real, f: real)
    ensures Between(OnLine(c, d, x), OnLine(c, d, x + 1.0), f) == OnLine(c, d, x + f)
  {
    Distributes(d, x, 1.0);
    Distributes(d, x, f);
    assert OnLine(c, d, x + 1.0) - OnLine(c, d, x) == d;
  }

  lemma Distributes(d: real, x: real, y: real)
    ensures d * (x + y) == d * x + d * y
  {}

  /** Whole part and fraction make up the position. */
  lemma PositionSplits(p: nat, dst: nat)
    requires dst > 0
    ensures (p / dst) as real + Fraction(p % dst, dst) == p as real / dst as real
  {
    var q, r := p / dst, p % dst;
    assert p == dst * q + r;
    QuotientSplits(q as real, r as real, dst as real);
    assert p as real == dst as real * q as real + r as real;
  }

  lemma QuotientSplits(q: real, r: real, d: real)
    requires d > 0.0
    ensures (d * q + r) / d == q + r / d
  {
    assert (q + r / d) * d == d * q + r;
  }

  /**
   * A straight line comes out as the same straight line, output `k` taken at input position `k * src / dst`:
   * neighbours are weighted by nearness and nothing is shifted.
   */
  lemma LinesStayLines(input: seq<real>, c: real, d: real, k: nat, src: nat, dst: nat)
    requires src > 0 && dst > 0 && k < |Resampled(input, src, dst)|
    requires forall i :: 0 <= i < |input| ==> input[i] == OnLine(c, d, i as real)
    ensures Resampled(input, src, dst)[k] == OnLine(c, d, (k * src) as real / dst as real)
  {
    ReachedIff(|input|, k, src, dst);
    PositionInside(|input|, k, src, dst);
    ResampledAt(input, k, src, dst);
    var p := k * src;
    BetweenOnLine(c, d, (p / dst) as real, Fraction(p % dst, dst));
    assert (p / dst + 1) as real == (p / dst) as real + 1.0;
    PositionSplits(p, dst);
  }

  lemma CountAtOneRate(n: nat, rate: nat)
    requires rate > 0
    ensures Count(n, rate, rate) == if n == 0 then 0 else n - 1
  {
    if n > 0 {
      CeilDivIs((n - 1) * rate, rate, n - 1);
    }
  }

  /** At equal rates the stream comes out as it went in, the last sample still held. */
  lemma EqualRatesPassThrough(input: seq<real>, rate: nat)
    requires rate > 0
    ensures Resampled(input, rate, rate) == if input == [] then [] else input[..|input| - 1]
  {
    CountAtOneRate(|input|, rate);
    var out := Resampled(input, rate, rate);
    forall k | 0 <= k < |out| ensures out[k] == input[k] {
      ReachedIff(|input|, k, rate, rate);
      PositionInside(|input|, k, rate, rate);
      ResampledAt(input, k, rate, rate);
      MultipleOf(k, rate);
      AtStart(input[k], input[k + 1], rate);
    }
  }

  lemma MultipleOf(k: nat, m: nat)
    requires m > 0
    ensures (k * m) / m == k && (k * m) % m == 0
  {
    ModUnique(k * m, m, k, 0);
  }

  lemma AtStart(x: real, y: real, dst: nat)
    requires dst > 0
    ensures Between(x, y, Fraction(0, dst)) == x
  {}

  /** What a stream that has seen `past` emits for `chunk`. */
  function Emitted(past: seq<real>, chunk: seq<real>, src: nat, dst: nat): seq<real>
    requires src > 0 && dst > 0
  {
    ResampledPrefix(past, chunk, src, dst);
    Resampled(past + chunk, src, dst)[Count(|past|, src, dst)..]
  }

  function Flatten<T>(chunks: seq<seq<T>>): seq<T> {
    if chunks == [] then [] else chunks[0] + Flatten(chunks[1..])
  }

  function EmittedInTurn(past: seq<real>, chunks: seq<seq<real>>, src: nat, dst: nat): seq<real>
    requires src > 0 && dst > 0
    decreases |chunks|
  {
    if chunks == [] then []
    else Emitted(past, chunks[0], src, dst) + EmittedInTurn(past + chunks[0], chunks[1..], src, dst)
  }

  /** How the input is cut into chunks is unobservable. */
  lemma {:induction false} ChunkingIsUnobservable(past: seq<real>, chunks: seq<seq<real>>, src: nat, dst: nat)
    requires src > 0 && dst > 0
    ensures EmittedInTurn(past, chunks, src, dst) == Emitted(past, Flatten(chunks), src, dst)
    decreases |chunks|
  {
    if chunks == [] {
      assert past + Flatten(chunks) == past;
    } else {
      var c, rest := chunks[0], Flatten(chunks[1..]);
      ChunkingIsUnobservable(past + c, chunks[1..], src, dst);
      assert past + c + rest == past + Flatten(chunks);
      ResampledPrefix(past, c, src, dst);
      ResampledPrefix(past + c, rest, src, dst);
    }
  }

  class Resampler {
    const src: nat
    const dst: nat
    var t: nat
    var prev: real
    var havePrev: bool
    ghost var past: seq<real>

    ghost predicate Valid()
      reads this
    {
      && src > 0 && dst > 0
      && (havePrev <==> past != [])
      && (havePrev ==>
            && prev == past[|past| - 1]
            && Count(|past|, src, dst) * src == (|past| - 1) * dst + t)
      && (!havePrev ==> t == 0)
    }

    constructor (src: nat, dst: nat)
      requires src > 0 && dst > 0
      ensures Valid() && past == [] && this.src == src && this.dst == dst
    {
      this.src, this.dst := src, dst;
      t, prev, havePrev := 0, 0.0, false;
      past := [];
    }

    /** Appends to `out` exactly the outputs that exist for the input so far and did not before. */
    method Process(input: seq<real>, out: seq<real>) returns (grown: seq<real>)
      requires Valid()
      modifies this
      ensures Valid() && past == old(past) + input
      ensures grown == out + Emitted(old(past), input, src, dst)
    {
      grown := out;
      assert old(past) + [] == past;
      for i := 0 to |input|
        invariant Valid() && past == old(past) + input[..i]
        invariant grown == out + Emitted(old(past), input[..i], src, dst)
      {
        var cur := input[i];
        ghost var before := past;
        var step := Advance(cur);
        grown := grown + step;
        assert input[..i + 1] == input[..i] + [cur];
        assert old(past) + input[..i + 1] == before + [cur];
        ResampledPrefix(old(past), input[..i], src, dst);
        ResampledPrefix(before, [cur], src, dst);
      }
      assert input[..|input|] == input;
    }

    /** One input sample: the outputs between the previous sample and this one. */
    method Advance(cur: real) returns (emitted: seq<real>)
      requires Valid()
      modifies this
      ensures Valid() && past == old(past) + [cur]
      ensures emitted == Emitted(old(past), [cur], src, dst)
    {
      ghost var now := past + [cur];
      ResampledPrefix(past, [cur], src, dst);
      if !havePrev {
        CeilDivIs(0, src, 0);
        prev, havePrev := cur, true;
        past := now;
        return [];
      }
      emitted := Interpolate(cur);
      prev := cur;
      past := now;
    }

    /** The sample at the current phase is output `k`. */
    method Blend(cur: real, ghost k: nat) returns (v: real)
      requires src > 0 && dst > 0 && past != [] && prev == past[|past| - 1]
      requires t < dst && k * src == (|past| - 1) * dst + t
      ensures k < |Resampled(past + [cur], src, dst)| && v == Resampled(past + [cur], src, dst)[k]
    {
      OneOutput(past + [cur], k, t, src, dst);
      v := prev + (cur - prev) * (t as real / dst as real);
    }

    /** The inner loop: emit while the phase is below the threshold, then take the threshold off. */
    method Interpolate(cur: real) returns (emitted: seq<real>)
      requires Valid() && havePrev
      modifies this`t
      ensures Count(|past|, src, dst) <= Count(|past| + 1, src, dst)
      ensures emitted == Resampled(past + [cur], src, dst)[Count(|past|, src, dst)..]
      ensures Count(|past| + 1, src, dst) * src == |past| * dst + t
    {
      ghost var n, r := |past|, Resampled(past + [cur], src, dst);
      ghost var first := Count(n, src, dst);
      ghost var k, base := first, (n - 1) * dst;
      CountMonotone(n, n + 1, src, dst);
      emitted := [];
      while t < dst
        invariant first <= k <= |r|
        invariant k * src == base + t
        invariant emitted == r[first..k]
        decreases dst - t
      {
        var v := Blend(cur, k);
        emitted := emitted + [v];
        assert r[first..k + 1] == r[first..k] + [r[k]];
        SucTimes(k, src);
        t := t + src;
        k := k + 1;
      }
      AllOutputs(n, k, t, src, dst);
      SucTimes(n - 1, dst);
      t := t - dst;
    }
  }

  lemma SucTimes(k: nat, m: nat)
    ensures (k + 1) * m == k * m + m
  {}

  /** While the phase is below the threshold, the next output's position is that far past input `n - 1`. */
  lemma NextPosition(n: nat, k: nat, t: nat, src: nat, dst: nat)
    requires src > 0 && dst > 0 && n > 0 && k * src == (n - 1) * dst + t && t < dst
    ensures Reached(n + 1, k, src, dst) && (k * src) / dst == n - 1 && (k * src) % dst == t
  {
    assert n * dst == (n - 1) * dst + dst;
    assert dst * (n - 1) == (n - 1) * dst;
    ModUnique(k * src, dst, n - 1, t);
  }

  lemma OneOutput(now: seq<real>, k: nat, t: nat, src: nat, dst: nat)
    requires src > 0 && dst > 0 && |now| >= 2 && k * src == (|now| - 2) * dst + t && t < dst
    ensures k < |Resampled(now, src, dst)|
    ensures Resampled(now, src, dst)[k]
            == now[|now| - 2] + (now[|now| - 1] - now[|now| - 2]) * (t as real / dst as real)
  {
    NextPosition(|now| - 1, k, t, src, dst);
    ResampledAt(now, k, src, dst);
  }

  /** Once it is not, every output there is has been emitted. */
  lemma AllOutputs(n: nat, k: nat, t: nat, src: nat, dst: nat)
    requires src > 0 && n > 0 && k * src == (n - 1) * dst + t && t >= dst
    ensures k >= Count(n + 1, src, dst)
  {
    assert n * dst == (n - 1) * dst + dst;
    ReachedIff(n + 1, k, src, dst);
  }
}
