/** The re-blocking stages of `encode_loop` and the refill loop of `mixer_loop` in audio.rs. */
module AudioPipeline {
  import opened Words
  import opened Resampling

  const OPUS_SR: nat := 48000
  const FRAME: nat := 960
  const NS: nat := 480

  /** Noise suppression of one block, after everything before it: any length-preserving function. */
  type Denoiser = f: (seq<real>, seq<real>) -> seq<real> | forall h, b :: |f(h, b)| == |b| witness (h, b) => b

  /** The first `m` blocks of `r`, denoised in order. */
  function Denoised(den: Denoiser, r: seq<real>, m: nat): (d: seq<real>)
    requires NS * m <= |r|
    ensures |d| == NS * m
  {
    if m == 0 then []
    else Denoised(den, r, m - 1) + den(r[..NS * (m - 1)], r[NS * (m - 1)..NS * m])
  }

  /** Each block is denoised once, in its place, knowing all that came before it. */
  lemma {:induction false} BlocksKnowTheirPast(den: Denoiser, r: seq<real>, m: nat, i: nat)
    requires NS * m <= |r| && i < m
    ensures Denoised(den, r, m)[NS * i..NS * (i + 1)] == den(r[..NS * i], r[NS * i..NS * (i + 1)])
  {
    if i < m - 1 {
      BlocksKnowTheirPast(den, r, m - 1, i);
      assert Denoised(den, r, m)[NS * i..NS * (i + 1)] == Denoised(den, r, m - 1)[NS * i..NS * (i + 1)];
    }
  }

  lemma {:induction false} DenoisedPrefix(den: Denoiser, r: seq<real>, s: seq<real>, m: nat)
    requires NS * m <= |r| && r <= s
    ensures Denoised(den, s, m) == Denoised(den, r, m)
  {
    if m > 0 {
      DenoisedPrefix(den, r, s, m - 1);
      assert s[..NS * (m - 1)] == r[..NS * (m - 1)];
      assert s[NS * (m - 1)..NS * m] == r[NS * (m - 1)..NS * m];
    }
  }

  lemma {:induction false} DenoisedGrows(den: Denoiser, r: seq<real>, m: nat, n: nat)
    requires m <= n && NS * n <= |r|
    ensures Denoised(den, r, m) <= Denoised(den, r, n)
  {
    if m < n {
      DenoisedGrows(den, r, m, n - 1);
    }
  }

  function Blocks(r: seq<real>): nat {
    |r| / NS
  }

  /** Everything denoised once `r` has been resampled. */
  function Clean(den: Denoiser, r: seq<real>): (d: seq<real>)
    ensures |d| == NS * Blocks(r)
  {
    Denoised(den, r, Blocks(r))
  }

  /** `d` cut into whole frames. */
  function Frames(d: seq<real>): (fs: seq<seq<real>>)
    ensures |fs| == |d| / FRAME
    ensures forall i :: 0 <= i < |fs| ==> |fs[i]| == FRAME
  {
    seq(|d| / FRAME, i requires 0 <= i < |d| / FRAME => d[FRAME * i..FRAME * (i + 1)])
  }

  lemma CleanGrows(den: Denoiser, r: seq<real>, s: seq<real>)
    requires r <= s
    ensures Clean(den, r) <= Clean(den, s)
  {
    DenoisedPrefix(den, r, s, Blocks(r));
    DenoisedGrows(den, s, Blocks(r), Blocks(s));
  }

  lemma {:induction false} FlattenFrames(d: seq<real>)
    ensures Flatten(Frames(d)) + d[FRAME * (|d| / FRAME)..] == d
  {
    if |d| >= FRAME {
      var rest := d[FRAME..];
      FlattenFrames(rest);
      var fs := Frames(d);
      assert fs[0] == d[..FRAME];
      assert fs[1..] == Frames(rest) by {
        forall i | 0 <= i < |fs| - 1 ensures fs[i + 1] == Frames(rest)[i] {
          assert fs[i + 1] == d[FRAME * (i + 1)..FRAME * (i + 2)];
        }
      }
      assert d == d[..FRAME] + rest;
      assert d[FRAME * (|d| / FRAME)..] == rest[FRAME * (|rest| / FRAME)..];
    } else {
      assert d[0..] == d;
    }
  }

  lemma FramesGrow(d: seq<real>, e: seq<real>)
    requires d <= e
    ensures Frames(d) <= Frames(e)
  {
    forall i | 0 <= i < |Frames(d)| ensures Frames(e)[i] == Frames(d)[i] {
      assert FRAME * (i + 1) <= |d|;
    }
  }

  /** The encode thread's buffers, at one capture rate. `frames` is what it has cut so far. */
  class EncodePipeline {
    const den: Denoiser
    const up: Resampler
    var buf48: seq<real>
    var fed: seq<real> // all the suppressor has been given: its internal state
    var clean: seq<real>
    var frames: seq<seq<real>>

    ghost function Raw(): seq<real>
      requires up.Valid()
      reads this, up
    {
      Resampled(up.past, up.src, up.dst)
    }

    /** Every buffer is a function of the captured samples alone. */
    ghost predicate Valid()
      reads this, up
    {
      && up.Valid() && up.dst == OPUS_SR
      && fed == Raw()[..NS * Blocks(Raw())]
      && buf48 == Raw()[NS * Blocks(Raw())..]
      && frames == Frames(Clean(den, Raw()))
      && clean == Clean(den, Raw())[FRAME * |frames|..]
    }

    constructor (den: Denoiser, rate: nat)
      requires rate > 0
      ensures Valid() && fresh(up) && up.past == [] && up.src == rate && this.den == den
    {
      this.den := den;
      var r := new Resampler(rate, OPUS_SR);
      up := r;
      buf48, fed, clean, frames := [], [], [], [];
    }

    /** One drained capture chunk through the resample, denoise and framing loops. */
    method Feed(chunk: seq<real>)
      requires Valid()
      modifies this, up
      ensures Valid() && up.past == old(up.past) + chunk
      ensures old(frames) <= frames
    {
      ghost var raw0 := Raw();
      buf48 := up.Process(chunk, buf48);
      ghost var raw := Raw();
      ResampledPrefix(old(up.past), chunk, up.src, up.dst);
      assert buf48 == raw[NS * Blocks(raw0)..];
      assert fed == raw[..NS * Blocks(raw0)];
      Drain(raw0, raw);
    }

    /** Both loops, once the resampled stream has grown from `raw0` to `raw`. */
    method Drain(ghost raw0: seq<real>, ghost raw: seq<real>)
      requires raw0 <= raw && buf48 == raw[NS * Blocks(raw0)..] && fed == raw[..NS * Blocks(raw0)]
      requires frames == Frames(Clean(den, raw0)) && clean == Clean(den, raw0)[FRAME * |frames|..]
      modifies this`buf48, this`clean, this`fed, this`frames
      ensures buf48 == raw[NS * Blocks(raw)..] && fed == raw[..NS * Blocks(raw)]
      ensures frames == Frames(Clean(den, raw)) && clean == Clean(den, raw)[FRAME * |frames|..]
      ensures old(frames) <= frames
    {
      ghost var d0, d := Clean(den, raw0), Clean(den, raw);
      Denoise(raw, Blocks(raw0));
      CleanGrows(den, raw0, raw);
      DenoisedPrefix(den, raw0, raw, Blocks(raw0));
      assert clean == d[FRAME * |frames|..];
      FramesGrow(d0, d);
      Cut(d);
    }

    method Denoise(ghost raw: seq<real>, ghost m0: nat)
      requires NS * m0 <= |raw| && buf48 == raw[NS * m0..] && fed == raw[..NS * m0]
      modifies this`buf48, this`clean, this`fed
      ensures m0 <= Blocks(raw) && buf48 == raw[NS * Blocks(raw)..] && fed == raw[..NS * Blocks(raw)]
      ensures Denoised(den, raw, m0) <= Clean(den, raw)
      ensures clean == old(clean) + Clean(den, raw)[NS * m0..]
    {
      ghost var m := m0;
      while |buf48| >= NS
        invariant m0 <= m && NS * m <= |raw| && buf48 == raw[NS * m..] && fed == raw[..NS * m]
        invariant Denoised(den, raw, m0) <= Denoised(den, raw, m)
        invariant clean == old(clean) + Denoised(den, raw, m)[NS * m0..]
      {
        var block := buf48[..NS];
        assert block == raw[NS * m..NS * (m + 1)];
        buf48 := buf48[NS..];
        clean := clean + den(fed, block);
        assert raw[..NS * m] + block == raw[..NS * (m + 1)];
        fed := fed + block;
        m := m + 1;
      }
      assert m == Blocks(raw);
    }

    method Cut(ghost d: seq<real>)
      requires FRAME * |frames| <= |d| && clean == d[FRAME * |frames|..] && frames == Frames(d)[..|frames|]
      modifies this`clean, this`frames
      ensures frames == Frames(d) && clean == d[FRAME * |frames|..]
    {
      while |clean| >= FRAME
        invariant FRAME * |frames| <= |d| && clean == d[FRAME * |frames|..]
        invariant |frames| <= |Frames(d)| && frames == Frames(d)[..|frames|]
        decreases |clean|
      {
        assert clean[..FRAME] == Frames(d)[|frames|];
        frames := frames + [clean[..FRAME]];
        clean := clean[FRAME..];
      }
    }
  }

  /**
   * The block law: after `n` captured samples at `rate`, however chunked, the encode loops have cut
   * exactly floor(ceil((n - 1) * 48000 / rate) / 960) frames, hold fewer than 480 resampled and 960
   * denoised samples back, and the frames followed by what is held back are the denoised stream.
   */
  lemma BlockLaw(p: EncodePipeline)
    requires p.Valid()
    ensures |p.frames| == Count(|p.up.past|, p.up.src, OPUS_SR) / FRAME
    ensures |p.buf48| < NS && |p.clean| < FRAME
    ensures Flatten(p.frames) + p.clean == Denoised(p.den, p.Raw(), Blocks(p.Raw()))
    ensures p.fed + p.buf48 == p.Raw()
    ensures forall f :: f in p.frames ==> |f| == FRAME
  {
    var raw := p.Raw();
    FlattenFrames(Clean(p.den, raw));
    WholeFrames(|raw|);
    assert raw[..NS * Blocks(raw)] + raw[NS * Blocks(raw)..] == raw;
  }

  /** Two blocks make a frame, so cutting blocks first loses no frame. */
  lemma WholeFrames(n: nat)
    ensures NS * (n / NS) / FRAME == n / FRAME && n - NS * (n / NS) < NS
    ensures NS * (n / NS) - FRAME * (n / FRAME) < FRAME
  {
    var q, r := n / FRAME, n % FRAME;
    assert n == FRAME * q + r;
    if r < NS {
      ModUnique(n, NS, 2 * q, r);
      ModUnique(FRAME * q, FRAME, q, 0);
    } else {
      ModUnique(n, NS, 2 * q + 1, r - NS);
      ModUnique(FRAME * q + NS, FRAME, q, NS);
    }
  }

  lemma {:induction false} DenoisedIdentity(den: Denoiser, r: seq<real>, m: nat)
    requires NS * m <= |r| && forall h, b :: den(h, b) == b
    ensures Denoised(den, r, m) == r[..NS * m]
  {
    if m > 0 {
      DenoisedIdentity(den, r, m - 1);
      assert r[..NS * m] == r[..NS * (m - 1)] + r[NS * (m - 1)..NS * m];
    }
  }

  /** With the suppressor switched to identity nothing is lost, duplicated or reordered on the way. */
  lemma NoSampleLost(p: EncodePipeline)
    requires p.Valid() && forall h, b :: p.den(h, b) == b
    ensures Flatten(p.frames) + p.clean + p.buf48 == Resampled(p.up.past, p.up.src, p.up.dst)
  {
    var raw := p.Raw();
    BlockLaw(p);
    DenoisedIdentity(p.den, raw, Blocks(raw));
    WholeFrames(|raw|);
    assert Denoised(p.den, raw, Blocks(raw)) == p.fed;
  }

  // ---- playback ----

  /** The next mixed 20 ms block, by number. */
  type Mix = f: nat -> seq<real> | forall i :: |f(i)| == FRAME witness i => seq(FRAME, _ => 0.0)

  function Target(rate: nat): nat {
    rate * 60 / 1000
  }

  function Cap(rate: nat): nat {
    rate / 2
  }

  /** A refill adds at most this many samples per block. */
  function PerBlock(rate: nat): nat {
    CeilDiv(rate, 50)
  }

  lemma MulSum(x: nat, y: nat, b: nat)
    ensures (x + y) * b == x * b + y * b
  {}

  lemma BlockGrowth(b: nat, rate: nat)
    requires rate > 0
    ensures Count(FRAME * b, OPUS_SR, rate) <= Count(FRAME * (b + 1), OPUS_SR, rate)
    ensures Count(FRAME * (b + 1), OPUS_SR, rate) <= Count(FRAME * b, OPUS_SR, rate) + PerBlock(rate)
  {
    var n := FRAME * b;
    var c, p := Count(n, OPUS_SR, rate), PerBlock(rate);
    CountMonotone(n, n + FRAME, OPUS_SR, rate);
    CeilDivIs(rate, 50, p);
    assert p * OPUS_SR >= FRAME * rate;
    if n > 0 {
      CeilDivLeast((n - 1) * rate, OPUS_SR, c);
      MulSum(n - 1, FRAME, rate);
      MulSum(c, p, OPUS_SR);
      CeilDivLeast((n + FRAME - 1) * rate, OPUS_SR, c + p);
    } else {
      assert (FRAME - 1) * rate <= FRAME * rate;
      CeilDivLeast((FRAME - 1) * rate, OPUS_SR, p);
    }
  }

  /** Enough blocks yield any number of samples. */
  lemma EnoughBlocks(b: nat, rate: nat, want: nat)
    requires rate > 0 && b >= 50 * want + 1
    ensures Count(FRAME * b, OPUS_SR, rate) >= want
  {
    var n := FRAME * b;
    var c := Count(n, OPUS_SR, rate);
    CeilDivLeast((n - 1) * rate, OPUS_SR, c);
    assert (n - 1) * rate >= n - 1 by {
      MulMono(1, rate, n - 1);
      assert rate * (n - 1) == (n - 1) * rate;
    }
  }

  /** The first `n` blocks of the mix, end to end. */
  function MixedSoFar(mix: Mix, n: nat): (d: seq<real>)
    ensures |d| == FRAME * n
  {
    if n == 0 then [] else MixedSoFar(mix, n - 1) + mix(n - 1)
  }

  class Mixer {
    const mix: Mix
    const down: Resampler
    var blocks: nat
    var play: seq<real>

    ghost predicate Valid()
      reads this, down
    {
      down.Valid() && down.src == OPUS_SR && down.past == MixedSoFar(mix, blocks)
    }

    constructor (mix: Mix, rate: nat)
      requires rate > 0
      ensures Valid() && fresh(down) && down.dst == rate && play == [] && this.mix == mix
    {
      this.mix := mix;
      var r := new Resampler(OPUS_SR, rate);
      down := r;
      blocks, play := 0, [];
    }

    /** Mix, resample and queue one block. */
    method PlayBlock()
      requires Valid()
      modifies this, down
      ensures Valid() && blocks == old(blocks) + 1 && old(down.past) <= down.past
      ensures Resampled(old(down.past), OPUS_SR, down.dst) <= Resampled(down.past, OPUS_SR, down.dst)
      ensures play == old(play)
                      + Resampled(down.past, OPUS_SR, down.dst)[Count(FRAME * old(blocks), OPUS_SR, down.dst)..]
      ensures |play| <= old(|play|) + PerBlock(down.dst)
    {
      var f := mix(blocks);
      ResampledPrefix(down.past, f, OPUS_SR, down.dst);
      BlockGrowth(blocks, down.dst);
      var o := down.Process(f, []);
      play := play + o;
      blocks := blocks + 1;
    }

    /** The overflow trim: keeps the newest `cap` samples. */
    method Trim(cap: nat)
      modifies this`play
      ensures play == if |old(play)| > cap then old(play)[|old(play)| - cap..] else old(play)
    {
      ghost var k := 0;
      while |play| > cap
        invariant k <= |old(play)| && play == old(play)[k..] && (k > 0 ==> |play| >= cap)
      {
        play := play[1..];
        k := k + 1;
      }
    }

    /**
     * Tops the playback ring up, with nobody consuming meanwhile. It terminates at every rate, lands
     * less than one block above the target, and trims nothing: what is appended is exactly what the
     * next blocks of the mix add to the resampled mix.
     */
    method Refill()
      requires Valid()
      modifies this, down
      ensures Valid() && old(down.past) <= down.past && down.past == MixedSoFar(mix, blocks)
      ensures old(|play|) >= Target(down.dst) ==> play == old(play) && down.past == old(down.past)
      ensures old(|play|) < Target(down.dst) ==>
                Target(down.dst) <= |play| < Target(down.dst) + PerBlock(down.dst) <= Cap(down.dst)
      ensures Target(down.dst) == down.dst * 60 / 1000 && Cap(down.dst) == down.dst / 2
      ensures Count(|old(down.past)|, OPUS_SR, down.dst) <= |Resampled(down.past, OPUS_SR, down.dst)|
      ensures play == old(play) + Resampled(down.past, OPUS_SR, down.dst)[Count(|old(down.past)|, OPUS_SR, down.dst)..]
    {
      var target, cap := Target(down.dst), Cap(down.dst);
      ghost var start := Count(|down.past|, OPUS_SR, down.dst);
      ghost var last := 50 * (target + start) + 1;
      RoomForOneBlock(down.dst);
      while |play| < target
        invariant Valid() && old(down.past) <= down.past
        invariant start <= |Resampled(down.past, OPUS_SR, down.dst)|
        invariant play == old(play) + Resampled(down.past, OPUS_SR, down.dst)[start..]
        invariant if old(|play|) < target then |play| < target + PerBlock(down.dst) else down.past == old(down.past)
        decreases last - blocks
      {
        if blocks >= last {
          EnoughBlocks(blocks, down.dst, target + start);
        }
        ghost var before := Resampled(down.past, OPUS_SR, down.dst);
        PlayBlock();
        RestsJoin(old(play), before, Resampled(down.past, OPUS_SR, down.dst), start);
        Trim(cap);
      }
    }
  }

  /** What was appended and what is appended next make what has been added since. */
  lemma RestsJoin(queue: seq<real>, r: seq<real>, s: seq<real>, start: nat)
    requires start <= |r| && r <= s
    ensures queue + r[start..] + s[|r|..] == queue + s[start..]
  {}

  lemma RoomForOneBlock(rate: nat)
    ensures Target(rate) > 0 ==> PerBlock(rate) > 0 && Target(rate) + PerBlock(rate) <= Cap(rate)
  {
    CeilDivIs(rate, 50, PerBlock(rate));
  }
}
