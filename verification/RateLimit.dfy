/** Per-IP fixed-window rate limiting: `RateLimiter` of main.rs. */
module RateLimit {
  import opened Words
  import opened Counting

  datatype Window = Window(start: nat, count: nat)
  type Counters = map<string, Window>

  function Age(now: nat, start: nat): nat {
    if now >= start then now - start else 0
  }

  /** The entry `allow` leaves behind. */
  function Bumped(m: Counters, ip: string, window: nat, now: nat): Window {
    if ip in m && Age(now, m[ip].start) < window then Window(m[ip].start, m[ip].count + 1) else Window(now, 1)
  }

  function Pruned(m: Counters, window: nat, now: nat): Counters {
    map ip | ip in m && Age(now, m[ip].start) < window :: m[ip]
  }

  class RateLimiter {
    var inner: Counters

    constructor ()
      ensures inner == map[]
    {
      inner := map[];
    }

    method Allow(ip: string, max: nat, window: nat, now: nat) returns (ok: bool)
      modifies this
      ensures inner == old(inner)[ip := Bumped(old(inner), ip, window, now)]
      ensures ok <==> Bumped(old(inner), ip, window, now).count <= max
    {
      var e := if ip in inner then inner[ip] else Window(now, 0);
      if Age(now, e.start) >= window {
        e := Window(now, 0);
      }
      e := e.(count := e.count + 1);
      inner := inner[ip := e];
      ok := e.count <= max;
    }

    method Prune(window: nat, now: nat)
      modifies this
      ensures inner == Pruned(old(inner), window, now)
    {
      inner := map ip | ip in inner && Age(now, inner[ip].start) < window :: inner[ip];
    }
  }

  datatype Call = Allow(ip: string, max: nat, now: nat) | Prune(now: nat)

  function Next(m: Counters, c: Call, window: nat): Counters {
    match c
    case Allow(ip, _, now) => m[ip := Bumped(m, ip, window, now)]
    case Prune(now) => Pruned(m, window, now)
  }

  /** The decisions of a run, in order. */
  function Decisions(m: Counters, cs: seq<Call>, window: nat): seq<bool>
    decreases |cs|
  {
    if cs == [] then []
    else (if cs[0].Allow? then [Bumped(m, cs[0].ip, window, cs[0].now).count <= cs[0].max] else [])
         + Decisions(Next(m, cs[0], window), cs[1..], window)
  }

  function WithoutPrunes(cs: seq<Call>): seq<Call> {
    if cs == [] then [] else (if cs[0].Prune? then [] else [cs[0]]) + WithoutPrunes(cs[1..])
  }

  /** `p` is `m` with some windows missing that are over by `now`. */
  ghost predicate Trimmed(m: Counters, p: Counters, window: nat, now: nat) {
    forall ip :: if ip in p then ip in m && p[ip] == m[ip] else ip in m ==> Age(now, m[ip].start) >= window
  }

  /** Pruning is unobservable: as time does not run backwards, every decision is what it would be without. */
  lemma {:induction false} PruningIsUnobservable(m: Counters, p: Counters, cs: seq<Call>, window: nat, from: nat)
    requires Trimmed(m, p, window, from)
    requires forall i :: 0 <= i < |cs| ==> from <= cs[i].now
    requires forall i, j :: 0 <= i <= j < |cs| ==> cs[i].now <= cs[j].now
    ensures Decisions(p, cs, window) == Decisions(m, WithoutPrunes(cs), window)
    decreases |cs|
  {
    if cs != [] {
      var c, rest := cs[0], cs[1..];
      if c.Prune? {
        PruningIsUnobservable(m, Next(p, c, window), rest, window, c.now);
        assert WithoutPrunes(cs) == WithoutPrunes(rest);
      } else {
        PruningIsUnobservable(Next(m, c, window), Next(p, c, window), rest, window, c.now);
        assert WithoutPrunes(cs)[1..] == WithoutPrunes(rest);
      }
    }
  }

  // ---- how many calls pass ----

  function Run(m: Counters, cs: seq<Call>, window: nat): Counters {
    if cs == [] then m else Next(Run(m, cs[..|cs| - 1], window), cs[|cs| - 1], window)
  }

  /** The call's own window, if it is one of `ip` that counts here. */
  function MarkOf(m: Counters, c: Call, window: nat, ip: string): Mark
    requires c.Allow?
  {
    Mark(c.now, Bumped(m, ip, window, c.now).start)
  }

  /** The calls of `ip` that were let pass under a limit of at most `most`. */
  function Passed(cs: seq<Call>, window: nat, ip: string, most: nat): seq<Mark> {
    if cs == [] then []
    else
      var before, c := cs[..|cs| - 1], cs[|cs| - 1];
      var m := Run(map[], before, window);
      if c.Allow? && c.ip == ip && c.max <= most && Bumped(m, ip, window, c.now).count <= c.max
      then Passed(before, window, ip, most) + [MarkOf(m, c, window, ip)]
      else Passed(before, window, ip, most)
  }

  /** All calls of `ip`. */
  function Called(cs: seq<Call>, window: nat, ip: string): seq<Mark> {
    if cs == [] then []
    else
      var before, c := cs[..|cs| - 1], cs[|cs| - 1];
      if c.Allow? && c.ip == ip then Called(before, window, ip) + [MarkOf(Run(map[], before, window), c, window, ip)]
      else Called(before, window, ip)
  }

  ghost predicate InTime(cs: seq<Call>) {
    forall i, j :: 0 <= i <= j < |cs| ==> cs[i].now <= cs[j].now
  }

  function LastTime(cs: seq<Call>): nat {
    if cs == [] then 0 else cs[|cs| - 1].now
  }

  /** What the entry of an address says about its calls `w` so far: `counted` of them may be in the current window. */
  ghost predicate Tracked(m: Counters, ip: string, w: seq<Mark>, window: nat, last: nat) {
    && (forall i :: 0 <= i < |w| ==> w[i].at <= last)
    && if ip in m then
         && m[ip].start <= last
         && (forall i :: 0 <= i < |w| ==>
               Follows(w[i], Mark(last, m[ip].start), window) && (w[i].start == m[ip].start ==> |w| - i <= m[ip].count))
       else forall i :: 0 <= i < |w| ==> w[i].start + window <= last
  }

  lemma TimePasses(m: Counters, ip: string, w: seq<Mark>, window: nat, last: nat, now: nat)
    requires Tracked(m, ip, w, window, last) && last <= now
    ensures Tracked(m, ip, w, window, now)
  {}

  /** A call moves its address on, whether it is recorded in `w` or not. */
  lemma CallKeepsTracked(m: Counters, ip: string, w: seq<Mark>, window: nat, now: nat)
    requires Tracked(m, ip, w, window, now) && window > 0
    ensures var b := Bumped(m, ip, window, now);
            && b.start <= now < b.start + window
            && Tracked(m[ip := b], ip, w, window, now)
            && Tracked(m[ip := b], ip, w + [Mark(now, b.start)], window, now)
            && (forall i :: 0 <= i < |w| ==> Follows(w[i], Mark(now, b.start), window))
            && (forall i :: 0 <= i < |w| && w[i].start == b.start ==> |w| + 1 - i <= b.count)
  {}

  lemma OneMoreMark(w: seq<Mark>, k: Mark, window: nat, most: nat)
    requires Windowed(w, window, most) && k.start <= k.at < k.start + window
    requires forall i :: 0 <= i < |w| ==> w[i].at <= k.at && Follows(w[i], k, window)
    requires forall i :: 0 <= i < |w| && w[i].start == k.start ==> |w| + 1 - i <= most
    requires most > 0
    ensures Windowed(w + [k], window, most)
  {}

  lemma {:induction false} RunTracks(cs: seq<Call>, window: nat, ip: string, most: nat)
    requires InTime(cs) && window > 0
    ensures var w := Passed(cs, window, ip, most);
            Tracked(Run(map[], cs, window), ip, w, window, LastTime(cs)) && Windowed(w, window, most)
  {
    if cs != [] {
      var before, c := cs[..|cs| - 1], cs[|cs| - 1];
      RunTracks(before, window, ip, most);
      var m, w := Run(map[], before, window), Passed(before, window, ip, most);
      TimePasses(m, ip, w, window, LastTime(before), c.now);
      if c.Prune? {
        PrunedTracks(m, ip, w, window, most, c.now);
      } else if c.ip == ip {
        CallKeepsTracked(m, ip, w, window, c.now);
        if c.max <= most && Bumped(m, ip, window, c.now).count <= c.max {
          CountIsPositive(m, ip, window, c.now);
          OneMoreMark(w, MarkOf(m, c, window, ip), window, most);
        }
      }
    }
  }

  lemma CountIsPositive(m: Counters, ip: string, window: nat, now: nat)
    ensures Bumped(m, ip, window, now).count > 0
  {}

  lemma PrunedTracks(m: Counters, ip: string, w: seq<Mark>, window: nat, most: nat, now: nat)
    requires Tracked(m, ip, w, window, now) && Windowed(w, window, most)
    ensures Tracked(Pruned(m, window, now), ip, w, window, now)
  {}

  /**
   * Of the calls of one address with a limit of at most `most`, whatever else is called or pruned
   * meanwhile, at most `most` pass in any window, and so at most `most` times `span / window + 2` in
   * any closed interval of `span` seconds.
   */
  lemma CallsAreLimited(cs: seq<Call>, window: nat, ip: string, most: nat, lo: nat, span: nat)
    requires InTime(cs) && window > 0
    ensures Windowed(Passed(cs, window, ip, most), window, most)
    ensures |Between(Passed(cs, window, ip, most), lo, lo + span)| <= most * (span / window + 2)
  {
    RunTracks(cs, window, ip, most);
    WindowBound(Passed(cs, window, ip, most), window, most, lo, span);
  }

  /** The entry counts the calls of the window it names, which are the latest ones. */
  ghost predicate Counts(m: Counters, ip: string, w: seq<Mark>, window: nat) {
    ip in m ==>
      m[ip].count <= |w|
      && forall i :: |w| - m[ip].count <= i < |w| ==> w[i].start == m[ip].start && m[ip].start <= w[i].at
  }

  lemma {:induction false} RunCounts(cs: seq<Call>, window: nat, ip: string)
    requires InTime(cs)
    ensures Counts(Run(map[], cs, window), ip, Called(cs, window, ip), window)
    ensures ip in Run(map[], cs, window) ==> Run(map[], cs, window)[ip].start <= LastTime(cs)
  {
    if cs != [] {
      RunCounts(cs[..|cs| - 1], window, ip);
    }
  }

  /** A call is refused only if its address has made `max` others less than `window` seconds before it. */
  lemma RefusedOnlyWhenBusy(cs: seq<Call>, window: nat, c: Call)
    requires InTime(cs + [c]) && c.Allow? && window > 0
    requires Bumped(Run(map[], cs, window), c.ip, window, c.now).count > c.max
    ensures var w := Called(cs, window, c.ip);
            |w| >= c.max && forall i :: |w| - c.max <= i < |w| ==> w[i].at + window > c.now
  {
    var all := cs + [c];
    forall i, j | 0 <= i <= j < |cs| ensures cs[i].now <= cs[j].now {
      assert all[i] == cs[i] && all[j] == cs[j];
    }
    RunCounts(cs, window, c.ip);
  }
}
