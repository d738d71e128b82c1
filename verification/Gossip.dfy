/**
 * Directory gossip: clients that pass their whole directory on whenever it grows, over links that
 * deliver every frame in any order. No channel is deleted here; `Directory.Next` is what each client does.
 */
module Gossip {
  import opened Directory

  datatype Frame = Frame(to: nat, names: seq<string>)

  datatype World = World(nodes: seq<Channels>, flight: multiset<Frame>)

  datatype Choice = Deliver(f: Frame) | Switch(v: nat, typed: string)

  type Links = set<(nat, nat)>

  // ---- steps ----

  /** One frame to each neighbour of `v` among the first `n` nodes. */
  function Posted(links: Links, n: nat, v: nat, names: seq<string>): multiset<Frame> {
    if n == 0 then multiset{}
    else Posted(links, n - 1, v, names) + if (v, n - 1) in links then multiset{Frame(n - 1, names)} else multiset{}
  }

  function Shares(links: Links, n: nat, v: nat, sent: seq<Broadcast>): multiset<Frame> {
    if sent == [] then multiset{}
    else
      Shares(links, n, v, sent[..|sent| - 1])
      + if sent[|sent| - 1].Shared? then Posted(links, n, v, sent[|sent| - 1].names) else multiset{}
  }

  predicate Enabled(w: World, c: Choice) {
    match c
    case Deliver(f) => f in w.flight && f.to < |w.nodes|
    case Switch(v, _) => v < |w.nodes|
  }

  function At(c: Choice): nat {
    if c.Deliver? then c.f.to else c.v
  }

  function EventOf(c: Choice): Event {
    if c.Deliver? then PeerChannels(c.f.names) else SetChannel(c.typed)
  }

  function Step(lower: Lower, links: Links, w: World, c: Choice): World
    requires Enabled(w, c)
  {
    var was, v := w.nodes[At(c)], At(c);
    var kept := if c.Deliver? then w.flight - multiset{c.f} else w.flight;
    World(w.nodes[v := Next(lower, was, EventOf(c))], kept + Shares(links, |w.nodes|, v, Sent(lower, was, EventOf(c))))
  }

  ghost predicate Possible(lower: Lower, links: Links, w: World, cs: seq<Choice>)
    decreases |cs|, 0
  {
    cs == [] || (Possible(lower, links, w, cs[..|cs| - 1])
        && Enabled(Run(lower, links, w, cs[..|cs| - 1]), cs[|cs| - 1]))
  }

  ghost function Run(lower: Lower, links: Links, w: World, cs: seq<Choice>): World
    requires Possible(lower, links, w, cs)
    decreases |cs|, 1
  {
    if cs == [] then w else Step(lower, links, Run(lower, links, w, cs[..|cs| - 1]), cs[|cs| - 1])
  }

  /** The channels that switches bring in. */
  function Created(lower: Lower, cs: seq<Choice>): set<string> {
    if cs == [] then {} else Created(lower, cs[..|cs| - 1]) + Brought(lower, cs[|cs| - 1])
  }

  function Brought(lower: Lower, c: Choice): set<string> {
    if c.Switch? then {Canon(lower, Chosen(c.typed))} else {}
  }

  function Deliveries(cs: seq<Choice>): nat {
    if cs == [] then 0 else Deliveries(cs[..|cs| - 1]) + if cs[|cs| - 1].Deliver? then 1 else 0
  }

  // ---- frames posted ----

  lemma {:induction false} PostedMeaning(links: Links, n: nat, v: nat, names: seq<string>)
    ensures |Posted(links, n, v, names)| <= n
    ensures forall f :: f in Posted(links, n, v, names) <==> f.to < n && (v, f.to) in links && f.names == names
  {
    if n > 0 {
      PostedMeaning(links, n - 1, v, names);
    }
  }

  /** A step posts the new directory to every neighbour if it grew, and nothing otherwise. */
  lemma SharesOfStep(lower: Lower, links: Links, n: nat, v: nat, c: Channels, e: Event)
    requires e.PeerChannels? || e.SetChannel?
    ensures var known := Next(lower, c, e).known;
            Shares(links, n, v, Sent(lower, c, e)) == if |known| > |c.known| then Posted(links, n, v, known)
                else multiset{}
  {
    var known, sent := Next(lower, c, e).known, Sent(lower, c, e);
    assert Shares(links, n, v, []) == multiset{};
    if e.SetChannel? {
      var first := [Tuned(Chosen(e.typed))];
      assert first[..0] == [];
      assert Shares(links, n, v, first) == multiset{};
      if |known| > |c.known| {
        assert sent == first + [Shared(known)];
        assert sent[..1] == first;
      } else {
        assert sent == first;
      }
    } else if |known| > |c.known| {
      assert sent[..0] == [];
    }
  }

  // ---- one client ----

  lemma LastIsNew(lower: Lower, most: seq<string>, last: string)
    requires Distinct(lower, most + [last])
    ensures Distinct(lower, most) && Canon(lower, last) !in Canons(lower, most)
  {
    var dir := most + [last];
    assert dir[|most|] == last;
    forall i, j | 0 <= i < j < |most| ensures Canon(lower, most[i]) != Canon(lower, most[j]) {
      assert dir[i] == most[i] && dir[j] == most[j];
    }
    forall i | 0 <= i < |most| ensures Canon(lower, most[i]) != Canon(lower, last) {
      assert dir[i] == most[i];
    }
  }

  lemma {:induction false} CanonsSize(lower: Lower, dir: seq<string>)
    requires Distinct(lower, dir)
    ensures |Canons(lower, dir)| == |dir|
  {
    if dir != [] {
      var most, last := dir[..|dir| - 1], dir[|dir| - 1];
      assert dir == most + [last];
      LastIsNew(lower, most, last);
      CanonsSize(lower, most);
      CanonsGrow(lower, most, last);
    }
  }

  lemma {:induction false} SubsetAsLarge<T>(a: set<T>, b: set<T>)
    requires a <= b && |a| >= |b|
    ensures a == b
  {
    if a != {} {
      var x :| x in a;
      SubsetAsLarge(a - {x}, b - {x});
    }
  }

  /** With at most 64 names in the world no merge is cut short by the cap. */
  lemma MergeIsUnion(lower: Lower, dir: seq<string>, add: seq<string>, all: set<string>)
    requires Distinct(lower, dir) && |dir| <= MAX_CHANNELS
    requires Canons(lower, dir) <= all && Canons(lower, add) <= all && |all| <= MAX_CHANNELS && [] !in all
    ensures Canons(lower, Merged(lower, dir, add)) == Canons(lower, dir) + Canons(lower, add)
  {
    var merged := Merged(lower, dir, add);
    MergeAppends(lower, dir, add);
    MergeTakesAll(lower, dir, add);
    if |merged| == MAX_CHANNELS {
      CanonsSize(lower, merged);
      SubsetAsLarge(Canons(lower, merged), all);
    }
  }

  predicate Small(names: seq<string>) {
    |names| <= MAX_CHANNELS && forall n :: n in names ==> |n| <= MAX_CHANNEL_LEN
  }

  ghost predicate Sound(lower: Lower, c: Channels, all: set<string>) {
    Good(lower, c) && c.removed == {} && Canons(lower, c.known) <= all
  }

  function Learnt(lower: Lower, e: Event): set<string>
    requires e.PeerChannels? || e.SetChannel?
  {
    if e.PeerChannels? then Canons(lower, e.names) else {Canon(lower, Chosen(e.typed))}
  }

  /** From `c` to `d` a client learns `names`, within `all`; its directory is unchanged if it had them. */
  ghost predicate Learns(lower: Lower, c: Channels, d: Channels, names: set<string>, all: set<string>) {
    && Sound(lower, d, all) && Canons(lower, d.known) == Canons(lower, c.known) + names
    && |d.known| >= |c.known| && (|d.known| == |c.known| ==> d.known == c.known) && Small(d.known)
  }

  lemma GoodIsSmall(lower: Lower, c: Channels)
    requires Good(lower, c)
    ensures Small(c.known)
  {}

  /** A frame offers exactly its names: nothing is clamped and nothing is tombstoned. */
  lemma FrameOffersAll(lower: Lower, c: Channels, names: seq<string>)
    requires c.removed == {} && Small(names)
    ensures Next(lower, c, PeerChannels(names)) == c.(known := Merged(lower, c.known, names))
  {
    ClampKeeps(names);
    AllowedMeaning(lower, names, {});
  }

  lemma FrameStep(lower: Lower, c: Channels, names: seq<string>, all: set<string>)
    requires Sound(lower, c, all) && |all| <= MAX_CHANNELS && [] !in all && Small(names) && Canons(lower, names) <= all
    ensures Learns(lower, c, Next(lower, c, PeerChannels(names)), Canons(lower, names), all)
  {
    NextKeepsGood(lower, c, PeerChannels(names));
    FrameOffersAll(lower, c, names);
    GrowsIff(lower, c.known, names);
    MergeIsUnion(lower, c.known, names, all);
    GoodIsSmall(lower, Next(lower, c, PeerChannels(names)));
  }

  lemma SwitchStep(lower: Lower, c: Channels, typed: string, all: set<string>)
    requires Sound(lower, c, all) && |all| <= MAX_CHANNELS && [] !in all && Canon(lower, Chosen(typed)) in all
    ensures Learns(lower, c, Next(lower, c, SetChannel(typed)), {Canon(lower, Chosen(typed))}, all)
  {
    var add := [Chosen(typed)];
    NextKeepsGood(lower, c, SetChannel(typed));
    GrowsIff(lower, c.known, add);
    assert Canons(lower, add) == {Canon(lower, Chosen(typed))} by {
      assert forall n :: n in add <==> n == Chosen(typed);
    }
    MergeIsUnion(lower, c.known, add, all);
    GoodIsSmall(lower, Next(lower, c, SetChannel(typed)));
  }

  lemma ClientStep(lower: Lower, c: Channels, e: Event, all: set<string>)
    requires Sound(lower, c, all) && |all| <= MAX_CHANNELS && [] !in all
    requires (e.PeerChannels? && Small(e.names)) || e.SetChannel?
    requires Learnt(lower, e) <= all
    ensures Learns(lower, c, Next(lower, c, e), Learnt(lower, e), all)
  {
    if e.PeerChannels? {
      FrameStep(lower, c, e.names, all);
    } else {
      SwitchStep(lower, c, e.typed, all);
    }
  }

  // ---- the invariant ----

  /** `k` is known at `v` or on its way there. */
  ghost predicate Coming(lower: Lower, w: World, v: nat, k: string)
    requires v < |w.nodes|
  {
    k in Canons(lower, w.nodes[v].known) || exists f :: f in w.flight && f.to == v && k in Canons(lower, f.names)
  }

  ghost predicate Within(links: Links, n: nat) {
    forall l :: l in links ==> l.0 < n && l.1 < n
  }

  ghost predicate Covered(lower: Lower, links: Links, w: World)
    requires Within(links, |w.nodes|)
  {
    forall l, k :: l in links && k in Canons(lower, w.nodes[l.0].known) ==> Coming(lower, w, l.1, k)
  }

  ghost predicate NodesSound(lower: Lower, w: World, all: set<string>) {
    forall c :: c in w.nodes ==> Sound(lower, c, all)
  }

  ghost predicate FlightSound(lower: Lower, w: World, all: set<string>) {
    forall f :: f in w.flight ==> f.to < |w.nodes| && Small(f.names) && Canons(lower, f.names) <= all
  }

  /** `all` is exactly what the clients know between them. */
  ghost predicate Inv(lower: Lower, links: Links, w: World, all: set<string>) {
    && Within(links, |w.nodes|)
    && NodesSound(lower, w, all) && FlightSound(lower, w, all)
    && (forall k :: k in all ==> SomeoneKnows(lower, w, k))
    && Covered(lower, links, w)
  }

  lemma StepAtNode(lower: Lower, links: Links, w: World, c: Choice, all: set<string>)
    requires NodesSound(lower, w, all) && FlightSound(lower, w, all) && Enabled(w, c)
    requires Brought(lower, c) <= all && |all| <= MAX_CHANNELS && [] !in all
    ensures var was, v, u := w.nodes[At(c)], At(c), Step(lower, links, w, c);
            var now := u.nodes[v];
            && Sound(lower, now, all) && Small(now.known)
            && Canons(lower, now.known) == Canons(lower, was.known) + Learnt(lower, EventOf(c))
            && |now.known| >= |was.known| && (|now.known| == |was.known| ==> now.known == was.known)
            && u.flight == (if c.Deliver? then w.flight - multiset{c.f} else w.flight)
                           + (if |now.known| > |was.known| then Posted(links, |w.nodes|, v, now.known) else multiset{})
  {
    assert w.nodes[At(c)] in w.nodes;
    ClientStep(lower, w.nodes[At(c)], EventOf(c), all);
    SharesOfStep(lower, links, |w.nodes|, At(c), w.nodes[At(c)], EventOf(c));
  }

  lemma StepKeepsSound(lower: Lower, links: Links, w: World, c: Choice, all: set<string>)
    requires NodesSound(lower, w, all) && FlightSound(lower, w, all) && Enabled(w, c)
    requires Brought(lower, c) <= all && |all| <= MAX_CHANNELS && [] !in all
    ensures NodesSound(lower, Step(lower, links, w, c), all) && FlightSound(lower, Step(lower, links, w, c), all)
  {
    StepAtNode(lower, links, w, c, all);
    var u := Step(lower, links, w, c);
    PostedMeaning(links, |w.nodes|, At(c), u.nodes[At(c)].known);
  }

  /** A name on its way to a node stays so, or arrives. */
  lemma StillComing(lower: Lower, links: Links, w: World, c: Choice, all: set<string>, v: nat, k: string)
    requires NodesSound(lower, w, all) && FlightSound(lower, w, all) && Enabled(w, c)
    requires Brought(lower, c) <= all && |all| <= MAX_CHANNELS && [] !in all
    requires v < |w.nodes| && Coming(lower, w, v, k)
    ensures Coming(lower, Step(lower, links, w, c), v, k)
  {
    StepAtNode(lower, links, w, c, all);
    var u := Step(lower, links, w, c);
    if k !in Canons(lower, w.nodes[v].known) {
      var f :| f in w.flight && f.to == v && k in Canons(lower, f.names);
      if !(c.Deliver? && c.f == f) {
        assert f in u.flight;
      }
    }
  }

  /** What a node that grew knows is on its way to each neighbour. */
  lemma GrowthIsShared(lower: Lower, links: Links, w: World, c: Choice, all: set<string>, l: (nat, nat), k: string)
    requires NodesSound(lower, w, all) && FlightSound(lower, w, all) && Enabled(w, c)
    requires Brought(lower, c) <= all && |all| <= MAX_CHANNELS && [] !in all
    requires Within(links, |w.nodes|) && l in links && l.0 == At(c)
    requires var known := Step(lower, links, w, c).nodes[At(c)].known;
             |known| > |w.nodes[At(c)].known| && k in Canons(lower, known)
    ensures Coming(lower, Step(lower, links, w, c), l.1, k)
  {
    StepAtNode(lower, links, w, c, all);
    var u := Step(lower, links, w, c);
    PostedMeaning(links, |w.nodes|, At(c), u.nodes[At(c)].known);
    assert Frame(l.1, u.nodes[At(c)].known) in u.flight;
  }

  /** A node that did not grow knows what it knew. */
  lemma OthersAsBefore(lower: Lower, links: Links, w: World, c: Choice, all: set<string>, v: nat)
    requires NodesSound(lower, w, all) && FlightSound(lower, w, all) && Enabled(w, c)
    requires Brought(lower, c) <= all && |all| <= MAX_CHANNELS && [] !in all
    requires v < |w.nodes| && (v == At(c) ==> |Step(lower, links, w, c).nodes[v].known| <= |w.nodes[v].known|)
    ensures Step(lower, links, w, c).nodes[v].known == w.nodes[v].known
  {
    StepAtNode(lower, links, w, c, all);
  }

  lemma StepKeepsCovered(lower: Lower, links: Links, w: World, c: Choice, all: set<string>)
    requires NodesSound(lower, w, all) && FlightSound(lower, w, all) && Enabled(w, c)
    requires Brought(lower, c) <= all && |all| <= MAX_CHANNELS && [] !in all
    requires Within(links, |w.nodes|) && Covered(lower, links, w)
    ensures Covered(lower, links, Step(lower, links, w, c))
  {
    var u := Step(lower, links, w, c);
    forall l, k | l in links && k in Canons(lower, u.nodes[l.0].known)
      ensures Coming(lower, u, l.1, k)
    {
      if l.0 == At(c) && |u.nodes[l.0].known| > |w.nodes[l.0].known| {
        GrowthIsShared(lower, links, w, c, all, l, k);
      } else {
        OthersAsBefore(lower, links, w, c, all, l.0);
        StillComing(lower, links, w, c, all, l.1, k);
      }
    }
  }

  ghost predicate SomeoneKnows(lower: Lower, w: World, k: string) {
    exists c :: c in w.nodes && k in Canons(lower, c.known)
  }

  lemma StepKeepsKnown(lower: Lower, links: Links, w: World, c: Choice, all: set<string>)
    requires NodesSound(lower, w, all + Brought(lower, c)) && FlightSound(lower, w, all + Brought(lower, c))
             && Enabled(w, c)
    requires |all + Brought(lower, c)| <= MAX_CHANNELS && [] !in all + Brought(lower, c)
    requires forall k :: k in all ==> SomeoneKnows(lower, w, k)
    ensures forall k :: k in all + Brought(lower, c) ==> SomeoneKnows(lower, Step(lower, links, w, c), k)
  {
    StepAtNode(lower, links, w, c, all + Brought(lower, c));
    var u := Step(lower, links, w, c);
    forall k | k in all + Brought(lower, c) ensures SomeoneKnows(lower, u, k) {
      if k in Brought(lower, c) {
        assert u.nodes[At(c)] in u.nodes;
      } else {
        var d :| d in w.nodes && k in Canons(lower, d.known);
        var i :| 0 <= i < |w.nodes| && w.nodes[i] == d;
        assert u.nodes[i] in u.nodes;
      }
    }
  }

  lemma Widen(lower: Lower, w: World, all: set<string>, more: set<string>)
    requires NodesSound(lower, w, all) && FlightSound(lower, w, all) && all <= more
    ensures NodesSound(lower, w, more) && FlightSound(lower, w, more)
  {
  }

  lemma StepKeeps(lower: Lower, links: Links, w: World, c: Choice, all: set<string>, more: set<string>)
    requires Inv(lower, links, w, all) && Enabled(w, c)
    requires more == all + Brought(lower, c) && |more| <= MAX_CHANNELS && [] !in more
    ensures Inv(lower, links, Step(lower, links, w, c), more)
    ensures Measure(Step(lower, links, w, c)) <= Measure(w) - if c.Deliver? then 1 else 0
  {
    Widen(lower, w, all, more);
    StepKeepsSound(lower, links, w, c, more);
    StepKeepsCovered(lower, links, w, c, more);
    StepKeepsKnown(lower, links, w, c, all);
    StepCosts(lower, links, w, c, more);
  }

  // ---- how long it can go on ----

  function Room(nodes: seq<Channels>): int {
    if nodes == [] then 0 else Room(nodes[..|nodes| - 1]) + (MAX_CHANNELS as int - |nodes[|nodes| - 1].known|)
  }

  lemma {:induction false} RoomAfter(nodes: seq<Channels>, v: nat, c: Channels)
    requires v < |nodes|
    ensures Room(nodes[v := c]) == Room(nodes) + |nodes[v].known| - |c.known|
  {
    var most, last := nodes[..|nodes| - 1], nodes[|nodes| - 1];
    if v < |nodes| - 1 {
      assert nodes[v := c][..|nodes| - 1] == most[v := c];
      RoomAfter(most, v, c);
    } else {
      assert nodes[v := c][..|nodes| - 1] == most;
    }
  }

  lemma {:induction false} RoomFits(lower: Lower, nodes: seq<Channels>)
    requires forall c :: c in nodes ==> Good(lower, c)
    ensures 0 <= Room(nodes) <= MAX_CHANNELS * |nodes|
  {
    if nodes != [] {
      assert nodes[|nodes| - 1] in nodes;
      RoomFits(lower, nodes[..|nodes| - 1]);
    }
  }

  /** Free slots, each worth a frame to everyone, and the frames in flight. */
  function Measure(w: World): int {
    Room(w.nodes) * |w.nodes| + |w.flight|
  }

  lemma Cheaper(room: int, less: int, n: int)
    requires less <= room - 1 && n >= 0
    ensures less * n + n <= room * n
  {
    assert (room - 1 - less) * n >= 0;
  }

  lemma StepCosts(lower: Lower, links: Links, w: World, c: Choice, all: set<string>)
    requires NodesSound(lower, w, all) && FlightSound(lower, w, all) && Enabled(w, c)
    requires Brought(lower, c) <= all && |all| <= MAX_CHANNELS && [] !in all
    ensures Measure(Step(lower, links, w, c)) <= Measure(w) - if c.Deliver? then 1 else 0
  {
    StepAtNode(lower, links, w, c, all);
    var u := Step(lower, links, w, c);
    var n, now := |w.nodes|, u.nodes[At(c)];
    PostedMeaning(links, n, At(c), now.known);
    RoomAfter(w.nodes, At(c), now);
    if |now.known| > |w.nodes[At(c)].known| {
      Cheaper(Room(w.nodes), Room(u.nodes), n);
    } else {
      assert Room(u.nodes) == Room(w.nodes);
    }
  }

  // ---- whole runs ----

  lemma SmallerToo(a: set<string>, b: set<string>)
    requires a <= b
    ensures |a| <= |b|
  {
    assert b == a + (b - a);
  }

  lemma {:induction false} RunKeeps(lower: Lower, links: Links, w: World, cs: seq<Choice>, all: set<string>)
    requires Inv(lower, links, w, all) && Possible(lower, links, w, cs)
    requires |all + Created(lower, cs)| <= MAX_CHANNELS && [] !in all + Created(lower, cs)
    ensures Inv(lower, links, Run(lower, links, w, cs), all + Created(lower, cs))
    ensures Measure(Run(lower, links, w, cs)) + Deliveries(cs) <= Measure(w)
  {
    if cs == [] {
      assert all + {} == all;
    } else {
      var most, last := cs[..|cs| - 1], cs[|cs| - 1];
      var soFar := all + Created(lower, most);
      assert all + Created(lower, cs) == soFar + Brought(lower, last);
      SmallerToo(soFar, soFar + Brought(lower, last));
      RunKeeps(lower, links, w, most, all);
      StepKeeps(lower, links, Run(lower, links, w, most), last, soFar, soFar + Brought(lower, last));
    }
  }

  // ---- the connected graph ----

  ghost predicate Path(links: Links, p: seq<nat>) {
    forall i :: 0 < i < |p| ==> (p[i - 1], p[i]) in links
  }

  ghost predicate Joined(links: Links, u: nat, v: nat) {
    exists p: seq<nat> :: |p| > 0 && p[0] == u && p[|p| - 1] == v && Path(links, p)
  }

  ghost predicate Connected(links: Links, n: nat) {
    forall u: nat, v: nat :: u < n && v < n ==> Joined(links, u, v)
  }

  lemma {:induction false} NamesFlowAlong(lower: Lower, links: Links, w: World, p: seq<nat>)
    requires Within(links, |w.nodes|) && Covered(lower, links, w) && w.flight == multiset{}
    requires |p| > 0 && Path(links, p) && p[0] < |w.nodes|
    ensures p[|p| - 1] < |w.nodes| && Canons(lower, w.nodes[p[0]].known) <= Canons(lower, w.nodes[p[|p| - 1]].known)
  {
    if |p| > 1 {
      NamesFlowAlong(lower, links, w, p[..|p| - 1]);
      var l := (p[|p| - 2], p[|p| - 1]);
      assert l in links;
      forall k | k in Canons(lower, w.nodes[l.0].known) ensures k in Canons(lower, w.nodes[l.1].known) {
        assert Coming(lower, w, l.1, k);
      }
    }
  }

  lemma QuietMeansEqual(lower: Lower, links: Links, w: World, all: set<string>)
    requires Inv(lower, links, w, all) && w.flight == multiset{} && Connected(links, |w.nodes|)
    ensures forall c :: c in w.nodes ==> Canons(lower, c.known) == all
  {
    forall c | c in w.nodes ensures Canons(lower, c.known) == all {
      var v :| 0 <= v < |w.nodes| && w.nodes[v] == c;
      forall k | k in all ensures k in Canons(lower, c.known) {
        var d :| d in w.nodes && k in Canons(lower, d.known);
        var u :| 0 <= u < |w.nodes| && w.nodes[u] == d;
        assert Joined(links, u, v);
        var p: seq<nat> :| |p| > 0 && p[0] == u && p[|p| - 1] == v && Path(links, p);
        NamesFlowAlong(lower, links, w, p);
      }
    }
  }

  function NamesOf(lower: Lower, nodes: seq<Channels>): set<string> {
    if nodes == [] then {} else NamesOf(lower, nodes[..|nodes| - 1]) + Canons(lower, nodes[|nodes| - 1].known)
  }

  lemma {:induction false} NamesOfMeaning(lower: Lower, nodes: seq<Channels>)
    ensures forall k :: k in NamesOf(lower, nodes) <==> exists c :: c in nodes && k in Canons(lower, c.known)
  {
    if nodes != [] {
      var most, last := nodes[..|nodes| - 1], nodes[|nodes| - 1];
      NamesOfMeaning(lower, most);
      assert nodes == most + [last];
    }
  }

  /** Every link has just opened: each end's whole directory is on its way to the other. */
  ghost predicate JustOpened(lower: Lower, links: Links, w: World) {
    && Within(links, |w.nodes|)
    && (forall c :: c in w.nodes ==> Good(lower, c) && c.removed == {})
    && (forall f :: f in w.flight ==> exists l :: l in links && f == Frame(l.1, w.nodes[l.0].known))
    && (forall l :: l in links ==> Frame(l.1, w.nodes[l.0].known) in w.flight)
  }

  lemma OpenedNodesAreSound(lower: Lower, w: World)
    requires forall c :: c in w.nodes ==> Good(lower, c) && c.removed == {}
    ensures NodesSound(lower, w, NamesOf(lower, w.nodes))
    ensures forall k :: k in NamesOf(lower, w.nodes) ==> SomeoneKnows(lower, w, k)
  {
    NamesOfMeaning(lower, w.nodes);
  }

  lemma OpenedFlightIsSound(lower: Lower, links: Links, w: World, all: set<string>)
    requires JustOpened(lower, links, w) && NodesSound(lower, w, all)
    ensures FlightSound(lower, w, all)
  {
    forall f | f in w.flight ensures f.to < |w.nodes| && Small(f.names) && Canons(lower, f.names) <= all {
      var l :| l in links && f == Frame(l.1, w.nodes[l.0].known);
      assert w.nodes[l.0] in w.nodes;
    }
  }

  lemma OpenedIsCovered(lower: Lower, links: Links, w: World)
    requires JustOpened(lower, links, w)
    ensures Covered(lower, links, w)
  {
    forall l, k | l in links && k in Canons(lower, w.nodes[l.0].known) ensures Coming(lower, w, l.1, k) {
      assert Frame(l.1, w.nodes[l.0].known) in w.flight;
    }
  }

  lemma RoomIsBounded(lower: Lower, w: World, all: set<string>)
    requires NodesSound(lower, w, all)
    ensures |w.flight| <= Measure(w) <= MAX_CHANNELS * |w.nodes| * |w.nodes| + |w.flight|
  {
    RoomFits(lower, w.nodes);
    Bounded(Room(w.nodes), MAX_CHANNELS * |w.nodes|, |w.nodes|);
    Bounded(0, Room(w.nodes), |w.nodes|);
  }

  /**
   * Over any connected graph and any order of delivery, while at most 64 distinct names exist: only
   * boundedly many frames are ever delivered, and when none is left in flight every directory holds
   * the same names, namely all that any client started with or created.
   */
  lemma GossipConverges(lower: Lower, links: Links, w: World, cs: seq<Choice>)
    requires JustOpened(lower, links, w) && Connected(links, |w.nodes|) && Possible(lower, links, w, cs)
    requires |NamesOf(lower, w.nodes) + Created(lower, cs)| <= MAX_CHANNELS
    requires [] !in NamesOf(lower, w.nodes) + Created(lower, cs)
    ensures Deliveries(cs) <= MAX_CHANNELS * |w.nodes| * |w.nodes| + |w.flight|
    ensures var v := Run(lower, links, w, cs);
            v.flight == multiset{} ==>
              forall c :: c in v.nodes ==> Canons(lower, c.known) == NamesOf(lower, w.nodes) + Created(lower, cs)
  {
    var all, v := NamesOf(lower, w.nodes), Run(lower, links, w, cs);
    OpenedNodesAreSound(lower, w);
    OpenedFlightIsSound(lower, links, w, all);
    OpenedIsCovered(lower, links, w);
    RunKeeps(lower, links, w, cs, all);
    RoomIsBounded(lower, w, all);
    RoomIsBounded(lower, v, all + Created(lower, cs));
    if v.flight == multiset{} {
      SameSize(lower, links, w, cs);
      QuietMeansEqual(lower, links, v, all + Created(lower, cs));
    }
  }

  lemma Bounded(a: int, b: int, n: int)
    requires a <= b && n >= 0
    ensures a * n <= b * n
  {
    assert (b - a) * n >= 0;
  }

  lemma {:induction false} SameSize(lower: Lower, links: Links, w: World, cs: seq<Choice>)
    requires Possible(lower, links, w, cs)
    ensures |Run(lower, links, w, cs).nodes| == |w.nodes|
  {
    if cs != [] {
      SameSize(lower, links, w, cs[..|cs| - 1]);
    }
  }
}
