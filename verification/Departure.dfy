/**
 * A room that agrees on a key loses a member. The server's notice reaches the others at different times,
 * and the new key travels between peers, so notice and key may overtake each other.
 */
module Departure {
  import opened Wrappers
  import opened Ids
  import opened Words
  import opened GroupAudio
  import opened RoomKeys
  import Engine

  datatype Pending = LeftAt(at: Id) | KeyAt(to: Id, from: Id, gen: U32, key: KeyBytes)

  /** Who stays, and what is still to be processed; nothing is ever under way twice. */
  datatype World = World(nodes: map<Id, Engine.Node>, bag: set<Pending>)

  /** Process a notice (`secure` is who the node has sessions with), a key, or a promotion. */
  datatype Choice = Notice(at: Id, secure: seq<Id>) | Arrival(k: Pending) | Promote(at: Id)

  ghost predicate Enabled(w: World, left: Id, ch: Choice) {
    match ch
    case Notice(at, secure) =>
      && LeftAt(at) in w.bag && at in w.nodes
      && Engine.Listed(secure) == w.nodes[at].members - {left}
    case Arrival(k) => k in w.bag && k.KeyAt? && k.to in w.nodes
    case Promote(at) => at in w.nodes && w.nodes[at].keys.due != []
  }

  function OnWire(from: Id, actions: seq<KeyAction>): set<Pending> {
    set a | a in actions && a.SendKey? :: KeyAt(a.peer, from, a.gen, a.key)
  }

  ghost function Step(w: World, left: Id, ch: Choice): World
    requires Enabled(w, left, ch)
  {
    match ch
    case Notice(at, secure) =>
      var n, e := w.nodes[at], Engine.PeerLeft(left, secure);
      World(w.nodes[at := Engine.Next(n, e)], w.bag - {LeftAt(at)} + OnWire(at, Engine.Actions(n, e)))
    case Arrival(k) =>
      World(w.nodes[k.to := Engine.Next(w.nodes[k.to], Engine.RoomKeyFrom(k.from, k.gen, k.key))], w.bag - {k})
    case Promote(at) => w.(nodes := w.nodes[at := Engine.Next(w.nodes[at], Engine.PromotionElapsed)])
  }

  ghost predicate Run(w: World, left: Id, chs: seq<Choice>)
    decreases |chs|
  {
    chs != [] ==> Enabled(w, left, chs[0]) && Run(Step(w, left, chs[0]), left, chs[1..])
  }

  ghost function Last(w: World, left: Id, chs: seq<Choice>): World
    requires Run(w, left, chs)
    decreases |chs|
  {
    if chs == [] then w else Last(Step(w, left, chs[0]), left, chs[1..])
  }

  /** No node takes a key before it has processed the notice. */
  ghost predicate InOrder(w: World, left: Id, chs: seq<Choice>)
    requires Run(w, left, chs)
    decreases |chs|
  {
    chs != [] ==>
      && (chs[0].Arrival? ==> LeftAt(chs[0].k.to) !in w.bag)
      && InOrder(Step(w, left, chs[0]), left, chs[1..])
  }

  // ---- the situation ----

  /**
   * The room before, `ids`, agreed on `k` with nothing outstanding; `left` is gone and everyone is about to
   * hear of it.
   */
  ghost predicate Start(w: World, ids: set<Id>, left: Id, k: RoomKey) {
    && left in ids && w.nodes.Keys == ids - {left}
    && (forall m :: m in w.nodes ==>
          && w.nodes[m].members == ids - {m} && w.nodes[m].keys.me == m
          && Coherent(w.nodes[m].keys) && w.nodes[m].keys.ring.cur == Some(k) && w.nodes[m].keys.due == [])
    && w.bag == set m | m in ids - {left} :: LeftAt(m)
  }

  /** The authority of those who stay. */
  ghost predicate Heads(a: Id, ids: set<Id>, left: Id) {
    a in ids && a != left && forall m :: m in ids && m != left && m != a ==> Less(a, m)
  }

  /** The key the authority mints on the departure. */
  function NewKey(w: World, a: Id, k: RoomKey): RoomKey
    requires a in w.nodes && k.gen < U32_MAX
  {
    RoomKey(k.gen + 1, a, KeyBytes(a, w.nodes[a].keys.mints))
  }

  ghost predicate Agreed(w: World, k: RoomKey) {
    forall m :: m in w.nodes ==>
      w.nodes[m].keys.ring.cur == Some(k) && (w.nodes[m].keys.due == [] ==> w.nodes[m].keys.ring.send == Some(k))
  }

  // ---- the invariant ----

  ghost predicate NodeOk(w: World, ids: set<Id>, left: Id, m: Id)
    requires m in w.nodes
  {
    var n := w.nodes[m];
    && n.keys.me == m
    && n.members == if LeftAt(m) in w.bag then ids - {m} else ids - {m} - {left}
  }

  ghost predicate NodesCoherent(w: World) {
    forall m :: m in w.nodes ==> Coherent(w.nodes[m].keys)
  }

  /** Before the authority hears of it, nothing has changed; afterwards each has the new key or is about to get it. */
  ghost predicate Keyed(w: World, a: Id, k: RoomKey, k1: RoomKey, m: Id)
    requires m in w.nodes
  {
    var cur := w.nodes[m].keys.ring.cur;
    if LeftAt(a) in w.bag then cur == Some(k)
    else cur == Some(k1) || (cur == Some(k) && m != a && KeyAt(m, a, k1.gen, k1.key) in w.bag)
  }

  ghost predicate BagOk(w: World, a: Id, k1: RoomKey) {
    forall p :: p in w.bag ==>
      match p
      case LeftAt(m) => m in w.nodes
      case KeyAt(to, from, gen, key) =>
        LeftAt(a) !in w.bag && to in w.nodes && to != a && from == a && gen == k1.gen && key == k1.key
  }

  ghost predicate Inv(w: World, ids: set<Id>, left: Id, a: Id, k: RoomKey, k1: RoomKey) {
    && w.nodes.Keys == ids - {left} && a in w.nodes
    && NodesOk(w, ids, left) && AllKeyed(w, a, k, k1)
    && BagOk(w, a, k1)
    && (LeftAt(a) in w.bag ==> w.nodes[a].keys.mints == k1.key.serial)
  }

  lemma NodeKeepsCoherent(n: Engine.Node, e: Engine.Event)
    requires Coherent(n.keys)
    ensures Coherent(Engine.Next(n, e).keys)
  {
    Engine.SeenIsApplied(n, e);
    if Engine.SeenBy(n, e).Some? {
      EventKeeps(n.keys, Engine.SeenBy(n, e).value);
    }
  }

  lemma StepKeepsCoherent(w: World, left: Id, ch: Choice)
    requires NodesCoherent(w) && Enabled(w, left, ch)
    ensures NodesCoherent(Step(w, left, ch))
  {
    match ch
    case Notice(at, secure) => NodeKeepsCoherent(w.nodes[at], Engine.PeerLeft(left, secure));
    case Arrival(k) => NodeKeepsCoherent(w.nodes[k.to], Engine.RoomKeyFrom(k.from, k.gen, k.key));
    case Promote(at) => NodeKeepsCoherent(w.nodes[at], Engine.PromotionElapsed);
  }

  ghost predicate Setting(ids: set<Id>, left: Id, a: Id, k: RoomKey, k1: RoomKey) {
    left in ids && Heads(a, ids, left) && k1.gen == k.gen + 1 && k1.auth == a && k1.key.origin == a
  }

  lemma StartHasInv(w: World, ids: set<Id>, left: Id, a: Id, k: RoomKey)
    requires Start(w, ids, left, k) && Heads(a, ids, left) && k.gen < U32_MAX
    ensures NodesCoherent(w)
    ensures Setting(ids, left, a, k, NewKey(w, a, k)) && Inv(w, ids, left, a, k, NewKey(w, a, k))
  {}

  // ---- steps ----

  lemma AuthorityStays(ids: set<Id>, left: Id, a: Id, m: Id)
    requires Heads(a, ids, left) && m in ids && m != left
    ensures AmAuthority(m, ids - {m} - {left}) <==> m == a
  {
    if m != a {
      LessAsymmetric(a, m);
      assert a in ids - {m} - {left};
    }
  }

  /** What the notice does at one node. */
  lemma NoticeAtNode(n: Engine.Node, ids: set<Id>, left: Id, a: Id, m: Id, k: RoomKey, k1: RoomKey, secure: seq<Id>)
    requires Setting(ids, left, a, k, k1) && m in ids && m != left
    requires n.members == ids - {m} && n.keys.me == m && Coherent(n.keys)
    requires m == a ==> n.keys.ring.cur == Some(k) && n.keys.mints == k1.key.serial
    requires Engine.Listed(secure) == n.members - {left}
    ensures var n', acts := Engine.Next(n, Engine.PeerLeft(left, secure)),
            Engine.Actions(n, Engine.PeerLeft(left, secure));
            && n'.members == ids - {m} - {left} && n'.keys.me == m
            && (m == a ==> n'.keys.ring.cur == Some(k1)
                           && OnWire(m, acts) == set x | x in ids - {a} - {left} :: KeyAt(x, a, k1.gen, k1.key))
            && (m != a ==> n'.keys == n.keys && OnWire(m, acts) == {})
  {
    AuthorityStays(ids, left, a, m);
    if m == a {
      FreshBelowTheTop(n.keys);
      Engine.RotationIsCoherent(n.keys);
      var acts := Engine.Actions(n, Engine.PeerLeft(left, secure));
      Engine.NewKeysReachEveryone(n, Engine.PeerLeft(left, secure));
      assert Engine.EachIsSent(acts, secure, k1);
      SentToAll(acts, secure, a, k1);
    }
  }

  lemma SentToAll(acts: seq<KeyAction>, to: seq<Id>, a: Id, k1: RoomKey)
    requires Engine.EachIsSent(acts, to, k1)
    ensures OnWire(a, acts) == set x | x in Engine.Listed(to) :: KeyAt(x, a, k1.gen, k1.key)
  {
    forall x | x in to ensures KeyAt(x, a, k1.gen, k1.key) in OnWire(a, acts) {
      var i :| 0 <= i < |to| && to[i] == x;
      assert acts[i] in acts;
    }
    forall act | act in acts ensures act.SendKey? && act.peer in to && act.gen == k1.gen && act.key == k1.key {
      var i :| 0 <= i < |acts| && acts[i] == act;
    }
  }

  ghost predicate NodesOk(w: World, ids: set<Id>, left: Id) {
    forall m :: m in w.nodes ==> NodeOk(w, ids, left, m)
  }

  ghost predicate AllKeyed(w: World, a: Id, k: RoomKey, k1: RoomKey) {
    forall m :: m in w.nodes ==> Keyed(w, a, k, k1, m)
  }

  /** One node changes; for the others the notices under way are the same. */
  lemma OneNodeChanges(w: World, v: World, ids: set<Id>, left: Id, at: Id)
    requires NodesOk(w, ids, left) && at in w.nodes && at in v.nodes && v.nodes == w.nodes[at := v.nodes[at]]
    requires forall m :: m in w.nodes && m != at ==> (LeftAt(m) in v.bag <==> LeftAt(m) in w.bag)
    requires NodeOk(v, ids, left, at)
    ensures NodesOk(v, ids, left)
  {
    forall m | m in v.nodes && m != at ensures NodeOk(v, ids, left, m) {
      assert NodeOk(w, ids, left, m);
    }
  }

  lemma NoticeKeeps(w: World, ids: set<Id>, left: Id, a: Id, k: RoomKey, k1: RoomKey, at: Id, secure: seq<Id>)
    requires Setting(ids, left, a, k, k1) && Inv(w, ids, left, a, k, k1) && Enabled(w, left, Notice(at, secure))
    requires Coherent(w.nodes[at].keys)
    ensures Inv(Step(w, left, Notice(at, secure)), ids, left, a, k, k1)
  {
    assert NodeOk(w, ids, left, at) && Keyed(w, a, k, k1, at);
    NoticeAtNode(w.nodes[at], ids, left, a, at, k, k1, secure);
    var v := Step(w, left, Notice(at, secure));
    OneNodeChanges(w, v, ids, left, at);
    NoticeKeepsKeyed(w, v, ids, left, a, k, k1, at);
    NoticeKeepsBag(w, v, ids, left, a, k1, at);
  }

  lemma NoticeKeepsBag(w: World, v: World, ids: set<Id>, left: Id, a: Id, k1: RoomKey, at: Id)
    requires BagOk(w, a, k1) && w.nodes.Keys == ids - {left} && LeftAt(at) in w.bag && v.nodes.Keys == w.nodes.Keys
    requires v.bag == w.bag - {LeftAt(at)}
                      + if at == a then set x | x in ids - {a} - {left} :: KeyAt(x, a, k1.gen, k1.key) else {}
    ensures BagOk(v, a, k1)
  {}

  lemma NoticeKeepsKeyed(w: World, v: World, ids: set<Id>, left: Id, a: Id, k: RoomKey, k1: RoomKey, at: Id)
    requires AllKeyed(w, a, k, k1) && w.nodes.Keys == ids - {left} && LeftAt(at) in w.bag && at in w.nodes
    requires at in v.nodes && v.nodes == w.nodes[at := v.nodes[at]]
    requires v.nodes[at].keys.ring.cur == if at == a then Some(k1) else w.nodes[at].keys.ring.cur
    requires v.bag == w.bag - {LeftAt(at)}
                      + if at == a then set x | x in ids - {a} - {left} :: KeyAt(x, a, k1.gen, k1.key) else {}
    ensures AllKeyed(v, a, k, k1)
  {
    forall m | m in v.nodes ensures Keyed(v, a, k, k1, m) {
      assert Keyed(w, a, k, k1, m);
    }
  }

  /** A node that is not the authority takes the new key unless it still counts a smaller departed member. */
  lemma ArrivalAtNode(n: Engine.Node, ids: set<Id>, left: Id, a: Id, m: Id, k: RoomKey, k1: RoomKey)
    requires Setting(ids, left, a, k, k1) && m in ids && m != left && m != a
    requires n.keys.me == m && Coherent(n.keys) && (n.keys.ring.cur == Some(k) || n.keys.ring.cur == Some(k1))
    requires n.members == ids - {m} || n.members == ids - {m} - {left}
    ensures var n' := Engine.Next(n, Engine.RoomKeyFrom(a, k1.gen, k1.key));
            && n'.members == n.members && n'.keys.me == m
            && (Less(a, left) || left !in n.members ==> n'.keys.ring.cur == Some(k1))
            && (!Less(a, left) && left in n.members ==> n' == n)
  {
    BetterIrreflexive(k1);
    EventKeepsMe(n.keys, KeyArrived(a, k1.gen, k1.key, n.members));
    if (Less(a, left) || left !in n.members) && n.keys.ring.cur == Some(k) {
      TheAuthorityIsBelieved(n.keys, a, k1.gen, k1.key, n.members);
    }
  }

  lemma ArrivalKeeps(w: World, ids: set<Id>, left: Id, a: Id, k: RoomKey, k1: RoomKey, p: Pending)
    requires Setting(ids, left, a, k, k1) && Inv(w, ids, left, a, k, k1) && Enabled(w, left, Arrival(p))
    requires Less(a, left) || LeftAt(p.to) !in w.bag
    requires Coherent(w.nodes[p.to].keys)
    ensures Inv(Step(w, left, Arrival(p)), ids, left, a, k, k1)
  {
    assert NodeOk(w, ids, left, p.to) && Keyed(w, a, k, k1, p.to);
    ArrivalAtNode(w.nodes[p.to], ids, left, a, p.to, k, k1);
    var v := Step(w, left, Arrival(p));
    OneNodeChanges(w, v, ids, left, p.to);
    ArrivalKeepsKeyed(w, v, a, k, k1, p);
  }

  lemma ArrivalKeepsKeyed(w: World, v: World, a: Id, k: RoomKey, k1: RoomKey, p: Pending)
    requires AllKeyed(w, a, k, k1) && BagOk(w, a, k1) && p in w.bag && p.KeyAt? && v.bag == w.bag - {p}
    requires p.to in v.nodes && v.nodes == w.nodes[p.to := v.nodes[p.to]] && v.nodes[p.to].keys.ring.cur == Some(k1)
    ensures AllKeyed(v, a, k, k1)
  {
    forall m | m in v.nodes ensures Keyed(v, a, k, k1, m) {
      assert Keyed(w, a, k, k1, m);
    }
  }

  lemma PromotionAtNode(n: Engine.Node)
    ensures var n' := Engine.Next(n, Engine.PromotionElapsed);
            && n'.members == n.members && n'.keys.me == n.keys.me && n'.keys.ring.cur == n.keys.ring.cur
            && n'.keys.mints == n.keys.mints
  {}

  lemma PromotionStays(w: World, ids: set<Id>, left: Id, a: Id, k: RoomKey, k1: RoomKey, at: Id)
    requires Inv(w, ids, left, a, k, k1) && Enabled(w, left, Promote(at))
    ensures Inv(Step(w, left, Promote(at)), ids, left, a, k, k1)
  {
    PromotionAtNode(w.nodes[at]);
    assert NodeOk(w, ids, left, at) && Keyed(w, a, k, k1, at);
    var v := Step(w, left, Promote(at));
    OneNodeChanges(w, v, ids, left, at);
    forall m | m in v.nodes ensures Keyed(v, a, k, k1, m) {
      assert Keyed(w, a, k, k1, m);
    }
  }

  lemma {:induction false} RunKeeps(w: World, ids: set<Id>, left: Id, a: Id, k: RoomKey, k1: RoomKey, chs: seq<Choice>)
    requires Setting(ids, left, a, k, k1) && Inv(w, ids, left, a, k, k1) && NodesCoherent(w) && Run(w, left, chs)
    requires Less(a, left) || InOrder(w, left, chs)
    ensures Inv(Last(w, left, chs), ids, left, a, k, k1) && NodesCoherent(Last(w, left, chs))
    decreases |chs|
  {
    if chs != [] {
      StepKeepsCoherent(w, left, chs[0]);
      match chs[0] {
        case Notice(at, secure) => NoticeKeeps(w, ids, left, a, k, k1, at, secure);
        case Arrival(p) => ArrivalKeeps(w, ids, left, a, k, k1, p);
        case Promote(at) => PromotionStays(w, ids, left, a, k, k1, at);
      }
      RunKeeps(Step(w, left, chs[0]), ids, left, a, k, k1, chs[1..]);
    }
  }

  lemma DrainedMeansAgreed(w: World, ids: set<Id>, left: Id, a: Id, k: RoomKey, k1: RoomKey)
    requires Inv(w, ids, left, a, k, k1) && NodesCoherent(w) && w.bag == {}
    ensures Agreed(w, k1)
  {
    forall m | m in w.nodes
      ensures w.nodes[m].keys.ring.cur == Some(k1)
              && (w.nodes[m].keys.due == [] ==> w.nodes[m].keys.ring.send == Some(k1))
    {
      assert NodeOk(w, ids, left, m) && Keyed(w, a, k, k1, m);
    }
  }

  /**
   * A room that agreed and lost a member agrees again, on a key minted after the departure, once all is
   * delivered: in any order if the departed was not the authority, and otherwise if every node hears of
   * the departure before it gets the new key.
   */
  lemma RoomAgreesAgain(w: World, ids: set<Id>, left: Id, a: Id, k: RoomKey, chs: seq<Choice>)
    requires Start(w, ids, left, k) && Heads(a, ids, left) && k.gen < U32_MAX && Run(w, left, chs)
    requires Less(a, left) || InOrder(w, left, chs)
    ensures Last(w, left, chs).bag == {} ==> Agreed(Last(w, left, chs), NewKey(w, a, k))
  {
    StartHasInv(w, ids, left, a, k);
    RunKeeps(w, ids, left, a, k, NewKey(w, a, k), chs);
    if Last(w, left, chs).bag == {} {
      DrainedMeansAgreed(Last(w, left, chs), ids, left, a, k, NewKey(w, a, k));
    }
  }

  // ---- when the authority itself leaves ----

  /** Every run that delivers everything ends in agreement on the new key. */
  ghost predicate AlwaysAgreesAgain(w: World, left: Id, k1: RoomKey) {
    forall chs :: Run(w, left, chs) && Last(w, left, chs).bag == {} ==> Agreed(Last(w, left, chs), k1)
  }

  ghost predicate MayDisagree(w: World, left: Id, k1: RoomKey) {
    exists chs :: Run(w, left, chs) && Last(w, left, chs).bag == {} && !Agreed(Last(w, left, chs), k1)
  }

  lemma StepMayDisagree(w: World, left: Id, ch: Choice, k1: RoomKey)
    requires Enabled(w, left, ch) && MayDisagree(Step(w, left, ch), left, k1)
    ensures MayDisagree(w, left, k1)
  {
    var v := Step(w, left, ch);
    var rest :| Run(v, left, rest) && Last(v, left, rest).bag == {} && !Agreed(Last(v, left, rest), k1);
    assert ([ch] + rest)[1..] == rest;
    assert Run(w, left, [ch] + rest) && Last(w, left, [ch] + rest) == Last(v, left, rest);
  }

  /** The authority's key has been sent out, and `m` is left without it. */
  ghost predicate Missed(w: World, ids: set<Id>, left: Id, a: Id, k1: RoomKey, m: Id) {
    && w.nodes.Keys == ids - {left} && m in w.nodes && m != a && LeftAt(a) !in w.bag
    && w.nodes[m].keys.ring.cur != Some(k1)
    && NodesOk(w, ids, left)
    && BagOk(w, a, k1) && KeyAt(m, a, k1.gen, k1.key) !in w.bag
  }

  /** What a node that is not the authority does with anything still under way. */
  lemma NoticeElsewhere(n: Engine.Node, ids: set<Id>, left: Id, a: Id, m: Id, secure: seq<Id>)
    requires Heads(a, ids, left) && m in ids && m != left && m != a
    requires n.members == ids - {m} && n.keys.me == m
    ensures var e := Engine.PeerLeft(left, secure);
            Engine.Next(n, e) == n.(members := ids - {m} - {left}) && Engine.Actions(n, e) == []
  {
    AuthorityStays(ids, left, a, m);
  }

  lemma KeyElsewhere(n: Engine.Node, p: Pending)
    requires p.KeyAt?
    ensures var n' := Engine.Next(n, Engine.RoomKeyFrom(p.from, p.gen, p.key));
            n'.members == n.members && n'.keys.me == n.keys.me
  {
    EventKeepsMe(n.keys, KeyArrived(p.from, p.gen, p.key, n.members));
  }

  lemma MissedNotice(w: World, ids: set<Id>, left: Id, a: Id, k1: RoomKey, m: Id, at: Id) returns (ch: Choice)
    requires Heads(a, ids, left) && Missed(w, ids, left, a, k1, m) && LeftAt(at) in w.bag
    ensures Enabled(w, left, ch) && Missed(Step(w, left, ch), ids, left, a, k1, m)
    ensures Step(w, left, ch).bag == w.bag - {LeftAt(at)}
  {
    var secure := Listing(w.nodes[at].members - {left});
    ch := Notice(at, secure);
    assert NodeOk(w, ids, left, at);
    NoticeElsewhere(w.nodes[at], ids, left, a, at, secure);
    assert OnWire(at, []) == {};
    var v := Step(w, left, ch);
    assert v.bag == w.bag - {LeftAt(at)};
    OneNodeChanges(w, v, ids, left, at);
  }

  lemma MissedArrival(w: World, ids: set<Id>, left: Id, a: Id, k1: RoomKey, m: Id, p: Pending)
    requires Missed(w, ids, left, a, k1, m) && p in w.bag && p.KeyAt?
    ensures Enabled(w, left, Arrival(p)) && Missed(Step(w, left, Arrival(p)), ids, left, a, k1, m)
  {
    assert NodeOk(w, ids, left, p.to);
    KeyElsewhere(w.nodes[p.to], p);
    OneNodeChanges(w, Step(w, left, Arrival(p)), ids, left, p.to);
  }

  /** What is still under way can be delivered, and `m` stays without the key. */
  lemma MissedStep(w: World, ids: set<Id>, left: Id, a: Id, k1: RoomKey, m: Id, p: Pending) returns (ch: Choice)
    requires Heads(a, ids, left) && Missed(w, ids, left, a, k1, m) && p in w.bag
    ensures Enabled(w, left, ch) && Missed(Step(w, left, ch), ids, left, a, k1, m)
    ensures Step(w, left, ch).bag == w.bag - {p}
  {
    if p.LeftAt? {
      ch := MissedNotice(w, ids, left, a, k1, m, p.at);
    } else {
      ch := Arrival(p);
      MissedArrival(w, ids, left, a, k1, m, p);
    }
  }

  lemma Listing(s: set<Id>) returns (r: seq<Id>)
    ensures Engine.Listed(r) == s
  {
    r := [];
    var todo := s;
    while todo != {}
      invariant todo <= s && Engine.Listed(r) == s - todo
    {
      var x :| x in todo;
      ListedGrows(r, x);
      r, todo := r + [x], todo - {x};
    }
  }

  lemma ListedGrows(r: seq<Id>, x: Id)
    ensures Engine.Listed(r + [x]) == Engine.Listed(r) + {x}
  {}

  lemma {:induction false} MissedForGood(w: World, ids: set<Id>, left: Id, a: Id, k1: RoomKey, m: Id)
    requires Heads(a, ids, left) && Missed(w, ids, left, a, k1, m)
    ensures MayDisagree(w, left, k1)
    decreases |w.bag|
  {
    if w.bag == {} {
      assert Run(w, left, []) && Last(w, left, []) == w;
    } else {
      var p :| p in w.bag;
      var ch := MissedStep(w, ids, left, a, k1, m, p);
      MissedForGood(Step(w, left, ch), ids, left, a, k1, m);
      StepMayDisagree(w, left, ch, k1);
    }
  }

  /** The old authority has left; the new one's key overtakes the notice at `m` and is refused there. */
  lemma OvertakenNotice(w: World, ids: set<Id>, left: Id, a: Id, k: RoomKey, m: Id)
    requires Start(w, ids, left, k) && Heads(a, ids, left) && k.gen < U32_MAX
    requires m in w.nodes && m != a && !Less(a, left)
    ensures MayDisagree(w, left, NewKey(w, a, k))
  {
    var k1 := NewKey(w, a, k);
    StartHasInv(w, ids, left, a, k);
    var secure := Listing(w.nodes[a].members - {left});
    var first := Notice(a, secure);
    NoticeKeeps(w, ids, left, a, k, k1, a, secure);
    NoticeAtNode(w.nodes[a], ids, left, a, a, k, k1, secure);
    var v := Step(w, left, first);
    var p := KeyAt(m, a, k1.gen, k1.key);
    assert NodeOk(v, ids, left, m) && Keyed(v, a, k, k1, m);
    assert v.nodes[m] == w.nodes[m] && LeftAt(m) in v.bag && p in v.bag;
    ArrivalAtNode(v.nodes[m], ids, left, a, m, k, k1);
    Overtakes(v, ids, left, a, k, k1, m);
    MissedForGood(Step(v, left, Arrival(p)), ids, left, a, k1, m);
    StepMayDisagree(v, left, Arrival(p), k1);
    StepMayDisagree(w, left, first, k1);
  }

  lemma Overtakes(v: World, ids: set<Id>, left: Id, a: Id, k: RoomKey, k1: RoomKey, m: Id)
    requires Inv(v, ids, left, a, k, k1) && m in v.nodes && m != a && LeftAt(a) !in v.bag
    requires KeyAt(m, a, k1.gen, k1.key) in v.bag && v.nodes[m].keys.ring.cur == Some(k) && k != k1
    requires Engine.Next(v.nodes[m], Engine.RoomKeyFrom(a, k1.gen, k1.key)) == v.nodes[m]
    ensures Missed(Step(v, left, Arrival(KeyAt(m, a, k1.gen, k1.key))), ids, left, a, k1, m)
  {
    var u := Step(v, left, Arrival(KeyAt(m, a, k1.gen, k1.key)));
    assert u.nodes == v.nodes;
    assert NodeOk(v, ids, left, m);
    OneNodeChanges(v, u, ids, left, m);
  }

  /** Order does not matter if and only if the one who left was not the authority. */
  lemma AgreesAgainIff(w: World, ids: set<Id>, left: Id, a: Id, k: RoomKey)
    requires Start(w, ids, left, k) && Heads(a, ids, left) && k.gen < U32_MAX && |ids| >= 3
    ensures AlwaysAgreesAgain(w, left, NewKey(w, a, k)) <==> Less(a, left)
  {
    if Less(a, left) {
      forall chs | Run(w, left, chs)
          && Last(w, left, chs).bag == {} ensures Agreed(Last(w, left, chs), NewKey(w, a, k)) {
        RoomAgreesAgain(w, ids, left, a, k, chs);
      }
    } else {
      var others := ids - {left} - {a};
      assert |ids - {left}| == |ids| - 1 && |others| == |ids| - 2;
      var m :| m in others;
      OvertakenNotice(w, ids, left, a, k, m);
    }
  }
}
