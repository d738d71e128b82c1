/** Link negotiation between peers: `Mesh` of mesh.rs, over the signaling states of section 3.2 of RFC 8829. */
module Links {
  import opened Wrappers
  import opened Ids

  /** An SDP offer, named by who made it and its running number there. */
  datatype OfferId = OfferId(maker: Id, serial: nat)

  datatype Signal = OfferSig(offer: OfferId) | AnswerSig(offer: OfferId)

  /** The states a connection rests in between two calls. */
  datatype SignalingState = Stable | HaveLocalOffer

  /** `offer` is the offer the connection is built on, `answered` the one whose answer completed it. */
  datatype PeerConn = PeerConn(signaling: SignalingState, remoteSet: bool, offer: Option<OfferId>,
                               answered: Option<OfferId>)

  /** ICE connection states as `relink` tells them apart. */
  datatype ConnState = Negotiating | Over

  const BLANK := PeerConn(Stable, false, None, None)

  function Offering(o: OfferId): PeerConn {
    PeerConn(HaveLocalOffer, false, Some(o), None)
  }

  /** Negotiated on `o`, at either side. */
  function SettledOn(o: OfferId): PeerConn {
    PeerConn(Stable, true, Some(o), Some(o))
  }

  // ---- what each signal does to one link ----

  /** Glare: the smaller id keeps its outstanding offer and ignores the other's. */
  predicate IgnoresOffer(me: Id, from: Id, pc: Option<PeerConn>) {
    pc.Some? && pc.value.signaling.HaveLocalOffer? && Less(me, from)
  }

  function AfterOffer(me: Id, from: Id, pc: Option<PeerConn>, o: OfferId): Option<PeerConn> {
    if IgnoresOffer(me, from, pc) then pc else Some(SettledOn(o))
  }

  function OfferReplies(me: Id, from: Id, pc: Option<PeerConn>, o: OfferId): seq<Signal> {
    if IgnoresOffer(me, from, pc) then [] else [AnswerSig(o)]
  }

  /** Applying an answer is an error, without effect, unless an offer is outstanding. */
  function AfterAnswer(pc: Option<PeerConn>, o: OfferId): Option<PeerConn> {
    if pc.Some? && pc.value.signaling.HaveLocalOffer?
    then Some(pc.value.(signaling := Stable, remoteSet := true, answered := Some(o)))
    else pc
  }

  predicate RelinkDue(pc: Option<PeerConn>, conn: ConnState) {
    !(pc.Some? && pc.value.remoteSet && conn.Negotiating?)
  }

  // ---- one side's moves ----

  /** Rebuild and offer; make sure a connection exists; take a signal; the watchdog looks at the link. */
  datatype Act = Rebuild | See | Take(signal: Signal) | Watch(conn: ConnState)

  function LinkAfter(me: Id, peer: Id, pc: Option<PeerConn>, serial: nat, act: Act): Option<PeerConn> {
    match act
    case Rebuild => Some(Offering(OfferId(me, serial)))
    case See => if pc.None? then Some(BLANK) else pc
    case Take(OfferSig(o)) => AfterOffer(me, peer, pc, o)
    case Take(AnswerSig(o)) => AfterAnswer(pc, o)
    case Watch(conn) => if RelinkDue(pc, conn) then Some(Offering(OfferId(me, serial))) else pc
  }

  function Sends(me: Id, peer: Id, pc: Option<PeerConn>, serial: nat, act: Act): seq<Signal> {
    match act
    case Rebuild => [OfferSig(OfferId(me, serial))]
    case See => []
    case Take(OfferSig(o)) => OfferReplies(me, peer, pc, o)
    case Take(AnswerSig(_)) => []
    case Watch(conn) => if RelinkDue(pc, conn) then [OfferSig(OfferId(me, serial))] else []
  }

  // ---- the mesh object ----

  datatype Outgoing = Outgoing(to: Id, signal: Signal)

  function Addressed(peer: Id, signals: seq<Signal>): seq<Outgoing> {
    seq(|signals|, i requires 0 <= i < |signals| => Outgoing(peer, signals[i]))
  }

  class Mesh {
    const me: Id
    var peers: map<Id, PeerConn>
    var sessions: set<Id> // pairwise sessions held
    var out: seq<Outgoing>
    var serial: nat

    constructor (me: Id)
      ensures this.me == me && peers == map[] && sessions == {} && out == [] && serial == 0
    {
      this.me := me;
      peers, sessions, out, serial := map[], {}, [], 0;
    }

    function Link(peer: Id): Option<PeerConn>
      reads this
    {
      if peer in peers then Some(peers[peer]) else None
    }

    method Ensure(peer: Id)
      modifies this`peers
      ensures peers == if peer in old(peers) then old(peers) else old(peers)[peer := BLANK]
    {
      if peer !in peers {
        peers := peers[peer := BLANK];
      }
    }

    /** Tear the connection down, and the pairwise session with it. */
    method Discard(peer: Id)
      modifies this`peers, this`sessions
      ensures peers == old(peers) - {peer}
      ensures sessions == if peer in old(peers) then old(sessions) - {peer} else old(sessions)
    {
      if peer in peers {
        peers := peers - {peer};
        sessions := sessions - {peer};
      }
    }

    method Offer(peer: Id)
      requires peer in peers
      modifies this`peers, this`out, this`serial
      ensures peers == old(peers)[peer := Offering(OfferId(me, old(serial)))] && serial == old(serial) + 1
      ensures out == old(out) + [Outgoing(peer, OfferSig(OfferId(me, old(serial))))]
    {
      var o := OfferId(me, serial);
      serial := serial + 1;
      peers := peers[peer := Offering(o)];
      out := out + [Outgoing(peer, OfferSig(o))];
    }

    /** A peer was seen: only the smaller id offers, and always from a rebuilt connection. */
    method OnPeer(peer: Id)
      modifies this`peers, this`sessions, this`out, this`serial
      ensures Less(me, peer) ==>
                && peers == old(peers)[peer := Offering(OfferId(me, old(serial)))] && serial == old(serial) + 1
                && out == old(out) + [Outgoing(peer, OfferSig(OfferId(me, old(serial))))]
                && (sessions == if peer in old(peers) then old(sessions) - {peer} else old(sessions))
      ensures !Less(me, peer) ==>
                && (peers == if peer in old(peers) then old(peers) else old(peers)[peer := BLANK])
                && out == old(out) && sessions == old(sessions) && serial == old(serial)
    {
      if Less(me, peer) {
        Discard(peer);
        Ensure(peer);
        Offer(peer);
        assert (old(peers) - {peer})[peer := Offering(OfferId(me, old(serial)))]
            == old(peers)[peer := Offering(OfferId(me, old(serial)))];
      } else {
        Ensure(peer);
      }
    }

    /** The watchdog's rebuild: whatever the ids, unless a negotiation is still running. */
    method Relink(peer: Id, conn: ConnState)
      modifies this`peers, this`sessions, this`out, this`serial
      ensures RelinkDue(old(Link(peer)), conn) ==>
                && peers == old(peers)[peer := Offering(OfferId(me, old(serial)))] && serial == old(serial) + 1
                && out == old(out) + [Outgoing(peer, OfferSig(OfferId(me, old(serial))))]
                && (sessions == if peer in old(peers) then old(sessions) - {peer} else old(sessions))
      ensures !RelinkDue(old(Link(peer)), conn) ==>
                peers == old(peers) && out == old(out) && sessions == old(sessions) && serial == old(serial)
      ensures peer in old(peers) && old(peers)[peer].remoteSet && conn.Negotiating? ==>
                peers == old(peers) && out == old(out) && sessions == old(sessions)
      ensures peer !in old(peers) || !old(peers)[peer].remoteSet || conn.Over? ==>
                peer in peers && peers[peer].signaling.HaveLocalOffer? && |out| == |old(out)| + 1
    {
      if peer in peers && peers[peer].remoteSet && conn.Negotiating? {
        return;
      }
      Discard(peer);
      Ensure(peer);
      Offer(peer);
      assert (old(peers) - {peer})[peer := Offering(OfferId(me, old(serial)))]
          == old(peers)[peer := Offering(OfferId(me, old(serial)))];
    }

    method OnOffer(from: Id, o: OfferId)
      modifies this`peers, this`sessions, this`out
      ensures from in peers && Some(peers[from]) == AfterOffer(me, from, old(Link(from)), o)
      ensures peers - {from} == old(peers) - {from}
      ensures out == old(out) + if IgnoresOffer(me, from, old(Link(from))) then [] else [Outgoing(from, AnswerSig(o))]
      ensures sessions == if old(Link(from)).Some? && !IgnoresOffer(me, from, old(Link(from)))
                             && (old(Link(from)).value.signaling.HaveLocalOffer? || old(Link(from)).value.remoteSet)
                          then old(sessions) - {from} else old(sessions)
    {
      if from in peers && peers[from].signaling.HaveLocalOffer? {
        if Less(me, from) {
          return;
        }
        Discard(from);
      }
      if from in peers && peers[from].remoteSet {
        Discard(from);
      }
      Ensure(from);
      peers := peers[from := SettledOn(o)];
      out := out + [Outgoing(from, AnswerSig(o))];
    }

    method OnAnswer(from: Id, o: OfferId)
      modifies this`peers
      ensures Link(from) == AfterAnswer(old(Link(from)), o) && peers - {from} == old(peers) - {from}
    {
      if from in peers && peers[from].signaling.HaveLocalOffer? {
        peers := peers[from := peers[from].(signaling := Stable, remoteSet := true, answered := Some(o))];
      }
    }

    method OnLeft(peer: Id)
      modifies this`peers, this`sessions
      ensures peers == old(peers) - {peer} && sessions == old(sessions) - {peer}
    {
      sessions := sessions - {peer};
      peers := peers - {peer};
    }

    /** The engine's calls on one link: to the smaller id a rebuild is `on_peer`, to the larger it is `relink`. */
    method Perform(peer: Id, act: Act)
      requires act.See? ==> !Less(me, peer)
      modifies this`peers, this`sessions, this`out, this`serial
      ensures Link(peer) == LinkAfter(me, peer, old(Link(peer)), old(serial), act)
              && peers - {peer} == old(peers) - {peer}
      ensures out == old(out) + Addressed(peer, Sends(me, peer, old(Link(peer)), old(serial), act))
    {
      match act {
        case Rebuild =>
          if Less(me, peer) {
            OnPeer(peer);
          } else {
            Relink(peer, Over);
          }
        case See => OnPeer(peer);
        case Take(OfferSig(o)) => OnOffer(peer, o);
        case Take(AnswerSig(o)) => OnAnswer(peer, o);
        case Watch(conn) => Relink(peer, conn);
      }
    }

    method Reoffer(id: Id) returns (sent: Outgoing)
      requires id in peers && Less(me, id)
      modifies this`peers, this`sessions, this`out, this`serial
      ensures sessions == old(sessions) && peers.Keys == old(peers).Keys
      ensures sent.to == id && sent.signal.OfferSig? && sent.signal.offer.maker == me && out == old(out) + [sent]
      ensures peers == old(peers)[id := Offering(sent.signal.offer)]
    {
      peers := peers - {id};
      OnPeer(id);
      sent := out[|out| - 1];
      assert (old(peers) - {id})[id := Offering(sent.signal.offer)] == old(peers)[id := Offering(sent.signal.offer)];
    }

    /**
     * The broadcast rekey: one new offer to each larger id and nothing to the others. The pairwise
     * sessions stay until the new channel's handshake replaces them.
     */
    method Rekey()
      modifies this`peers, this`sessions, this`out, this`serial
      ensures peers.Keys == old(peers).Keys && sessions == old(sessions)
      ensures forall id :: id in peers && !Less(me, id) ==> peers[id] == old(peers)[id]
      ensures old(out) <= out
      ensures OneOfferEach(out[|old(out)|..], Larger(me, old(peers).Keys), me, peers)
    {
      var todo := peers.Keys;
      ghost var issued: seq<Outgoing> := [];
      while todo != {}
        invariant todo <= old(peers).Keys && sessions == old(sessions)
        invariant out == old(out) + issued
        invariant Reoffered(me, old(peers), peers, todo, issued)
      {
        var id :| id in todo;
        ghost var before := peers;
        if Less(me, id) {
          var sent := Reoffer(id);
          OneMoreOffer(me, old(peers), before, peers, todo, issued, sent);
          issued := issued + [sent];
        } else {
          NothingToOffer(me, old(peers), peers, todo, issued, id);
        }
        todo := todo - {id};
      }
      assert old(peers).Keys - {} == old(peers).Keys;
    }
  }

  function Larger(me: Id, ids: set<Id>): set<Id> {
    set id | id in ids && Less(me, id)
  }

  /** `sent` holds exactly one offer for each of `to`, and each link is built on the offer sent for it. */
  ghost predicate OneOfferEach(sent: seq<Outgoing>, to: set<Id>, me: Id, peers: map<Id, PeerConn>) {
    && |sent| == |to|
    && (forall s :: s in sent ==> s.to in to && s.signal.OfferSig? && s.signal.offer.maker == me)
    && (forall id :: id in to ==>
          id in peers && exists s :: s in sent && s.to == id && peers[id] == Offering(s.signal.offer))
  }

  /** A rekey that still has `todo` to look at. */
  ghost predicate Reoffered(me: Id, was: map<Id, PeerConn>, peers: map<Id, PeerConn>, todo: set<Id>,
                            issued: seq<Outgoing>) {
    && peers.Keys == was.Keys
    && (forall id :: id in peers && (id in todo || !Less(me, id)) ==> peers[id] == was[id])
    && OneOfferEach(issued, Larger(me, was.Keys - todo), me, peers)
  }

  lemma OneMoreOffer(me: Id, was: map<Id, PeerConn>, before: map<Id, PeerConn>, peers: map<Id, PeerConn>, todo: set<Id>,
                     issued: seq<Outgoing>, s: Outgoing)
    requires Reoffered(me, was, before, todo, issued)
    requires s.to in todo && todo <= was.Keys && Less(me, s.to) && s.signal.OfferSig? && s.signal.offer.maker == me
    requires peers == before[s.to := Offering(s.signal.offer)]
    ensures Reoffered(me, was, peers, todo - {s.to}, issued + [s])
  {
    var to := Larger(me, was.Keys - todo);
    LookedAt(me, was.Keys, todo, s.to);
    OneMoreEach(issued, to, me, before, peers, s);
  }

  lemma LookedAt(me: Id, ids: set<Id>, todo: set<Id>, id: Id)
    requires id in todo && todo <= ids && Less(me, id)
    ensures Larger(me, ids - (todo - {id})) == Larger(me, ids - todo) + {id} && id !in Larger(me, ids - todo)
  {}

  lemma OneMoreEach(issued: seq<Outgoing>, to: set<Id>, me: Id, before: map<Id, PeerConn>, peers: map<Id, PeerConn>,
                    s: Outgoing)
    requires OneOfferEach(issued, to, me, before)
    requires s.to !in to && s.signal.OfferSig? && s.signal.offer.maker == me
    requires peers == before[s.to := Offering(s.signal.offer)]
    ensures OneOfferEach(issued + [s], to + {s.to}, me, peers)
  {
    forall id | id in to + {s.to}
      ensures id in peers && exists t :: t in issued + [s] && t.to == id && peers[id] == Offering(t.signal.offer)
    {
      if id == s.to {
        assert s in issued + [s];
      } else {
        var t :| t in issued && t.to == id && before[id] == Offering(t.signal.offer);
        assert t in issued + [s];
      }
    }
  }

  lemma NothingToOffer(me: Id, was: map<Id, PeerConn>, peers: map<Id, PeerConn>, todo: set<Id>, issued: seq<Outgoing>,
                       id: Id)
    requires Reoffered(me, was, peers, todo, issued) && id in todo && !Less(me, id)
    ensures Reoffered(me, was, peers, todo - {id}, issued)
  {
    assert Larger(me, was.Keys - (todo - {id})) == Larger(me, was.Keys - todo);
  }

  // ---- how many offers a rekey of a whole mesh takes ----

  /** The offers issued when each of `nodes` in turn acts on a broadcast rekey, fully meshed over `ids`. */
  function OffersInAll(nodes: seq<Id>, ids: set<Id>): nat {
    if nodes == [] then 0
    else OffersInAll(nodes[..|nodes| - 1], ids) + |Larger(nodes[|nodes| - 1], ids - {nodes[|nodes| - 1]})|
  }

  ghost function Ordered(xs: set<Id>, ys: set<Id>): set<(Id, Id)> {
    set x, y | x in xs && y in ys && Less(x, y) :: (x, y)
  }

  ghost function Pairing(x: Id, y: Id): (Id, Id) {
    if Less(x, y) then (x, y) else (y, x)
  }

  lemma {:induction false} SizeOfPairings(x: Id, ys: set<Id>)
    requires x !in ys
    ensures |set y | y in ys :: Pairing(x, y)| == |ys|
  {
    var all := set y | y in ys :: Pairing(x, y);
    if ys == {} {
      assert all == {};
    } else {
      var z :| z in ys;
      var rest := set y | y in ys - {z} :: Pairing(x, y);
      SizeOfPairings(x, ys - {z});
      assert all == rest + {Pairing(x, z)};
      assert Pairing(x, z) !in rest;
    }
  }

  /** The pairs of `rest` and one more are those of `rest` and the one's pairings. */
  lemma OrderedGrows(x: Id, rest: set<Id>)
    requires x !in rest
    ensures var withX := set y | y in rest :: Pairing(x, y);
            Ordered(rest + {x}, rest + {x}) == Ordered(rest, rest) + withX && Ordered(rest, rest) !! withX
  {
    var withX := set y | y in rest :: Pairing(x, y);
    LessIrreflexive(x);
    forall y | y in rest ensures Less(x, y) != Less(y, x) {
      LessTrichotomy(x, y);
    }
    forall p | p in Ordered(rest + {x}, rest + {x}) ensures p in Ordered(rest, rest) || p in withX {
      if p.0 == x {
        assert p == Pairing(x, p.1);
      } else if p.1 == x {
        assert p == Pairing(x, p.0);
      }
    }
  }

  lemma SizeGrows(x: Id, rest: set<Id>)
    requires x !in rest
    ensures |Ordered(rest + {x}, rest + {x})| == |Ordered(rest, rest)| + |rest|
  {
    OrderedGrows(x, rest);
    SizeOfPairings(x, rest);
  }

  /** Twice the number of pairs among `n`. */
  function TwicePairs(n: nat): int {
    n * (n - 1)
  }

  lemma TwicePairsGrow(n: nat)
    ensures TwicePairs(n + 1) == TwicePairs(n) + 2 * n
  {
  }

  lemma {:induction false} SizeOfOrdered(ids: set<Id>)
    ensures 2 * |Ordered(ids, ids)| == TwicePairs(|ids|)
  {
    if ids == {} {
      assert Ordered(ids, ids) == {};
    } else {
      var x :| x in ids;
      var rest := ids - {x};
      SizeOfOrdered(rest);
      SizeGrows(x, rest);
      TwicePairsGrow(|rest|);
      assert ids == rest + {x};
    }
  }

  /** One node more adds its pairs with the larger ids. */
  lemma OneNodeMore(x: Id, before: set<Id>, ids: set<Id>)
    requires x !in before
    ensures |Ordered(before + {x}, ids)| == |Ordered(before, ids)| + |Larger(x, ids - {x})|
  {
    LessIrreflexive(x);
    var mine := set y | y in Larger(x, ids - {x}) :: Pairing(x, y);
    SizeOfPairings(x, Larger(x, ids - {x}));
    assert forall y :: y in Larger(x, ids - {x}) ==> Pairing(x, y) == (x, y);
    forall p | p in Ordered(before + {x}, ids) ensures p in Ordered(before, ids) || p in mine {
      if p.0 == x {
        assert p == Pairing(x, p.1);
      }
    }
    assert Ordered(before + {x}, ids) == Ordered(before, ids) + mine;
    assert Ordered(before, ids) !! mine;
  }

  lemma {:induction false} OffersArePairs(nodes: seq<Id>, ids: set<Id>)
    requires forall i, j :: 0 <= i < j < |nodes| ==> nodes[i] != nodes[j]
    ensures OffersInAll(nodes, ids) == |Ordered((set x | x in nodes), ids)|
  {
    if nodes == [] {
      assert Ordered((set x | x in nodes), ids) == {};
    } else {
      var was, x := nodes[..|nodes| - 1], nodes[|nodes| - 1];
      OffersArePairs(was, ids);
      assert nodes == was + [x];
      var before := set y | y in was;
      assert (set y | y in nodes) == before + {x};
      OneNodeMore(x, before, ids);
    }
  }

  // ---- what a broadcast rekey sends in all ----

  /** What every node of a full mesh has done once each has run `Mesh.Rekey`: `sent` and `peers` by node. */
  ghost predicate AllRekeyed(nodes: seq<Id>, sent: map<Id, seq<Outgoing>>, peers: map<Id, map<Id, PeerConn>>) {
    var ids := set x | x in nodes;
    forall x :: x in nodes ==> x in sent && x in peers && OneOfferEach(sent[x], Larger(x, ids - {x}), x, peers[x])
  }

  function TotalSent(nodes: seq<Id>, sent: map<Id, seq<Outgoing>>): nat
    requires forall x :: x in nodes ==> x in sent
  {
    if nodes == [] then 0 else TotalSent(nodes[..|nodes| - 1], sent) + |sent[nodes[|nodes| - 1]]|
  }

  lemma {:induction false} TotalIsCount(nodes: seq<Id>, ids: set<Id>, sent: map<Id, seq<Outgoing>>)
    requires forall x :: x in nodes ==> x in sent && |sent[x]| == |Larger(x, ids - {x})|
    ensures TotalSent(nodes, sent) == OffersInAll(nodes, ids)
  {
    if nodes != [] {
      TotalIsCount(nodes[..|nodes| - 1], ids, sent);
      assert nodes[|nodes| - 1] in nodes;
    }
  }

  /** Entry `i` is the only one addressed to `b`. */
  ghost predicate OnlyOneTo(sent: seq<Outgoing>, i: nat, b: Id) {
    i < |sent| && sent[i].to == b && forall j :: 0 <= j < |sent| && j != i ==> sent[j].to != b
  }

  /** The pair of `a` and the larger `b`: one offer, made by `a`, on which its link is built, and none back. */
  ghost predicate OneOfferBetween(a: Id, b: Id, fromA: seq<Outgoing>, fromB: seq<Outgoing>, link: PeerConn) {
    && (exists i: nat :: OnlyOneTo(fromA, i, b) && fromA[i].signal.OfferSig? && fromA[i].signal.offer.maker == a
                    && link == Offering(fromA[i].signal.offer))
    && forall s :: s in fromB ==> s.to != a
  }

  function Targets(sent: seq<Outgoing>): set<Id> {
    set s | s in sent :: s.to
  }

  lemma {:induction false} FewTargets(sent: seq<Outgoing>)
    ensures |Targets(sent)| <= |sent|
  {
    if sent != [] {
      var most, last := sent[..|sent| - 1], sent[|sent| - 1];
      FewTargets(most);
      assert sent == most + [last];
      assert Targets(sent) == Targets(most) + {last.to};
    }
  }

  /** As many targets as entries: no target twice. */
  lemma TargetsDiffer(sent: seq<Outgoing>, i: nat, j: nat)
    requires i < j < |sent| && |Targets(sent)| == |sent|
    ensures sent[i].to != sent[j].to
  {
    if sent[i].to == sent[j].to {
      var rest := sent[..j] + sent[j + 1..];
      forall s | s in sent ensures s.to in Targets(rest) {
        if s == sent[j] {
          assert rest[i] == sent[i];
        } else {
          var k :| 0 <= k < |sent| && sent[k] == s;
          assert s == rest[if k < j then k else k - 1];
        }
      }
      assert forall s :: s in rest ==> s in sent;
      assert Targets(sent) == Targets(rest);
      FewTargets(rest);
    }
  }

  lemma OfferEachHasTargets(sent: seq<Outgoing>, to: set<Id>, me: Id, peers: map<Id, PeerConn>)
    requires OneOfferEach(sent, to, me, peers)
    ensures Targets(sent) == to
  {
    forall id | id in to ensures id in Targets(sent) {
      var s :| s in sent && s.to == id && peers[id] == Offering(s.signal.offer);
    }
  }

  lemma OneOfferTo(sent: seq<Outgoing>, to: set<Id>, me: Id, peers: map<Id, PeerConn>, b: Id)
    requires OneOfferEach(sent, to, me, peers) && b in to
    ensures exists i: nat :: OnlyOneTo(sent, i, b) && sent[i].signal.OfferSig? && sent[i].signal.offer.maker == me
                        && peers[b] == Offering(sent[i].signal.offer)
  {
    OfferEachHasTargets(sent, to, me, peers);
    var s :| s in sent && s.to == b && peers[b] == Offering(s.signal.offer);
    var i: nat :| 0 <= i < |sent| && sent[i] == s;
    forall j | 0 <= j < |sent| && j != i ensures sent[j].to != b {
      TargetsDiffer(sent, if i < j then i else j, if i < j then j else i);
    }
    assert OnlyOneTo(sent, i, b);
  }

  /**
   * A broadcast rekey of a full mesh, each node having run `Mesh.Rekey`: n(n-1)/2 offers are sent in
   * all, and between any two nodes exactly one, from the smaller id to the larger.
   */
  lemma RekeyOffersOncePerPair(nodes: seq<Id>, sent: map<Id, seq<Outgoing>>, peers: map<Id, map<Id, PeerConn>>)
    requires forall i, j :: 0 <= i < j < |nodes| ==> nodes[i] != nodes[j]
    requires AllRekeyed(nodes, sent, peers)
    ensures 2 * TotalSent(nodes, sent) == |nodes| * (|nodes| - 1)
    ensures forall a, b :: a in nodes && b in nodes && Less(a, b) ==>
              b in peers[a] && OneOfferBetween(a, b, sent[a], sent[b], peers[a][b])
  {
    var ids := set x | x in nodes;
    TotalIsCount(nodes, ids, sent);
    OffersArePairs(nodes, ids);
    SizeOfOrdered(ids);
    SizeOfDistinct(nodes);
    forall a, b | a in nodes && b in nodes && Less(a, b)
      ensures b in peers[a] && OneOfferBetween(a, b, sent[a], sent[b], peers[a][b])
    {
      LessAsymmetric(a, b);
      OneOfferTo(sent[a], Larger(a, ids - {a}), a, peers[a], b);
    }
  }

  lemma {:induction false} SizeOfDistinct(nodes: seq<Id>)
    requires forall i, j :: 0 <= i < j < |nodes| ==> nodes[i] != nodes[j]
    ensures |set x | x in nodes| == |nodes|
  {
    if nodes != [] {
      var was, x := nodes[..|nodes| - 1], nodes[|nodes| - 1];
      SizeOfDistinct(was);
      assert nodes == was + [x];
      assert (set y | y in nodes) == (set y | y in was) + {x};
    }
  }
}
