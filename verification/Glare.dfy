/**
 * One pair of peers rebuilding their link over FIFO signaling: every interleaving of one round ends
 * with both sides on the same offer. What each side does is `Links.LinkAfter` and `Links.Sends`, which
 * `Links.Mesh.Perform` carries out on the mesh.
 */
module Glare {
  import opened Wrappers
  import opened Ids
  import opened Links

  /** `made*` count the rebuilds of this round; `crossed` records that two unread offers once faced each other. */
  datatype Pair = Pair(pcA: Option<PeerConn>, pcB: Option<PeerConn>, ab: seq<Signal>, ba: seq<Signal>,
                       madeA: nat, madeB: nat, crossed: bool)

  /**
   * RebuildA: `on_peer`, `rekey` or `relink` at the smaller id. RebuildB: `relink` at the larger. SeeB:
   * `on_peer` there.
   */
  datatype Choice = RebuildA | RebuildB | SeeB | RecvAtA | RecvAtB

  predicate Idle(pc: Option<PeerConn>) {
    pc.Some? ==> pc.value.signaling.Stable?
  }

  predicate Quiescent(w: Pair) {
    Idle(w.pcA) && Idle(w.pcB) && w.ab == [] && w.ba == [] && w.madeA == 0 && w.madeB == 0 && !w.crossed
  }

  predicate Drained(w: Pair) {
    w.ab == [] && w.ba == []
  }

  predicate Enabled(w: Pair, most: nat, c: Choice) {
    match c
    case RebuildA => w.madeA < most
    case RebuildB => w.madeB < most
    case SeeB => w.pcB.None?
    case RecvAtA => w.ba != []
    case RecvAtB => w.ab != []
  }

  /** The side at the smaller id performs `act`. */
  function ActAtA(a: Id, b: Id, w: Pair, act: Act): Pair {
    w.(pcA := LinkAfter(a, b, w.pcA, w.madeA, act), ab := w.ab + Sends(a, b, w.pcA, w.madeA, act))
  }

  function ActAtB(a: Id, b: Id, w: Pair, act: Act): Pair {
    w.(pcB := LinkAfter(b, a, w.pcB, w.madeB, act), ba := w.ba + Sends(b, a, w.pcB, w.madeB, act))
  }

  function Moved(a: Id, b: Id, w: Pair, c: Choice): Pair
    requires c.RecvAtA? ==> w.ba != []
    requires c.RecvAtB? ==> w.ab != []
  {
    match c
    case RebuildA => ActAtA(a, b, w, Rebuild).(madeA := w.madeA + 1)
    case RebuildB => ActAtB(a, b, w, Rebuild).(madeB := w.madeB + 1)
    case SeeB => ActAtB(a, b, w, See)
    case RecvAtA => ActAtA(a, b, w.(ba := w.ba[1..]), Take(w.ba[0]))
    case RecvAtB => ActAtB(a, b, w.(ab := w.ab[1..]), Take(w.ab[0]))
  }

  predicate HasOffer(q: seq<Signal>) {
    exists s :: s in q && s.OfferSig?
  }

  ghost function Step(a: Id, b: Id, w: Pair, c: Choice): Pair
    requires c.RecvAtA? ==> w.ba != []
    requires c.RecvAtB? ==> w.ab != []
  {
    var m := Moved(a, b, w, c);
    m.(crossed := w.crossed || (HasOffer(m.ab) && HasOffer(m.ba)))
  }

  /** The run is possible when each side rebuilds at most `most` times. */
  ghost predicate Possible(a: Id, b: Id, w: Pair, most: nat, cs: seq<Choice>)
    decreases |cs|
  {
    cs == [] || (Enabled(w, most, cs[0]) && Possible(a, b, Step(a, b, w, cs[0]), most, cs[1..]))
  }

  ghost function Run(a: Id, b: Id, w: Pair, most: nat, cs: seq<Choice>): Pair
    requires Possible(a, b, w, most, cs)
    decreases |cs|
  {
    if cs == [] then w else Run(a, b, Step(a, b, w, cs[0]), most, cs[1..])
  }

  // ---- the shapes a round can be in when each side rebuilds at most once ----

  predicate Shape(a: Id, b: Id, w: Pair) {
    var oa, ob := OfferId(a, 0), OfferId(b, 0);
    var A, B, XA, XB := OfferSig(oa), OfferSig(ob), AnswerSig(oa), AnswerSig(ob);
    var offA, offB, onA, onB := Some(Offering(oa)), Some(Offering(ob)), Some(SettledOn(oa)), Some(SettledOn(ob));
    && w.madeA <= 1 && w.madeB <= 1
    && (w.crossed ==> w.madeA == 1 && w.madeB == 1)
    && var uncrossed := !w.crossed;
       || (uncrossed && Idle(w.pcA) && Idle(w.pcB) && w.ab == [] && w.ba == [] && w.madeA == 0 && w.madeB == 0)
       || (uncrossed && w.pcA == offA && Idle(w.pcB) && w.ab == [A] && w.ba == [] && w.madeA == 1 && w.madeB == 0)
       || (w.pcA == offA && w.pcB == onA && w.ab == [] && w.ba == [XA] && w.madeA == 1)
       || (w.pcA == onA && w.pcB == onA && w.ab == [] && w.ba == [] && w.madeA == 1)
       || (uncrossed && w.pcA == onA && w.pcB == offB && w.ab == [] && w.ba == [B] && w.madeA == 1 && w.madeB == 1)
       || (uncrossed && w.pcA == onB && w.pcB == offB && w.ab == [XB] && w.ba == [] && w.madeB == 1)
       || (uncrossed && w.pcA == onB && w.pcB == onB && w.ab == [] && w.ba == [] && w.madeB == 1)
       || (uncrossed && w.pcA == offA && w.pcB == offB && w.ab == [] && w.ba == [XA, B] && w.madeA == 1 && w.madeB == 1)
       || (w.crossed && w.pcA == offA && w.pcB == offB && w.ab == [A] && w.ba == [B])
       || (w.crossed && w.pcA == offA && w.pcB == onA && w.ab == [] && w.ba == [B, XA])
       || (w.crossed && w.pcA == offA && w.pcB == offB && w.ab == [A] && w.ba == [])
       || (uncrossed && Idle(w.pcA) && w.pcB == offB && w.ab == [] && w.ba == [B] && w.madeA == 0 && w.madeB == 1)
       || (uncrossed && w.pcA == offA && w.pcB == offB && w.ab == [XB, A] && w.ba == [] && w.madeA == 1 && w.madeB == 1)
       || (uncrossed && w.pcA == offA && w.pcB == onB && w.ab == [A] && w.ba == [] && w.madeA == 1 && w.madeB == 1)
  }

  function Weight(s: Signal): nat {
    if s.OfferSig? then 2 else 1
  }

  function Load(q: seq<Signal>): nat {
    if q == [] then 0 else Weight(q[0]) + Load(q[1..])
  }

  function Measure(w: Pair, most: nat): int {
    3 * (most - w.madeA) + 3 * (most - w.madeB) + Load(w.ab) + Load(w.ba) + (if w.pcB.None? then 1 else 0)
  }

  lemma {:induction false} LoadOfSum(p: seq<Signal>, q: seq<Signal>)
    ensures Load(p + q) == Load(p) + Load(q)
  {
    if p == [] {
      assert p + q == q;
    } else {
      assert (p + q)[1..] == p[1..] + q;
      LoadOfSum(p[1..], q);
    }
  }

  /** Whatever the number of rebuilds allowed, every step uses something up. */
  lemma StepCosts(a: Id, b: Id, w: Pair, most: nat, c: Choice)
    requires Enabled(w, most, c)
    ensures Measure(Step(a, b, w, c), most) < Measure(w, most)
  {
    match c
    case RebuildA => LoadOfSum(w.ab, [OfferSig(OfferId(a, w.madeA))]);
    case RebuildB => LoadOfSum(w.ba, [OfferSig(OfferId(b, w.madeB))]);
    case SeeB => assert w.ba + [] == w.ba;
    case RecvAtA => LoadOfSum(w.ab, Sends(a, b, w.pcA, w.madeA, Take(w.ba[0])));
    case RecvAtB => LoadOfSum(w.ba, Sends(b, a, w.pcB, w.madeB, Take(w.ab[0])));
  }

  lemma RebuildAKeepsShape(a: Id, b: Id, w: Pair)
    requires Less(a, b) && Shape(a, b, w) && w.madeA == 0
    ensures Shape(a, b, Step(a, b, w, RebuildA))
  {
    var m := Moved(a, b, w, RebuildA);
    assert w.ab == [] ==> m.ab == [OfferSig(OfferId(a, 0))];
    assert |w.ab| == 1 ==> m.ab == [w.ab[0], OfferSig(OfferId(a, 0))];
    assert m.ab[|w.ab|].OfferSig?;
    assert w.ba == [OfferSig(OfferId(b, 0))] ==> w.ba[0].OfferSig?;
  }

  lemma RebuildBKeepsShape(a: Id, b: Id, w: Pair)
    requires Less(a, b) && Shape(a, b, w) && w.madeB == 0
    ensures Shape(a, b, Step(a, b, w, RebuildB))
  {
    var m := Moved(a, b, w, RebuildB);
    assert w.ba == [] ==> m.ba == [OfferSig(OfferId(b, 0))];
    assert |w.ba| == 1 ==> m.ba == [w.ba[0], OfferSig(OfferId(b, 0))];
    assert m.ba[|w.ba|].OfferSig?;
    assert w.ab == [OfferSig(OfferId(a, 0))] ==> w.ab[0].OfferSig?;
  }

  lemma RecvAtAKeepsShape(a: Id, b: Id, w: Pair)
    requires Less(a, b) && Shape(a, b, w) && w.ba != []
    ensures Shape(a, b, Step(a, b, w, RecvAtA))
  {
    var m := Moved(a, b, w, RecvAtA);
    assert |w.ba| == 1 ==> m.ba == [];
    assert |w.ba| == 2 ==> m.ba == [w.ba[1]];
    assert w.ab == [] ==> m.ab == Sends(a, b, w.pcA, w.madeA, Take(w.ba[0]));
    assert Sends(a, b, w.pcA, w.madeA, Take(w.ba[0])) == [] ==> m.ab == w.ab;
  }

  lemma RecvAtBKeepsShape(a: Id, b: Id, w: Pair)
    requires Less(a, b) && Shape(a, b, w) && w.ab != []
    ensures Shape(a, b, Step(a, b, w, RecvAtB))
  {
    LessAsymmetric(a, b);
    var m := Moved(a, b, w, RecvAtB);
    assert |w.ab| == 1 ==> m.ab == [];
    assert |w.ab| == 2 ==> m.ab == [w.ab[1]];
    assert w.ba == [] ==> m.ba == Sends(b, a, w.pcB, w.madeB, Take(w.ab[0]));
    assert |w.ba| == 1 ==> m.ba == [w.ba[0]] + Sends(b, a, w.pcB, w.madeB, Take(w.ab[0]));
  }

  lemma StepKeepsShape(a: Id, b: Id, w: Pair, c: Choice)
    requires Less(a, b) && Shape(a, b, w) && Enabled(w, 1, c)
    ensures Shape(a, b, Step(a, b, w, c))
  {
    match c
    case RebuildA => RebuildAKeepsShape(a, b, w);
    case RebuildB => RebuildBKeepsShape(a, b, w);
    case SeeB =>
    case RecvAtA => RecvAtAKeepsShape(a, b, w);
    case RecvAtB => RecvAtBKeepsShape(a, b, w);
  }

  // ---- whole rounds ----

  lemma {:induction false} RunKeepsShape(a: Id, b: Id, w: Pair, cs: seq<Choice>)
    requires Less(a, b) && Shape(a, b, w) && Possible(a, b, w, 1, cs)
    ensures Shape(a, b, Run(a, b, w, 1, cs))
    decreases |cs|
  {
    if cs != [] {
      StepKeepsShape(a, b, w, cs[0]);
      RunKeepsShape(a, b, Step(a, b, w, cs[0]), cs[1..]);
    }
  }

  /** Every run is finite, for any number of rebuilds: no rebuild or reply loop exists. */
  lemma {:induction false} RunsAreShort(a: Id, b: Id, w: Pair, most: nat, cs: seq<Choice>)
    requires w.madeA <= most && w.madeB <= most && Possible(a, b, w, most, cs)
    ensures |cs| <= Measure(w, most) - Measure(Run(a, b, w, most, cs), most)
    decreases |cs|
  {
    if cs != [] {
      StepCosts(a, b, w, most, cs[0]);
      RunsAreShort(a, b, Step(a, b, w, cs[0]), most, cs[1..]);
    }
  }

  lemma {:induction false} SomeoneMoved(a: Id, b: Id, w: Pair, cs: seq<Choice>)
    requires Possible(a, b, w, 1, cs)
    ensures var v := Run(a, b, w, 1, cs);
            && v.madeA >= w.madeA && v.madeB >= w.madeB
            && (RebuildA in cs ==> v.madeA > w.madeA) && (RebuildB in cs ==> v.madeB > w.madeB)
            && (w.crossed ==> v.crossed)
    decreases |cs|
  {
    if cs != [] {
      SomeoneMoved(a, b, Step(a, b, w, cs[0]), cs[1..]);
    }
  }

  /**
   * From a quiescent pair, with at most one rebuild on each side: at most seven steps are possible;
   * once nothing is in flight and somebody has rebuilt, both sides are settled on one and the same
   * offer, which is the smaller id's whenever the two offers crossed on the wire. A run that can take
   * no further signal is one with nothing in flight.
   */
  lemma OneRoundConverges(a: Id, b: Id, w: Pair, cs: seq<Choice>)
    requires Less(a, b) && Quiescent(w) && Possible(a, b, w, 1, cs)
    ensures |cs| <= 7
    ensures Drained(Run(a, b, w, 1, cs)) <==>
              !Enabled(Run(a, b, w, 1, cs), 1, RecvAtA) && !Enabled(Run(a, b, w, 1, cs), 1, RecvAtB)
    ensures var v := Run(a, b, w, 1, cs);
            Drained(v) && (RebuildA in cs || RebuildB in cs) ==>
              && v.pcA == v.pcB
              && (v.pcA == Some(SettledOn(OfferId(a, 0))) || (!v.crossed && v.pcA == Some(SettledOn(OfferId(b, 0)))))
  {
    RunKeepsShape(a, b, w, cs);
    RunsAreShort(a, b, w, 1, cs);
    SomeoneMoved(a, b, w, cs);
    assert Load([]) == 0;
  }

  /** Some run leads from `w` to `v`. */
  ghost predicate MayEnd(a: Id, b: Id, w: Pair, most: nat, v: Pair) {
    exists cs :: Possible(a, b, w, most, cs) && Run(a, b, w, most, cs) == v
  }

  lemma StepMayEnd(a: Id, b: Id, w: Pair, most: nat, c: Choice, u: Pair, v: Pair)
    requires Enabled(w, most, c) && u == Step(a, b, w, c) && MayEnd(a, b, u, most, v)
    ensures MayEnd(a, b, w, most, v)
  {
    var cs :| Possible(a, b, u, most, cs) && Run(a, b, u, most, cs) == v;
    assert ([c] + cs)[1..] == cs;
    assert Possible(a, b, w, most, [c] + cs) && Run(a, b, w, most, [c] + cs) == v;
  }

  const UNLINKED := Pair(None, None, [], [], 0, 0, false)

  /** The smaller id's connection is the second offer's, completed by the first one's answer. */
  function Mixed(a: Id): PeerConn {
    PeerConn(Stable, true, Some(OfferId(a, 1)), Some(OfferId(a, 0)))
  }

  /** A pair after both rebuilds at the smaller id. */
  function AfterTwo(a: Id, pcA: PeerConn, pcB: Option<PeerConn>, ab: seq<Signal>, ba: seq<Signal>): Pair {
    Pair(Some(pcA), pcB, ab, ba, 2, 0, false)
  }

  lemma BothRebuilds(a: Id, b: Id)
    requires Less(a, b)
    ensures var o0, o1 := OfferId(a, 0), OfferId(a, 1);
            var w1 := Pair(Some(Offering(o0)), None, [OfferSig(o0)], [], 1, 0, false);
            && Step(a, b, UNLINKED, RebuildA) == w1
            && Step(a, b, w1, RebuildA) == AfterTwo(a, Offering(o1), None, [OfferSig(o0), OfferSig(o1)], [])
  {
    var o0 := OfferId(a, 0);
    assert [] + [OfferSig(o0)] == [OfferSig(o0)];
  }

  lemma BothOffersTaken(a: Id, b: Id)
    requires Less(a, b)
    ensures var o0, o1 := OfferId(a, 0), OfferId(a, 1);
            var w2 := AfterTwo(a, Offering(o1), None, [OfferSig(o0), OfferSig(o1)], []);
            var w3 := AfterTwo(a, Offering(o1), Some(SettledOn(o0)), [OfferSig(o1)], [AnswerSig(o0)]);
            && Step(a, b, w2, RecvAtB) == w3
            && Step(a, b, w3, RecvAtB) == AfterTwo(a, Offering(o1), Some(SettledOn(o1)), [],
                [AnswerSig(o0), AnswerSig(o1)])
  {
    LessAsymmetric(a, b);
  }

  lemma BothAnswersTaken(a: Id, b: Id)
    ensures var o0, o1 := OfferId(a, 0), OfferId(a, 1);
            var w4 := AfterTwo(a, Offering(o1), Some(SettledOn(o1)), [], [AnswerSig(o0), AnswerSig(o1)]);
            var w5 := AfterTwo(a, Mixed(a), Some(SettledOn(o1)), [], [AnswerSig(o1)]);
            && Step(a, b, w4, RecvAtA) == w5
            && Step(a, b, w5, RecvAtA) == AfterTwo(a, Mixed(a), Some(SettledOn(o1)), [], [])
  {
  }

  /**
   * One rebuild each is the exact limit: with two at the smaller id, the first answer completes the
   * second offer's connection, the second is refused there, and the two sides end on different answers.
   */
  lemma TwoRebuildsNeedNotAgree(a: Id, b: Id, most: nat)
    requires Less(a, b) && most >= 2
    ensures var end := AfterTwo(a, Mixed(a), Some(SettledOn(OfferId(a, 1))), [], []);
            Quiescent(UNLINKED) && Drained(end) && end.pcA != end.pcB && MayEnd(a, b, UNLINKED, most, end)
  {
    BothRebuilds(a, b);
    BothOffersTaken(a, b);
    BothAnswersTaken(a, b);
    var w1 := Step(a, b, UNLINKED, RebuildA);
    var w2 := Step(a, b, w1, RebuildA);
    var w3 := Step(a, b, w2, RecvAtB);
    var w4 := Step(a, b, w3, RecvAtB);
    var w5 := Step(a, b, w4, RecvAtA);
    var end := Step(a, b, w5, RecvAtA);
    assert Possible(a, b, end, most, []) && Run(a, b, end, most, []) == end;
    StepMayEnd(a, b, w5, most, RecvAtA, end, end);
    StepMayEnd(a, b, w4, most, RecvAtA, w5, end);
    StepMayEnd(a, b, w3, most, RecvAtB, w4, end);
    StepMayEnd(a, b, w2, most, RecvAtB, w3, end);
    StepMayEnd(a, b, w1, most, RebuildA, w2, end);
    StepMayEnd(a, b, UNLINKED, most, RebuildA, w1, end);
  }

  // ---- the watchdog ----

  /** The watchdog looks at the link from one side. */
  datatype Look = LookFromA(conn: ConnState) | LookFromB(conn: ConnState)

  function Watched(a: Id, b: Id, w: Pair, look: Look): Pair {
    match look
    case LookFromA(conn) => ActAtA(a, b, w, Watch(conn))
    case LookFromB(conn) => ActAtB(a, b, w, Watch(conn))
  }

  function WatchedAll(a: Id, b: Id, w: Pair, looks: seq<Look>): Pair {
    if looks == [] then w else Watched(a, b, WatchedAll(a, b, w, looks[..|looks| - 1]), looks[|looks| - 1])
  }

  /** Seeing a peer one has a link to already leaves the link alone at the larger id. */
  lemma SeeingKeepsTheLink(a: Id, b: Id, w: Pair)
    requires w.pcB.Some?
    ensures ActAtB(a, b, w, See) == w
  {}

  /**
   * Both ends have the other's description: however often the watchdog looks while ICE still runs, nothing is
   * torn down.
   */
  lemma {:induction false} RunningNegotiationIsLeftAlone(a: Id, b: Id, w: Pair, looks: seq<Look>)
    requires w.pcA.Some? && w.pcA.value.remoteSet && w.pcB.Some? && w.pcB.value.remoteSet
    requires forall look :: look in looks ==> look.conn.Negotiating?
    ensures WatchedAll(a, b, w, looks) == w
  {
    if looks != [] {
      var most, last := looks[..|looks| - 1], looks[|looks| - 1];
      RunningNegotiationIsLeftAlone(a, b, w, most);
      assert last in looks;
    }
  }

  /** A link that never got the other's description, or is over, is offered anew at the first look. */
  lemma LostOffersAreRetried(a: Id, b: Id, w: Pair, conn: ConnState)
    requires w.pcA.None? || !w.pcA.value.remoteSet || conn.Over?
    ensures var v := Watched(a, b, w, LookFromA(conn));
            && v.ab == w.ab + [OfferSig(OfferId(a, w.madeA))]
            && v.pcA == Some(PeerConn(HaveLocalOffer, false, Some(OfferId(a, w.madeA)), None))
            && v.pcB == w.pcB && v.ba == w.ba
  {}
}
