/** How far ahead a room may be when its authority joins late: exactly the bound, with the runs that fail beyond it. */
module ConvergenceBound {
  import opened Wrappers
  import opened Ids
  import opened Words
  import opened Aead
  import opened GroupAudio
  import opened RoomKeys
  import opened Convergence

  /** With initial generations up to `top`, nothing ever stalls and everything settles in agreement. */
  ghost predicate AlwaysConverges(top: nat) {
    forall w: World, a: Id, chs: seq<Choice> ::
      Start(w, a, top) && |w.ids| >= 2 && Run(w, chs) ==> Converges(w, a, top, chs)
  }

  ghost predicate Converges(w: World, a: Id, top: nat, chs: seq<Choice>)
    requires Run(w, chs)
  {
    var w' := Last(w, chs);
    && a in w'.nodes
    && ((forall ch :: !Enabled(w', ch)) ==> Quiet(w'))
    && (w'.bag == [] ==> Agreed(w', a, top))
  }

  /** Nothing is left to happen, and somebody does not hold the authority's key. */
  ghost predicate Disagrees(w: World, a: Id) {
    Quiet(w) && a in w.nodes && exists m :: m in w.nodes && w.nodes[m].ring.cur != w.nodes[a].ring.cur
  }

  /** Some run leads from `w` to a settled disagreement. */
  ghost predicate MayDisagree(w: World, a: Id) {
    exists chs :: Run(w, chs) && Disagrees(Last(w, chs), a)
  }

  lemma AlreadyDisagrees(w: World, a: Id)
    requires Disagrees(w, a)
    ensures MayDisagree(w, a)
  {
    assert Run(w, []) && Last(w, []) == w;
  }

  lemma StepMayDisagree(w: World, ch: Choice, v: World, a: Id)
    requires Enabled(w, ch) && Step(w, ch) == v && MayDisagree(v, a)
    ensures MayDisagree(w, a)
  {
    var rest :| Run(v, rest) && Disagrees(Last(v, rest), a);
    assert ([ch] + rest)[1..] == rest;
    assert Run(w, [ch] + rest) && Last(w, [ch] + rest) == Last(v, rest);
  }

  // ---- three nodes: the authority, a member holding a key, and one that holds none ----

  function Trio(a: Id, m: Id, t: Id, ca: Coord, cm: Coord, ct: Coord, bag: seq<Event>): World {
    World([a, m, t], map[a := ca, m := cm, t := ct], bag)
  }

  ghost predicate Three(a: Id, m: Id, t: Id) {
    Less(a, m) && Less(a, t) && m != t
  }

  lemma TrioMembers(a: Id, m: Id, t: Id, ca: Coord, cm: Coord, ct: Coord, bag: seq<Event>)
    requires Three(a, m, t)
    ensures var w := Trio(a, m, t, ca, cm, ct, bag);
            Members(w, a) == {m, t} && Members(w, m) == {a, t} && Members(w, t) == {a, m}
    ensures a != m && a != t && !Less(m, a) && !Less(t, a)
  {
    LessAsymmetric(a, m);
    LessAsymmetric(a, t);
  }

  /** Settled on a first key. */
  function Settled(me: Id, k: RoomKey, mints: nat): Coord {
    Coord(me, Ring(Some(k), Some(k), []), k.gen, [], mints)
  }

  lemma SettledIsCoherent(me: Id, k: RoomKey, mints: nat)
    ensures Coherent(Settled(me, k, mints))
  {
    assert Settled(me, k, mints).ring.Keys() == [k];
    assert FindGen([k], k.gen) == Some(k);
  }

  lemma FirstKeySettles(c: Coord, k: RoomKey)
    requires c.ring == NO_KEYS && c.due == [] && c.roomGen <= k.gen
    ensures Adopted(c, k) == Settled(c.me, k, c.mints)
  {
    assert Staged(NO_KEYS, k).Keys() == [k];
    assert FindGen([k], k.gen) == Some(k);
  }

  lemma TakeFirst(e: Event, rest: seq<Event>)
    ensures ([e] + rest)[0] == e && Without([e] + rest, 0) == rest
  {}

  lemma TakeLast(e: Event, rest: seq<Event>)
    ensures (rest + [e])[|rest|] == e && Without(rest + [e], |rest|) == rest
  {}

  // What one event does to the three, whatever else is under way.

  lemma MemberReports(a: Id, m: Id, t: Id, ca: Coord, cm: Coord, ct: Coord, rest: seq<Event>)
    requires Three(a, m, t) && cm.me == m && cm.ring.cur.Some?
    ensures var w := Trio(a, m, t, ca, cm, ct, [SecureAt(m, a)] + rest);
            Enabled(w, Take(0, [])) &&
            Step(w, Take(0, [])) == Trio(a, m, t, ca, cm, ct, rest + [GenMsg(a, m, cm.ring.cur.value.gen)])
  {
    TakeFirst(SecureAt(m, a), rest);
    TrioMembers(a, m, t, ca, cm, ct, [SecureAt(m, a)] + rest);
    assert SecureActions(cm, a, {a, t}) == [SendGen(a, cm.ring.cur.value.gen)];
    OnWireOne(m, SendGen(a, cm.ring.cur.value.gen));
  }

  /** The report is processed before any session with the authority is up at its side. */
  lemma AuthorityHears(a: Id, m: Id, t: Id, gen: U32, cm: Coord, ct: Coord, rest: seq<Event>)
    requires Three(a, m, t) && SecureAt(a, m) in rest && SecureAt(a, t) in rest
    ensures var w := Trio(a, m, t, New(a), cm, ct, rest + [GenMsg(a, m, gen)]);
            Enabled(w, Take(|rest|, [])) &&
            Step(w, Take(|rest|, [])) == Trio(a, m, t, AfterRoomGen(New(a), m, gen, {m, t}), cm, ct, rest)
  {
    var w := Trio(a, m, t, New(a), cm, ct, rest + [GenMsg(a, m, gen)]);
    TakeLast(GenMsg(a, m, gen), rest);
    TrioMembers(a, m, t, New(a), cm, ct, w.bag);
    assert Sessions(w, a, []);
    assert RoomGenActions(New(a), m, gen, {m, t}, []) == [];
    assert rest + OnWire(a, []) == rest;
  }

  lemma AuthorityHandsOut(a: Id, m: Id, t: Id, peer: Id, ca: Coord, cm: Coord, ct: Coord, k1: RoomKey, rest: seq<Event>)
    requires Three(a, m, t) && ca.me == a && AfterSecure(ca, {m, t}).ring.cur == Some(k1)
    ensures var w := Trio(a, m, t, ca, cm, ct, [SecureAt(a, peer)] + rest);
            Enabled(w, Take(0, [])) &&
            Step(w, Take(0, []))
            == Trio(a, m, t, AfterSecure(ca, {m, t}), cm, ct, rest + [KeyMsg(peer, a, k1.gen, k1.key)])
  {
    TakeFirst(SecureAt(a, peer), rest);
    TrioMembers(a, m, t, ca, cm, ct, [SecureAt(a, peer)] + rest);
    assert SecureActions(ca, peer, {m, t}) == [SendKey(peer, k1.gen, k1.key)];
    OnWireOne(a, SendKey(peer, k1.gen, k1.key));
  }

  lemma KeylessIsSilent(a: Id, m: Id, t: Id, ca: Coord, cm: Coord, rest: seq<Event>)
    requires Three(a, m, t)
    ensures var w := Trio(a, m, t, ca, cm, New(t), [SecureAt(t, a)] + rest);
            Enabled(w, Take(0, [])) && Step(w, Take(0, [])) == Trio(a, m, t, ca, cm, New(t), rest)
  {
    TakeFirst(SecureAt(t, a), rest);
    TrioMembers(a, m, t, ca, cm, New(t), [SecureAt(t, a)] + rest);
    assert SecureActions(New(t), a, {a, m}) == [];
    assert rest + OnWire(t, []) == rest;
  }

  lemma MemberGetsKey(a: Id, m: Id, t: Id, ca: Coord, cm: Coord, ct: Coord, k1: RoomKey, rest: seq<Event>)
    requires Three(a, m, t)
    ensures var w := Trio(a, m, t, ca, cm, ct, [KeyMsg(m, a, k1.gen, k1.key)] + rest);
            Enabled(w, Take(0, [])) &&
            Step(w, Take(0, [])) == Trio(a, m, t, ca, AfterRoomKey(cm, a, k1.gen, k1.key, {a, t}), ct, rest)
  {
    TakeFirst(KeyMsg(m, a, k1.gen, k1.key), rest);
    TrioMembers(a, m, t, ca, cm, ct, [KeyMsg(m, a, k1.gen, k1.key)] + rest);
  }

  lemma KeylessGetsKey(a: Id, m: Id, t: Id, ca: Coord, cm: Coord, ct: Coord, k1: RoomKey, rest: seq<Event>)
    requires Three(a, m, t)
    ensures var w := Trio(a, m, t, ca, cm, ct, [KeyMsg(t, a, k1.gen, k1.key)] + rest);
            Enabled(w, Take(0, [])) &&
            Step(w, Take(0, [])) == Trio(a, m, t, ca, cm, AfterRoomKey(ct, a, k1.gen, k1.key, {a, m}), rest)
  {
    TakeFirst(KeyMsg(t, a, k1.gen, k1.key), rest);
    TrioMembers(a, m, t, ca, cm, ct, [KeyMsg(t, a, k1.gen, k1.key)] + rest);
  }

  // ---- the run: report first, then the sessions, then the keys ----

  function SessionsUp(a: Id, m: Id, t: Id): seq<Event> {
    [SecureAt(a, m)] + ([SecureAt(a, t)] + [SecureAt(t, a)])
  }

  function Opening(a: Id, m: Id, t: Id, k: RoomKey): World {
    Trio(a, m, t, New(a), Settled(m, k, 0), New(t), [SecureAt(m, a)] + SessionsUp(a, m, t))
  }

  lemma SessionsAreUp(a: Id, m: Id, t: Id)
    ensures var bag := [SecureAt(m, a)] + SessionsUp(a, m, t);
            && SecureAt(a, m) in SessionsUp(a, m, t) && SecureAt(a, t) in SessionsUp(a, m, t)
            && SecureAt(a, m) in bag && SecureAt(m, a) in bag && SecureAt(a, t) in bag && SecureAt(t, a) in bag
            && forall e :: e in bag ==>
                 e == SecureAt(m, a) || e == SecureAt(a, m) || e == SecureAt(a, t) || e == SecureAt(t, a)
  {
    var bag := [SecureAt(m, a)] + SessionsUp(a, m, t);
    assert SessionsUp(a, m, t)[0] == SecureAt(a, m) && SessionsUp(a, m, t)[1] == SecureAt(a, t);
    assert bag[0] == SecureAt(m, a) && bag[1] == SecureAt(a, m) && bag[2] == SecureAt(a, t) && bag[3] == SecureAt(t, a);
  }

  lemma TrioIds(a: Id, m: Id, t: Id, ca: Coord, cm: Coord, ct: Coord, bag: seq<Event>)
    requires Three(a, m, t)
    ensures var w := Trio(a, m, t, ca, cm, ct, bag);
            Distinct(w.ids) && Least(w, a) && forall id ::
                (id in w.nodes <==> id in w.ids) && (id in w.ids <==> id == a || id == m || id == t)
  {
    LessAsymmetric(a, m);
    LessAsymmetric(a, t);
  }

  lemma TrioNodes(a: Id, m: Id, t: Id, ca: Coord, cm: Coord, ct: Coord, bag: seq<Event>)
    requires Three(a, m, t) && ca.me == a && cm.me == m && ct.me == t
    requires ca.roomGen == ca.GenOrZero() && cm.roomGen == cm.GenOrZero() && ct.roomGen == ct.GenOrZero()
    ensures Nodes(Trio(a, m, t, ca, cm, ct, bag), a)
  {
    TrioIds(a, m, t, ca, cm, ct, bag);
    TrioMembers(a, m, t, ca, cm, ct, bag);
  }

  lemma OpeningIsCoherent(a: Id, m: Id, t: Id, k: RoomKey)
    requires Three(a, m, t)
    ensures AllCoherent(Opening(a, m, t, k))
  {
    var w := Opening(a, m, t, k);
    TrioIds(a, m, t, New(a), Settled(m, k, 0), New(t), w.bag);
    forall id | id in w.nodes ensures Coherent(w.nodes[id]) {
      if id == m {
        SettledIsCoherent(m, k, 0);
      } else {
        NewIsCoherent(id);
      }
    }
  }

  lemma OpeningBag(a: Id, m: Id, t: Id, k: RoomKey)
    requires Three(a, m, t)
    ensures var w := Opening(a, m, t, k);
            && (forall e :: e in w.bag ==> e.SecureAt? && e.at in w.ids && e.peer in w.ids && e.at != e.peer)
            && forall x :: x in w.ids && x != a ==> SecureAt(a, x) in w.bag && SecureAt(x, a) in w.bag
  {
    TrioIds(a, m, t, New(a), Settled(m, k, 0), New(t), Opening(a, m, t, k).bag);
    TrioMembers(a, m, t, New(a), Settled(m, k, 0), New(t), Opening(a, m, t, k).bag);
    SessionsAreUp(a, m, t);
  }

  lemma OpeningKeys(a: Id, m: Id, t: Id, k: RoomKey)
    requires Three(a, m, t)
    ensures var w := Opening(a, m, t, k);
            w.nodes[a] == New(a) && forall x :: x in w.nodes && w.nodes[x].ring.cur.Some? ==>
                w.nodes[x].ring.cur.value == k
  {
    TrioMembers(a, m, t, New(a), Settled(m, k, 0), New(t), Opening(a, m, t, k).bag);
  }

  lemma OpeningIsStart(a: Id, m: Id, t: Id, k: RoomKey)
    requires Three(a, m, t) && k.auth == m
    ensures Start(Opening(a, m, t, k), a, k.gen)
  {
    TrioNodes(a, m, t, New(a), Settled(m, k, 0), New(t), Opening(a, m, t, k).bag);
    OpeningIsCoherent(a, m, t, k);
    OpeningBag(a, m, t, k);
    OpeningKeys(a, m, t, k);
  }

  /** The authority's key by the time it hands one out: above the report if that is within the bound, else the first. */
  function FirstKey(a: Id, gen: U32): RoomKey {
    RoomKey(if gen == ROOM_GEN_BOUND then 1025 else 1, a, KeyBytes(a, 0))
  }

  lemma AuthorityAfterReport(a: Id, m: Id, t: Id, gen: U32)
    requires Three(a, m, t) && gen >= ROOM_GEN_BOUND
    ensures var ca := AfterRoomGen(New(a), m, gen, {m, t});
            ca.me == a && AfterSecure(ca, {m, t}) == Settled(a, FirstKey(a, gen), 1)
  {
    FirstKeySettles(New(a).(roomGen := 1, mints := 1), RoomKey(1, a, KeyBytes(a, 0)));
    FirstKeySettles(New(a).(roomGen := 1024, mints := 1), RoomKey(1025, a, KeyBytes(a, 0)));
  }

  /** Once the keys arrive: at 1024 the keyless node refuses, above it the member does. */
  lemma SomeoneRefuses(a: Id, m: Id, t: Id, k: RoomKey)
    requires Three(a, m, t) && k.auth == m && k.gen >= ROOM_GEN_BOUND
    ensures var k1 := FirstKey(a, k.gen);
            && (k.gen == ROOM_GEN_BOUND ==>
                  && AfterRoomKey(New(t), a, k1.gen, k1.key, {a, m}) == New(t)
                  && AfterRoomKey(Settled(m, k, 0), a, k1.gen, k1.key, {a, t})
                     == Coord(m, Ring(Some(k), Some(k1), [k]), 1025, [1025], 0))
            && (k.gen > ROOM_GEN_BOUND ==>
                  && AfterRoomKey(Settled(m, k, 0), a, k1.gen, k1.key, {a, t}) == Settled(m, k, 0)
                  && AfterRoomKey(New(t), a, k1.gen, k1.key, {a, m}) == Settled(t, k1, 0))
  {
    var k1 := FirstKey(a, k.gen);
    FirstKeySettles(New(t), k1);
    assert Truncated([k] + []) == [k];
  }

  lemma LastPromotion(a: Id, m: Id, t: Id, k: RoomKey, k1: RoomKey)
    requires Three(a, m, t) && k.gen == ROOM_GEN_BOUND && k1.gen == 1025
    ensures MayDisagree(Trio(a, m, t, Settled(a, k1, 1), Coord(m, Ring(Some(k), Some(k1), [k]), 1025, [1025], 0),
            New(t), []), a)
  {
    var waiting := Coord(m, Ring(Some(k), Some(k1), [k]), 1025, [1025], 0);
    var sealing := Coord(m, Ring(Some(k1), Some(k1), [k]), 1025, [], 0);
    PromotesNewest(m, k, k1);
    TrioMembers(a, m, t, New(a), New(m), New(t), []);
    var w := Trio(a, m, t, Settled(a, k1, 1), waiting, New(t), []);
    var v := Trio(a, m, t, Settled(a, k1, 1), sealing, New(t), []);
    assert v.nodes[t].ring.cur != v.nodes[a].ring.cur;
    AlreadyDisagrees(v, a);
    StepMayDisagree(w, Promote(m), v, a);
  }

  lemma PromotesNewest(m: Id, k: RoomKey, k1: RoomKey)
    requires k1.gen == 1025
    ensures AfterPromotion(Coord(m, Ring(Some(k), Some(k1), [k]), 1025, [1025], 0))
         == Coord(m, Ring(Some(k1), Some(k1), [k]), 1025, [], 0)
  {
    assert Ring(Some(k), Some(k1), [k]).Keys() == [k1, k];
  }

  /** With the keys delivered, one promotion at most is left, and the disagreement stands. */
  lemma KeysDelivered(a: Id, m: Id, t: Id, k: RoomKey)
    requires Three(a, m, t) && k.auth == m && k.gen >= ROOM_GEN_BOUND
    ensures var k1 := FirstKey(a, k.gen);
            MayDisagree(Trio(a, m, t, Settled(a, k1, 1), AfterRoomKey(Settled(m, k, 0), a, k1.gen, k1.key, {a, t}),
                             AfterRoomKey(New(t), a, k1.gen, k1.key, {a, m}), []), a)
  {
    var k1 := FirstKey(a, k.gen);
    SomeoneRefuses(a, m, t, k);
    if k.gen == ROOM_GEN_BOUND {
      LastPromotion(a, m, t, k, k1);
    } else {
      TrioMembers(a, m, t, New(a), New(m), New(t), []);
      var v := Trio(a, m, t, Settled(a, k1, 1), Settled(m, k, 0), Settled(t, k1, 0), []);
      assert v.nodes[m].ring.cur != v.nodes[a].ring.cur;
      AlreadyDisagrees(v, a);
    }
  }

  lemma KeysOnTheWay(a: Id, m: Id, t: Id, k: RoomKey)
    requires Three(a, m, t) && k.auth == m && k.gen >= ROOM_GEN_BOUND
    ensures var k1 := FirstKey(a, k.gen);
            MayDisagree(Trio(a, m, t, Settled(a, k1, 1), Settled(m, k, 0), New(t),
                             [KeyMsg(m, a, k1.gen, k1.key)] + ([KeyMsg(t, a, k1.gen, k1.key)] + [])), a)
  {
    var k1 := FirstKey(a, k.gen);
    var ca, cm := Settled(a, k1, 1), Settled(m, k, 0);
    var cm', ct' := AfterRoomKey(cm, a, k1.gen, k1.key, {a, t}), AfterRoomKey(New(t), a, k1.gen, k1.key, {a, m});
    var toM, toT := KeyMsg(m, a, k1.gen, k1.key), KeyMsg(t, a, k1.gen, k1.key);
    KeysDelivered(a, m, t, k);
    KeylessGetsKey(a, m, t, ca, cm', New(t), k1, []);
    StepMayDisagree(Trio(a, m, t, ca, cm', New(t), [toT] + []), Take(0, []), Trio(a, m, t, ca, cm', ct', []), a);
    MemberGetsKey(a, m, t, ca, cm, New(t), k1, [toT] + []);
    StepMayDisagree(Trio(a, m, t, ca, cm, New(t), [toM] + ([toT] + [])), Take(0, []),
                    Trio(a, m, t, ca, cm', New(t), [toT] + []), a);
  }

  lemma ThreeInARow(x: Event, y: Event, z: Event)
    ensures [x] + [y] + [z] == [x] + ([y] + ([z] + []))
  {}

  lemma KeepsItsKey(a: Id, k1: RoomKey, members: set<Id>)
    ensures AfterSecure(Settled(a, k1, 1), members) == Settled(a, k1, 1)
  {}

  /** The authority's second session is up, then the keyless node's. */
  lemma SecondSession(a: Id, m: Id, t: Id, k: RoomKey)
    requires Three(a, m, t) && k.auth == m && k.gen >= ROOM_GEN_BOUND
    ensures var k1 := FirstKey(a, k.gen);
            MayDisagree(Trio(a, m, t, Settled(a, k1, 1), Settled(m, k, 0), New(t),
                             [SecureAt(a, t)] + ([SecureAt(t, a)] + [KeyMsg(m, a, k1.gen, k1.key)])), a)
  {
    var k1 := FirstKey(a, k.gen);
    var ca, cm := Settled(a, k1, 1), Settled(m, k, 0);
    var toM, toT := KeyMsg(m, a, k1.gen, k1.key), KeyMsg(t, a, k1.gen, k1.key);
    var b2, b3 := [SecureAt(t, a)] + ([toM] + ([toT] + [])), [toM] + ([toT] + []);
    KeysOnTheWay(a, m, t, k);
    KeylessIsSilent(a, m, t, ca, cm, b3);
    StepMayDisagree(Trio(a, m, t, ca, cm, New(t), b2), Take(0, []), Trio(a, m, t, ca, cm, New(t), b3), a);
    KeepsItsKey(a, k1, {m, t});
    AuthorityHandsOut(a, m, t, t, ca, cm, New(t), k1, [SecureAt(t, a)] + [toM]);
    ThreeInARow(SecureAt(t, a), toM, toT);
    StepMayDisagree(Trio(a, m, t, ca, cm, New(t), [SecureAt(a, t)] + ([SecureAt(t, a)] + [toM])), Take(0, []),
                    Trio(a, m, t, ca, cm, New(t), b2), a);
  }

  /** The authority, having dealt with the report, sees both its sessions come up. */
  lemma ReportDealtWith(a: Id, m: Id, t: Id, k: RoomKey)
    requires Three(a, m, t) && k.auth == m && k.gen >= ROOM_GEN_BOUND
    ensures MayDisagree(Trio(a, m, t, AfterRoomGen(New(a), m, k.gen, {m, t}), Settled(m, k, 0), New(t),
            SessionsUp(a, m, t)), a)
  {
    var k1 := FirstKey(a, k.gen);
    var c0, ca, cm := AfterRoomGen(New(a), m, k.gen, {m, t}), Settled(a, k1, 1), Settled(m, k, 0);
    var toM, rest := KeyMsg(m, a, k1.gen, k1.key), [SecureAt(a, t)] + [SecureAt(t, a)];
    AuthorityAfterReport(a, m, t, k.gen);
    SecondSession(a, m, t, k);
    AuthorityHandsOut(a, m, t, m, c0, cm, New(t), k1, rest);
    assert rest + [toM] == [SecureAt(a, t)] + ([SecureAt(t, a)] + [toM]);
    StepMayDisagree(Trio(a, m, t, c0, cm, New(t), SessionsUp(a, m, t)), Take(0, []),
        Trio(a, m, t, ca, cm, New(t), rest + [toM]), a);
  }

  /**
   * For every generation from 1024 on, a room with a member at it can settle in disagreement. At
   * 1024 the authority's first key is 1025, one more than a keyless node takes, and such a node has
   * nothing to report; above, the report is not heeded and the authority begins at 1.
   */
  lemma TooFarAheadMayDisagree(a: Id, m: Id, t: Id, k: RoomKey)
    requires Three(a, m, t) && k.auth == m && k.gen >= ROOM_GEN_BOUND
    ensures Start(Opening(a, m, t, k), a, k.gen) && MayDisagree(Opening(a, m, t, k), a)
  {
    var cm, up := Settled(m, k, 0), SessionsUp(a, m, t);
    OpeningIsStart(a, m, t, k);
    SessionsAreUp(a, m, t);
    ReportDealtWith(a, m, t, k);
    AuthorityHears(a, m, t, k.gen, cm, New(t), up);
    StepMayDisagree(Trio(a, m, t, New(a), cm, New(t), up + [GenMsg(a, m, k.gen)]), Take(|up|, []),
                    Trio(a, m, t, AfterRoomGen(New(a), m, k.gen, {m, t}), cm, New(t), up), a);
    MemberReports(a, m, t, New(a), cm, New(t), up);
    StepMayDisagree(Opening(a, m, t, k), Take(0, []), Trio(a, m, t, New(a), cm, New(t), up + [GenMsg(a, m, k.gen)]), a);
  }

  // ---- exactly the bound ----

  lemma StartWidens(w: World, a: Id, low: nat, high: nat)
    requires Start(w, a, low) && low <= high
    ensures Start(w, a, high)
  {}

  lemma DisagreementRefutes(w: World, a: Id, top: nat)
    requires Start(w, a, top) && |w.ids| >= 2 && MayDisagree(w, a)
    ensures !AlwaysConverges(top)
  {
    var chs :| Run(w, chs) && Disagrees(Last(w, chs), a);
    assert !Converges(w, a, top, chs);
  }

  /** Every room converges on every run if and only if no initial generation exceeds 1023. */
  lemma ConvergesIff(top: nat)
    ensures AlwaysConverges(top) <==> top <= 1023
  {
    if top <= 1023 {
      forall w: World, a: Id, chs: seq<Choice> | Start(w, a, top) && |w.ids| >= 2 && Run(w, chs)
        ensures Converges(w, a, top, chs)
      {
        LateAuthorityConverges(w, a, top, chs);
      }
    } else {
      var k := RoomKey(1024, "b", KeyBytes("b", 0));
      assert "a"[0] < "b"[0] && "a"[0] < "c"[0] && "b"[0] != "c"[0];
      TooFarAheadMayDisagree("a", "b", "c", k);
      StartWidens(Opening("a", "b", "c", k), "a", 1024, top);
      DisagreementRefutes(Opening("a", "b", "c", k), "a", top);
    }
  }
}
