/**
 * A room of any number of nodes with one fixed membership, whose smallest id, the key authority,
 * joined last and holds no key. Every pairwise session between the authority and a member comes up
 * on both sides; messages, session events and promotions interleave freely and none is lost.
 */
module Convergence {
  import opened Wrappers
  import opened Ids
  import opened Words
  import opened Aead
  import opened GroupAudio
  import opened RoomKeys

  /** What is still to be processed: a session coming up at one side, or a message on its way. */
  datatype Event =
    | SecureAt(at: Id, peer: Id)
    | KeyMsg(to: Id, from: Id, gen: U32, key: KeyBytes)
    | GenMsg(to: Id, from: Id, gen: U32)

  datatype World = World(ids: seq<Id>, nodes: map<Id, Coord>, bag: seq<Event>)

  /** Process event `i` (`secure` is who the receiver then has a session with), or deliver a promotion. */
  datatype Choice = Take(i: nat, secure: seq<Id>) | Promote(at: Id)

  function Members(w: World, id: Id): set<Id> {
    set x | x in w.ids && x != id
  }

  function OnWire(from: Id, actions: seq<KeyAction>): seq<Event> {
    seq(|actions|, i requires 0 <= i < |actions| =>
      match actions[i]
      case SendKey(peer, gen, key) => KeyMsg(peer, from, gen, key)
      case SendGen(peer, gen) => GenMsg(peer, from, gen))
  }

  function Without(s: seq<Event>, i: nat): seq<Event>
    requires i < |s|
  {
    s[..i] + s[i + 1..]
  }

  ghost predicate Distinct(s: seq<Id>) {
    forall i, j :: 0 <= i < j < |s| ==> s[i] != s[j]
  }

  /** The sessions `at` may have: with members only, and with all whose session has been reported to it. */
  ghost predicate Sessions(w: World, at: Id, secure: seq<Id>) {
    && Distinct(secure)
    && (forall m :: m in secure ==> m in Members(w, at))
    && (forall m :: m in Members(w, at) && SecureAt(at, m) !in w.bag ==> m in secure)
  }

  function Receiver(e: Event): Id {
    if e.SecureAt? then e.at else e.to
  }

  ghost predicate Enabled(w: World, ch: Choice) {
    match ch
    case Take(i, secure) =>
      i < |w.bag| && Receiver(w.bag[i]) in w.nodes && (w.bag[i].GenMsg? ==> Sessions(w, w.bag[i].to, secure))
    case Promote(at) => at in w.nodes && w.nodes[at].due != []
  }

  function Step(w: World, ch: Choice): World
    requires ch.Take? ==> ch.i < |w.bag| && Receiver(w.bag[ch.i]) in w.nodes
    requires ch.Promote? ==> ch.at in w.nodes
  {
    match ch
    case Promote(at) => w.(nodes := w.nodes[at := AfterPromotion(w.nodes[at])])
    case Take(i, secure) =>
      var rest := Without(w.bag, i);
      match w.bag[i]
      case SecureAt(at, peer) =>
        var c, ms := w.nodes[at], Members(w, at);
        w.(nodes := w.nodes[at := AfterSecure(c, ms)], bag := rest + OnWire(at, SecureActions(c, peer, ms)))
      case KeyMsg(to, from, gen, key) =>
        w.(nodes := w.nodes[to := AfterRoomKey(w.nodes[to], from, gen, key, Members(w, to))], bag := rest)
      case GenMsg(to, from, gen) =>
        var c, ms := w.nodes[to], Members(w, to);
        w.(nodes := w.nodes[to := AfterRoomGen(c, from, gen, ms)],
           bag := rest + OnWire(to, RoomGenActions(c, from, gen, ms, secure)))
  }

  ghost predicate Run(w: World, chs: seq<Choice>)
    decreases |chs|
  {
    chs != [] ==> Enabled(w, chs[0]) && Run(Step(w, chs[0]), chs[1..])
  }

  ghost function Last(w: World, chs: seq<Choice>): World
    requires Run(w, chs)
    decreases |chs|
  {
    if chs == [] then w else Last(Step(w, chs[0]), chs[1..])
  }

  // ---- the invariant ----

  ghost predicate Least(w: World, a: Id) {
    a in w.ids && forall m :: m in w.ids && m != a ==> Less(a, m)
  }

  /** Is (gen, key) a key the authority has minted, the staged one if of the staged generation? */
  predicate MintedBy(c: Coord, gen: U32, key: KeyBytes) {
    c.ring.cur.Some? && (gen < c.roomGen || (gen == c.roomGen && key == c.ring.cur.value.key))
  }

  ghost predicate Nodes(w: World, a: Id) {
    && Distinct(w.ids)
    && Least(w, a)
    && (forall id :: id in w.nodes <==> id in w.ids)
    && (forall id :: id in w.nodes ==> w.nodes[id].me == id && w.nodes[id].roomGen == w.nodes[id].GenOrZero())
  }

  ghost predicate AllCoherent(w: World) {
    forall id :: id in w.nodes ==> Coherent(w.nodes[id])
  }

  /** The staged key of `m`, if any, is the authority's or an initial one of generation at most `top`. */
  ghost predicate Labelled(w: World, a: Id, top: nat, m: Id)
    requires a in w.nodes && m in w.nodes
  {
    w.nodes[m].ring.cur.Some? ==>
      var k := w.nodes[m].ring.cur.value;
      if k.auth == a then MintedBy(w.nodes[a], k.gen, k.key) else m != a && Less(a, k.auth) && k.gen <= top
  }

  ghost predicate Expected(w: World, a: Id, top: nat, e: Event)
    requires a in w.nodes
  {
    match e
    case SecureAt(at, peer) => at in w.ids && peer in w.ids && at != peer
    case KeyMsg(to, from, gen, key) => to in w.ids && to != a && from == a && MintedBy(w.nodes[a], gen, key)
    case GenMsg(to, from, gen) => to == a && from in w.ids && from != a && (gen <= w.nodes[a].roomGen || gen <= top)
  }

  /** `m` is not ahead of the authority, or word of it is due or on its way. */
  ghost predicate Reported(w: World, a: Id, m: Id)
    requires a in w.nodes && m in w.nodes
  {
    var c := w.nodes[m];
    || c.ring.cur.None?
    || c.roomGen <= w.nodes[a].roomGen
    || SecureAt(m, a) in w.bag
    || GenMsg(a, m, c.roomGen) in w.bag
  }

  /** `m` has the authority's key, or it is on its way, or it is ahead. */
  ghost predicate Served(w: World, a: Id, m: Id)
    requires a in w.nodes && m in w.nodes
  {
    var c, k := w.nodes[m], w.nodes[a].ring.cur;
    || SecureAt(a, m) in w.bag
    || (k.Some? &&
        (|| c.ring.cur == k
         || KeyMsg(m, a, k.value.gen, k.value.key) in w.bag
         || (c.ring.cur.Some? && c.roomGen > w.nodes[a].roomGen)))
  }

  function Ceiling(top: nat): nat {
    if top == 0 then 1 else top + 1
  }

  ghost predicate Inv(w: World, a: Id, top: nat) {
    && Nodes(w, a)
    && w.nodes[a].roomGen <= Ceiling(top)
    && (forall m :: m in w.nodes ==> Labelled(w, a, top, m))
    && (forall e :: e in w.bag ==> Expected(w, a, top, e))
    && (forall m :: m in w.nodes && m != a ==> Reported(w, a, m) && Served(w, a, m))
  }

  /**
   * The starting point: a keyless authority; the others keyless or holding a key whose label is
   * larger than the authority's id, of generation at most `top`; sessions about to be reported,
   * those between the authority and each member on both sides among them.
   */
  ghost predicate Start(w: World, a: Id, top: nat) {
    && Nodes(w, a)
    && AllCoherent(w)
    && w.nodes[a].ring.cur.None?
    && (forall m :: m in w.nodes && w.nodes[m].ring.cur.Some? ==>
          Less(a, w.nodes[m].ring.cur.value.auth) && w.nodes[m].ring.cur.value.gen <= top)
    && (forall e :: e in w.bag ==> e.SecureAt? && e.at in w.ids && e.peer in w.ids && e.at != e.peer)
    && (forall m :: m in w.ids && m != a ==> SecureAt(a, m) in w.bag && SecureAt(m, a) in w.bag)
  }

  lemma StartHasInv(w: World, a: Id, top: nat)
    requires Start(w, a, top)
    ensures Inv(w, a, top)
  {
    forall m | m in w.nodes && w.nodes[m].ring.cur.Some? ensures w.nodes[m].ring.cur.value.auth != a {
      LessIrreflexive(a);
    }
  }

  // ---- every step keeps it ----

  lemma InWithout(s: seq<Event>, i: nat)
    requires i < |s|
    ensures forall e :: e in Without(s, i) ==> e in s
    ensures forall e :: e in s && e != s[i] ==> e in Without(s, i)
  {
    assert s == s[..i] + [s[i]] + s[i + 1..];
  }

  lemma Authority(w: World, a: Id, m: Id)
    requires Nodes(w, a) && m in w.ids
    ensures AmAuthority(m, Members(w, m)) <==> m == a
    ensures m != a ==> forall from :: from in w.ids && from != m ==>
            (IsAuthorityPeer(from, m, Members(w, m)) <==> from == a)
  {
    if m != a {
      LessAsymmetric(a, m);
      assert a in Members(w, m);
      forall from | from in w.ids && from != m && from != a ensures !IsAuthorityPeer(from, m, Members(w, m)) {
        LessAsymmetric(a, from);
      }
    }
  }

  lemma OnWireOne(from: Id, act: KeyAction)
    ensures OnWire(from, [act]) == (match act
                                    case SendKey(peer, gen, key) => [KeyMsg(peer, from, gen, key)]
                                    case SendGen(peer, gen) => [GenMsg(peer, from, gen)])
  {}

  lemma OnWireHandOut(from: Id, k: RoomKey, to: seq<Id>)
    ensures forall e :: e in OnWire(from, HandOut(k, to)) <==> exists m :: m in to && e == KeyMsg(m, from, k.gen, k.key)
    ensures |OnWire(from, HandOut(k, to))| == |to|
  {
    var es := OnWire(from, HandOut(k, to));
    assert forall i :: 0 <= i < |to| ==> es[i] == KeyMsg(to[i], from, k.gen, k.key);
    forall m | m in to ensures KeyMsg(m, from, k.gen, k.key) in es {
      var i :| 0 <= i < |to| && to[i] == m;
      assert es[i] == KeyMsg(m, from, k.gen, k.key);
    }
  }

  /** What a step that leaves every staged key alone must put in place of the event it consumes. */
  ghost predicate Answered(w: World, a: Id, e: Event)
    requires a in w.nodes
  {
    match e
    case SecureAt(at, peer) =>
      var k := w.nodes[a].ring.cur;
      && (at == a ==> k.Some? && KeyMsg(peer, a, k.value.gen, k.value.key) in w.bag)
      && (at != a && peer == a && at in w.nodes ==>
            w.nodes[at].ring.cur.None? || GenMsg(a, at, w.nodes[at].roomGen) in w.bag)
    case GenMsg(_, _, gen) => gen <= w.nodes[a].roomGen
    case KeyMsg(_, _, _, _) => false
  }

  predicate SameView(c: Coord, d: Coord) {
    c.me == d.me && c.ring.cur == d.ring.cur && c.roomGen == d.roomGen
  }

  lemma QuietStepKeeps(w: World, w': World, a: Id, top: nat, done: set<Event>)
    requires Inv(w, a, top)
    requires w'.ids == w.ids && w'.nodes.Keys == w.nodes.Keys
    requires forall id :: id in w.nodes ==> SameView(w'.nodes[id], w.nodes[id])
    requires forall e :: e in w'.bag ==> e in w.bag || Expected(w', a, top, e)
    requires forall e :: e in w.bag && e !in w'.bag ==> e in done
    requires forall e :: e in done ==> Answered(w', a, e)
    ensures Inv(w', a, top)
  {
    forall m | m in w'.nodes ensures Labelled(w', a, top, m) {
      assert Labelled(w, a, top, m);
    }
    forall e | e in w'.bag ensures Expected(w', a, top, e) {
      assert e in w.bag ==> Expected(w, a, top, e);
    }
    forall m | m in w'.nodes && m != a ensures Reported(w', a, m) && Served(w', a, m) {
      assert Reported(w, a, m) && Served(w, a, m);
    }
  }

  /** A member processes the authority's key message. */
  lemma KeyDelivered(w: World, a: Id, top: nat, i: nat, c': Coord)
    requires Inv(w, a, top) && i < |w.bag| && w.bag[i].KeyMsg?
    requires var KeyMsg(m, _, gen, key) := w.bag[i];
             && m in w.nodes && c'.me == m && c'.roomGen == c'.GenOrZero()
             && c'.ring.cur == if Accepts(w.nodes[m].ring, RoomKey(gen, a, key)) then Some(RoomKey(gen, a, key))
                 else w.nodes[m].ring.cur
    ensures Inv(w.(nodes := w.nodes[w.bag[i].to := c'], bag := Without(w.bag, i)), a, top)
  {
    var KeyMsg(m, from, gen, key) := w.bag[i];
    var w' := w.(nodes := w.nodes[m := c'], bag := Without(w.bag, i));
    assert Expected(w, a, top, w.bag[i]);
    InWithout(w.bag, i);
    assert Labelled(w, a, top, m) && Labelled(w, a, top, a);
    forall x | x in w'.nodes ensures Labelled(w', a, top, x) {
      assert Labelled(w, a, top, x);
    }
    forall e | e in w'.bag ensures Expected(w', a, top, e) {
      assert Expected(w, a, top, e);
    }
    forall x | x in w'.nodes && x != a ensures Reported(w', a, x) && Served(w', a, x) {
      assert Reported(w, a, x) && Served(w, a, x);
    }
  }

  /** The authority stages a key above everything it had, and sends it to all it has a session with. */
  lemma KeyMintedAndSent(w: World, a: Id, top: nat, i: nat, c': Coord, sent: seq<Event>, to: seq<Id>)
    requires Inv(w, a, top) && i < |w.bag|
    requires c'.me == a && c'.roomGen == c'.GenOrZero() && c'.ring.cur.Some? && c'.ring.cur.value.auth == a
    requires w.nodes[a].roomGen < c'.roomGen <= Ceiling(top)
    requires forall e :: e in sent <==> exists m :: m in to && e == KeyMsg(m, a, c'.roomGen, c'.ring.cur.value.key)
    requires forall m :: m in to ==> m in Members(w, a)
    requires match w.bag[i]
             case SecureAt(at, peer) => at == a && peer in to && w.nodes[a].ring.cur.None?
             case GenMsg(_, _, gen) => gen <= c'.roomGen && Sessions(w, a, to)
             case KeyMsg(_, _, _, _) => false
    ensures Inv(w.(nodes := w.nodes[a := c'], bag := Without(w.bag, i) + sent), a, top)
  {
    var w' := w.(nodes := w.nodes[a := c'], bag := Without(w.bag, i) + sent);
    InWithout(w.bag, i);
    forall x | x in w'.nodes ensures Labelled(w', a, top, x) {
      assert Labelled(w, a, top, x);
    }
    forall e | e in w'.bag ensures Expected(w', a, top, e) {
      assert e in w.bag ==> Expected(w, a, top, e);
    }
    forall x | x in w'.nodes && x != a ensures Reported(w', a, x) && Served(w', a, x) {
      assert Reported(w, a, x) && Served(w, a, x);
      if SecureAt(a, x) !in w'.bag {
        assert x in Members(w, a);
        assert x in to;
        assert KeyMsg(x, a, c'.roomGen, c'.ring.cur.value.key) in sent;
      }
    }
  }

  // What a coordinator's step does to its staged key and counter.

  lemma AdoptView(c: Coord, k: RoomKey)
    requires c.roomGen == c.GenOrZero()
    ensures var c' := Adopted(c, k);
            && c'.me == c.me && c'.roomGen == c'.GenOrZero()
            && c'.ring.cur == if Accepts(c.ring, k) then Some(k) else c.ring.cur
  {}

  lemma MintView(c: Coord, gen: U32)
    requires gen > c.GenOrZero()
    ensures var c' := Minted(c.(roomGen := gen - 1), gen);
            && c'.me == c.me && c'.roomGen == c'.GenOrZero() == gen
            && c'.ring.cur == Some(RoomKey(gen, c.me, KeyBytes(c.me, c.mints)))
            && c' == Minted(c.(roomGen := gen), gen)
  {}

  lemma SecureStepKeeps(w: World, a: Id, top: nat, i: nat, secure: seq<Id>)
    requires Inv(w, a, top) && i < |w.bag| && Receiver(w.bag[i]) in w.nodes && w.bag[i].SecureAt?
    ensures Inv(Step(w, Take(i, secure)), a, top)
  {
    var SecureAt(at, peer) := w.bag[i];
    var w' := Step(w, Take(i, secure));
    var c, k := w.nodes[at], w.nodes[a].ring.cur;
    assert Expected(w, a, top, w.bag[i]) && Labelled(w, a, top, a);
    InWithout(w.bag, i);
    Authority(w, a, at);
    if at == a && k.None? {
      MintView(c, 1);
      var c' := AfterSecure(c, Members(w, a));
      OnWireHandOut(a, c'.ring.cur.value, [peer]);
      KeyMintedAndSent(w, a, top, i, c', OnWire(a, SecureActions(c, peer, Members(w, a))), [peer]);
    } else {
      assert w'.nodes == w.nodes;
      if at == a {
        OnWireHandOut(a, k.value, [peer]);
      } else if peer == a && c.ring.cur.Some? {
        assert Labelled(w, a, top, at);
        OnWireOne(at, SendGen(a, c.roomGen));
      }
      QuietStepKeeps(w, w', a, top, {w.bag[i]});
    }
  }

  lemma KeyStepKeeps(w: World, a: Id, top: nat, i: nat, secure: seq<Id>)
    requires Inv(w, a, top) && top <= 1023 && i < |w.bag| && Receiver(w.bag[i]) in w.nodes && w.bag[i].KeyMsg?
    ensures Inv(Step(w, Take(i, secure)), a, top)
  {
    var KeyMsg(m, from, gen, key) := w.bag[i];
    assert Expected(w, a, top, w.bag[i]);
    Authority(w, a, m);
    AdoptView(w.nodes[m], RoomKey(gen, a, key));
    KeyDelivered(w, a, top, i, Adopted(w.nodes[m], RoomKey(gen, a, key)));
  }

  lemma GenStepKeeps(w: World, a: Id, top: nat, i: nat, secure: seq<Id>)
    requires Inv(w, a, top) && top <= 1023 && i < |w.bag| && Receiver(w.bag[i]) in w.nodes && w.bag[i].GenMsg?
    requires Sessions(w, w.bag[i].to, secure)
    ensures Inv(Step(w, Take(i, secure)), a, top)
  {
    var GenMsg(to, m, gen) := w.bag[i];
    var c := w.nodes[a];
    assert Expected(w, a, top, w.bag[i]) && Labelled(w, a, top, a);
    Authority(w, a, a);
    InWithout(w.bag, i);
    if gen > c.roomGen {
      MintView(c, gen + 1);
      var c' := AfterRoomGen(c, m, gen, Members(w, a));
      OnWireHandOut(a, c'.ring.cur.value, secure);
      KeyMintedAndSent(w, a, top, i, c', OnWire(a, RoomGenActions(c, m, gen, Members(w, a), secure)), secure);
    } else {
      var w' := Step(w, Take(i, secure));
      assert w'.nodes == w.nodes && w'.bag == Without(w.bag, i);
      QuietStepKeeps(w, w', a, top, {w.bag[i]});
    }
  }

  lemma PromotionView(c: Coord)
    ensures SameView(AfterPromotion(c), c)
  {}

  lemma StepKeeps(w: World, a: Id, top: nat, ch: Choice)
    requires Inv(w, a, top) && top <= 1023 && Enabled(w, ch)
    ensures Inv(Step(w, ch), a, top) && Step(w, ch).ids == w.ids
  {
    match ch
    case Promote(at) =>
      PromotionView(w.nodes[at]);
      QuietStepKeeps(w, Step(w, ch), a, top, {});
    case Take(i, secure) =>
      match w.bag[i]
      case SecureAt(_, _) => SecureStepKeeps(w, a, top, i, secure);
      case KeyMsg(_, _, _, _) => KeyStepKeeps(w, a, top, i, secure);
      case GenMsg(_, _, _) => GenStepKeeps(w, a, top, i, secure);
  }

  /** A step changes one node, by one event of its coordinator. */
  ghost function StepAt(w: World, ch: Choice): (Id, KeyEvent)
    requires Enabled(w, ch)
  {
    match ch
    case Promote(at) => (at, PromotionDue)
    case Take(i, _) =>
      match w.bag[i]
      case SecureAt(at, peer) => (at, SecureUp(peer, Members(w, at)))
      case KeyMsg(to, from, gen, key) => (to, KeyArrived(from, gen, key, Members(w, to)))
      case GenMsg(to, from, gen) => (to, GenArrived(from, gen, Members(w, to)))
  }

  lemma StepIsApplied(w: World, ch: Choice)
    requires Enabled(w, ch)
    ensures var (at, e) := StepAt(w, ch); at in w.nodes && Step(w, ch).nodes == w.nodes[at := Applied(w.nodes[at], e)]
  {}

  lemma StepKeepsCoherent(w: World, ch: Choice)
    requires AllCoherent(w) && Enabled(w, ch)
    ensures AllCoherent(Step(w, ch))
  {
    StepIsApplied(w, ch);
    var (at, e) := StepAt(w, ch);
    EventKeeps(w.nodes[at], e);
  }

  // ---- every run is finite ----

  function Cost(e: Event, n: nat): nat {
    match e
    case SecureAt(_, _) => 2 * n + 4
    case KeyMsg(_, _, _, _) => 2
    case GenMsg(_, _, _) => 2 * n + 2
  }

  function TotalCost(s: seq<Event>, n: nat): nat {
    if s == [] then 0 else Cost(s[0], n) + TotalCost(s[1..], n)
  }

  lemma {:induction false} TotalCostConcat(s: seq<Event>, t: seq<Event>, n: nat)
    ensures TotalCost(s + t, n) == TotalCost(s, n) + TotalCost(t, n)
  {
    if s == [] {
      assert s + t == t;
    } else {
      assert (s + t)[1..] == s[1..] + t;
      TotalCostConcat(s[1..], t, n);
    }
  }

  lemma TotalCostWithout(s: seq<Event>, i: nat, n: nat)
    requires i < |s|
    ensures TotalCost(Without(s, i), n) + Cost(s[i], n) == TotalCost(s, n)
  {
    TotalCostConcat(s[..i], s[i + 1..], n);
    TotalCostConcat(s[..i], s[i..], n);
    assert s == s[..i] + s[i..] && s[i..][1..] == s[i + 1..];
  }

  lemma {:induction false} TotalCostOfKeys(s: seq<Event>, n: nat)
    requires forall e :: e in s ==> e.KeyMsg?
    ensures TotalCost(s, n) == 2 * |s|
  {
    if s != [] {
      assert s[0] in s;
      TotalCostOfKeys(s[1..], n);
    }
  }

  /** Promotions still to be delivered, over all nodes. */
  function DueTotal(ids: seq<Id>, nodes: map<Id, Coord>): nat
    requires forall id :: id in ids ==> id in nodes
  {
    if ids == [] then 0 else |nodes[ids[0]].due| + DueTotal(ids[1..], nodes)
  }

  lemma {:induction false} DueTotalUpdate(ids: seq<Id>, nodes: map<Id, Coord>, id: Id, c: Coord)
    requires Distinct(ids) && id in nodes && forall x :: x in ids ==> x in nodes
    ensures DueTotal(ids, nodes[id := c]) == DueTotal(ids, nodes) + (if id in ids then |c.due| - |nodes[id].due| else 0)
  {
    if ids != [] {
      assert ids == [ids[0]] + ids[1..];
      if ids[0] == id {
        assert forall j :: 0 <= j < |ids| - 1 ==> ids[1..][j] == ids[j + 1] != id;
        assert id !in ids[1..];
      }
      DueTotalUpdate(ids[1..], nodes, id, c);
    }
  }

  ghost function Measure(w: World): nat
    requires forall id :: id in w.ids ==> id in w.nodes
  {
    TotalCost(w.bag, |w.ids|) + DueTotal(w.ids, w.nodes)
  }

  lemma {:induction false} DistinctWithin(s: seq<Id>, t: set<Id>)
    requires Distinct(s) && forall x :: x in s ==> x in t
    ensures |s| <= |t|
  {
    if s != [] {
      assert s[0] in t;
      forall x | x in s[1..] ensures x in t - {s[0]} {
        var j :| 0 <= j < |s| - 1 && s[1..][j] == x;
        assert s[j + 1] == x;
      }
      DistinctWithin(s[1..], t - {s[0]});
    }
  }

  lemma {:induction false} SetOfSeq(s: seq<Id>)
    ensures |set x | x in s| <= |s|
  {
    if s != [] {
      SetOfSeq(s[1..]);
      assert (set x | x in s) == {s[0]} + (set x | x in s[1..]);
    }
  }

  /** Replacing event `i` by `sent` and one node's state moves the measure by what the two cost. */
  lemma MeasureOf(w: World, i: nat, id: Id, c: Coord, sent: seq<Event>)
    requires i < |w.bag| && Distinct(w.ids) && id in w.ids && forall x :: x in w.ids ==> x in w.nodes
    ensures var w' := w.(nodes := w.nodes[id := c], bag := Without(w.bag, i) + sent);
            Measure(w') == Measure(w) - Cost(w.bag[i], |w.ids|) + TotalCost(sent, |w.ids|) + |c.due| - |w.nodes[id].due|
  {
    TotalCostWithout(w.bag, i, |w.ids|);
    TotalCostConcat(Without(w.bag, i), sent, |w.ids|);
    DueTotalUpdate(w.ids, w.nodes, id, c);
  }

  lemma DueGrowth(c: Coord, k: RoomKey)
    ensures |c.due| <= |Adopted(c, k).due| <= |c.due| + 1
    ensures c.ring.send.None? ==> Adopted(c, k).due == c.due
  {}

  lemma SecureStepCosts(w: World, at: Id, peer: Id)
    requires at in w.nodes && Coherent(w.nodes[at])
    ensures AfterSecure(w.nodes[at], Members(w, at)).due == w.nodes[at].due
    ensures TotalCost(OnWire(at, SecureActions(w.nodes[at], peer, Members(w, at))), |w.ids|) <= 2 * |w.ids| + 2
  {
    var sent := OnWire(at, SecureActions(w.nodes[at], peer, Members(w, at)));
    assert |sent| <= 1;
    if |sent| == 1 {
      assert sent[1..] == [];
      assert !sent[0].SecureAt?;
    }
  }

  lemma GenStepCosts(w: World, to: Id, from: Id, gen: U32, secure: seq<Id>)
    requires to in w.nodes && Distinct(w.ids) && Distinct(secure) && forall m :: m in secure ==> m in Members(w, to)
    ensures var c' := AfterRoomGen(w.nodes[to], from, gen, Members(w, to));
            var sent := OnWire(to, RoomGenActions(w.nodes[to], from, gen, Members(w, to), secure));
            TotalCost(sent, |w.ids|) + |c'.due| - |w.nodes[to].due| <= 2 * |w.ids| + 1
  {
    var c, ms := w.nodes[to], Members(w, to);
    var c' := AfterRoomGen(c, from, gen, ms);
    var sent := OnWire(to, RoomGenActions(c, from, gen, ms, secure));
    if HeedsGen(c, from, gen, ms) {
      var g := SatAdd32(gen, 1);
      DueGrowth(c.(roomGen := gen, mints := c.mints + 1), RoomKey(g, c.me, KeyBytes(c.me, c.mints)));
      if c'.ring.cur.Some? {
        OnWireHandOut(to, c'.ring.cur.value, secure);
        TotalCostOfKeys(sent, |w.ids|);
      }
      DistinctWithin(secure, set x | x in w.ids);
      SetOfSeq(w.ids);
    }
  }

  lemma StepCosts(w: World, a: Id, top: nat, ch: Choice)
    requires Inv(w, a, top) && AllCoherent(w) && Enabled(w, ch)
    ensures Measure(Step(w, ch)) < Measure(w)
  {
    match ch
    case Promote(at) => DueTotalUpdate(w.ids, w.nodes, at, AfterPromotion(w.nodes[at]));
    case Take(i, secure) =>
      var rest := Without(w.bag, i);
      match w.bag[i]
      case KeyMsg(to, from, gen, key) =>
        var c' := AfterRoomKey(w.nodes[to], from, gen, key, Members(w, to));
        DueGrowth(w.nodes[to], RoomKey(gen, from, key));
        MeasureOf(w, i, to, c', []);
        assert rest + [] == rest;
      case SecureAt(at, peer) =>
        var c' := AfterSecure(w.nodes[at], Members(w, at));
        SecureStepCosts(w, at, peer);
        MeasureOf(w, i, at, c', OnWire(at, SecureActions(w.nodes[at], peer, Members(w, at))));
      case GenMsg(to, from, gen) =>
        var c' := AfterRoomGen(w.nodes[to], from, gen, Members(w, to));
        GenStepCosts(w, to, from, gen, secure);
        MeasureOf(w, i, to, c', OnWire(to, RoomGenActions(w.nodes[to], from, gen, Members(w, to), secure)));
  }

  // ---- the theorem ----

  predicate Quiet(w: World) {
    w.bag == [] && forall id :: id in w.nodes ==> w.nodes[id].due == []
  }

  /** Everyone holds the authority's key, at a generation the bound admits. */
  ghost predicate Agreed(w: World, a: Id, top: nat)
    requires a in w.nodes
  {
    && w.nodes[a].ring.cur.Some?
    && w.nodes[a].ring.cur.value.auth == a
    && w.nodes[a].ring.cur.value.gen <= Ceiling(top)
    && forall m :: m in w.nodes ==> w.nodes[m].ring.cur == w.nodes[a].ring.cur
  }

  lemma SettledMeansAgreed(w: World, a: Id, top: nat)
    requires Inv(w, a, top) && w.bag == [] && |w.ids| >= 2
    ensures Agreed(w, a, top)
  {
    assert w.ids[0] != w.ids[1];
    var other := if w.ids[0] == a then w.ids[1] else w.ids[0];
    assert Served(w, a, other) && Labelled(w, a, top, a);
    forall m | m in w.nodes && m != a ensures w.nodes[m].ring.cur == w.nodes[a].ring.cur {
      assert Reported(w, a, m) && Served(w, a, m);
    }
  }

  lemma SomethingIsEnabled(w: World, a: Id, top: nat)
    requires Inv(w, a, top) && !Quiet(w)
    ensures exists ch :: Enabled(w, ch)
  {
    if w.bag != [] {
      assert Expected(w, a, top, w.bag[0]);
      var secure := Enumerate(Members(w, Receiver(w.bag[0])));
      assert Enabled(w, Take(0, secure));
    } else {
      var id :| id in w.nodes && w.nodes[id].due != [];
      assert Enabled(w, Promote(id));
    }
  }

  lemma Enumerate(s: set<Id>) returns (r: seq<Id>)
    ensures Distinct(r) && forall x :: x in r <==> x in s
  {
    r := [];
    var left := s;
    while left != {}
      invariant Distinct(r) && left <= s
      invariant forall x :: x in r <==> x in s && x !in left
    {
      var x :| x in left;
      r, left := r + [x], left - {x};
    }
  }

  /** Once everyone agrees and has promoted, any frame anyone seals opens at everyone, as itself. */
  lemma AgreedNodesHearEachOther(w: World, a: Id, top: nat, s: Id, m: Id, opus: Bytes, nonce: Bytes, ct: Bytes,
                                 log: seq<Sealing<KeyBytes>>, i: nat)
    requires AllCoherent(w) && a in w.nodes && Agreed(w, a, top) && Quiet(w) && s in w.nodes && m in w.nodes
    requires Ideal(log) && i < |log| && |nonce| == 12
    requires w.nodes[s].ring.send.Some? ==> log[i] == AudioSealing(w.nodes[s].ring.send.value, s, opus, nonce, ct)
    ensures var wire := SealOutbound(w.nodes[s].ring, opus, nonce, ct);
            wire.Some? && wire.value[0] == AUDIO_SEALED
                && OpenInbound(log, w.nodes[m].ring, s, wire.value) == Some(opus)
  {
    var k := w.nodes[a].ring.cur.value;
    assert Coherent(w.nodes[s]) && w.nodes[s].ring.send == Some(k);
    assert w.nodes[m].ring.Keys()[0] == k;
    SealedFrameOpensIff(log, i, k, s, s, opus, nonce, ct, w.nodes[m].ring);
  }

  lemma WhereItStops(w: World, a: Id, top: nat)
    requires Inv(w, a, top) && |w.ids| >= 2
    ensures (forall ch :: !Enabled(w, ch)) ==> Quiet(w)
    ensures w.bag == [] ==> Agreed(w, a, top)
  {
    if w.bag == [] {
      SettledMeansAgreed(w, a, top);
    }
    if !Quiet(w) {
      SomethingIsEnabled(w, a, top);
    }
  }

  lemma {:induction false} RunKeeps(w: World, a: Id, top: nat, chs: seq<Choice>)
    requires Inv(w, a, top) && AllCoherent(w) && top <= 1023 && Run(w, chs)
    ensures var w' := Last(w, chs);
            Inv(w', a, top) && AllCoherent(w') && w'.ids == w.ids && |chs| + Measure(w') <= Measure(w)
    decreases |chs|
  {
    if chs != [] {
      StepKeeps(w, a, top, chs[0]);
      StepKeepsCoherent(w, chs[0]);
      StepCosts(w, a, top, chs[0]);
      RunKeeps(Step(w, chs[0]), a, top, chs[1..]);
    }
  }

  /**
   * Late-authority convergence. Whatever the interleaving, a run from the starting point takes at
   * most `Measure` steps; it can only stop when nothing is left to process; and as soon as no
   * event is left, everyone holds the authority's key.
   */
  lemma LateAuthorityConverges(w: World, a: Id, top: nat, chs: seq<Choice>)
    requires Start(w, a, top) && top <= 1023 && |w.ids| >= 2 && Run(w, chs)
    ensures var w' := Last(w, chs);
            && |chs| <= Measure(w)
            && a in w'.nodes && w'.nodes.Keys == w.nodes.Keys && AllCoherent(w')
            && ((forall ch :: !Enabled(w', ch)) ==> Quiet(w'))
            && (w'.bag == [] ==> Agreed(w', a, top))
  {
    StartHasInv(w, a, top);
    RunKeeps(w, a, top, chs);
    WhereItStops(Last(w, chs), a, top);
  }
}
