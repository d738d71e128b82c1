/** The engine-loop arms of lib.rs that change the member set or the group key. */
module Engine {
  import opened Wrappers
  import opened Ids
  import opened Words
  import opened GroupAudio
  import opened RoomKeys

  datatype Node = Node(members: set<Id>, keys: Coord)

  /** `secure` is what `secure_peer_ids` lists when the arm asks for it. */
  datatype Event =
    | Roster(peers: seq<Id>, secure: seq<Id>)
    | PeerJoined(id: Id, secure: seq<Id>)
    | PeerLeft(id: Id, secure: seq<Id>)
    | Rekey(secure: seq<Id>)
    | Secure(peer: Id)
    | RoomKeyFrom(from: Id, gen: U32, key: KeyBytes)
    | RoomGenFrom(from: Id, gen: U32, secure: seq<Id>)
    | PromotionElapsed

  function Listed(s: seq<Id>): set<Id> {
    set id | id in s
  }

  /** Members we knew that a fresh roster no longer lists. */
  function Departed(known: set<Id>, peers: seq<Id>): set<Id> {
    set id | id in known && id !in peers
  }

  function MembersAfter(n: Node, e: Event): set<Id> {
    match e
    case Roster(peers, _) => Listed(peers)
    case PeerJoined(id, _) => n.members + {id}
    case PeerLeft(id, _) => n.members - {id}
    case _ => n.members
  }

  /** Does the arm for `e` mint a replacement key? */
  predicate Rotates(n: Node, e: Event) {
    AmAuthority(n.keys.me, MembersAfter(n, e)) &&
    match e
    case Roster(peers, _) => Departed(n.members, peers) != {}
    case PeerJoined(_, _) => n.keys.ring.cur.Some?
    case PeerLeft(_, _) => true
    case Rekey(_) => true
    case _ => false
  }

  function KeysAfter(n: Node, e: Event): Coord {
    match e
    case Secure(_) => AfterSecure(n.keys, n.members)
    case RoomKeyFrom(from, gen, key) => AfterRoomKey(n.keys, from, gen, key, n.members)
    case RoomGenFrom(from, gen, _) => AfterRoomGen(n.keys, from, gen, n.members)
    case PromotionElapsed => AfterPromotion(n.keys)
    case _ => if Rotates(n, e) then Rotated(n.keys) else n.keys
  }

  function Next(n: Node, e: Event): Node {
    Node(MembersAfter(n, e), KeysAfter(n, e))
  }

  function Actions(n: Node, e: Event): seq<KeyAction> {
    match e
    case Secure(peer) => SecureActions(n.keys, peer, n.members)
    case RoomGenFrom(from, gen, secure) => RoomGenActions(n.keys, from, gen, n.members, secure)
    case RoomKeyFrom(_, _, _) => []
    case PromotionElapsed => []
    case _ => if Rotates(n, e) then CurrentTo(KeysAfter(n, e), e.secure) else []
  }

  /** The member set and the coordinator, as the engine task owns them. */
  class EngineLoop {
    var members: set<Id>
    const keys: RoomKeyCoordinator

    constructor (keys: RoomKeyCoordinator)
      ensures this.keys == keys && members == {}
    {
      this.keys := keys;
      members := {};
    }

    function Value(): Node
      reads this, keys, keys.room
    {
      Node(members, keys.Value())
    }

    method OnRoster(peers: seq<Id>, secure: seq<Id>) returns (actions: seq<KeyAction>)
      modifies this, keys, keys.room
      ensures Value() == Next(old(Value()), Roster(peers, secure))
      ensures actions == Actions(old(Value()), Roster(peers, secure))
    {
      var gone := Departed(members, peers);
      members := members - gone;
      var listed: set<Id> := {};
      for i := 0 to |peers|
        invariant listed == Listed(peers[..i])
        invariant keys.Value() == old(keys.Value())
      {
        assert peers[..i + 1] == peers[..i] + [peers[i]];
        listed := listed + {peers[i]};
      }
      assert peers[..|peers|] == peers;
      members := listed;
      actions := [];
      if gone != {} && AmAuthority(keys.me, members) {
        actions := keys.Rotate(secure);
      }
    }

    method OnPeerJoined(id: Id, secure: seq<Id>) returns (actions: seq<KeyAction>)
      modifies this, keys, keys.room
      ensures Value() == Next(old(Value()), PeerJoined(id, secure))
      ensures actions == Actions(old(Value()), PeerJoined(id, secure))
    {
      members := members + {id};
      actions := [];
      if AmAuthority(keys.me, members) && keys.room.cur.Some? {
        actions := keys.Rotate(secure);
      }
    }

    method OnPeerLeft(id: Id, secure: seq<Id>) returns (actions: seq<KeyAction>)
      modifies this, keys, keys.room
      ensures Value() == Next(old(Value()), PeerLeft(id, secure))
      ensures actions == Actions(old(Value()), PeerLeft(id, secure))
    {
      members := members - {id};
      actions := [];
      if AmAuthority(keys.me, members) {
        actions := keys.Rotate(secure);
      }
    }

    method OnRekey(secure: seq<Id>) returns (actions: seq<KeyAction>)
      modifies this, keys, keys.room
      ensures Value() == Next(old(Value()), Rekey(secure))
      ensures actions == Actions(old(Value()), Rekey(secure))
    {
      actions := [];
      if AmAuthority(keys.me, members) {
        actions := keys.Rotate(secure);
      }
    }

    method OnSecure(peer: Id) returns (actions: seq<KeyAction>)
      modifies keys, keys.room
      ensures Value() == Next(old(Value()), Secure(peer))
      ensures actions == Actions(old(Value()), Secure(peer))
    {
      actions := keys.OnSecure(peer, members);
    }

    method OnRoomKey(from: Id, gen: U32, key: KeyBytes)
      modifies keys, keys.room
      ensures Value() == Next(old(Value()), RoomKeyFrom(from, gen, key))
    {
      var _ := keys.OnRoomKey(from, gen, key, members);
    }

    method OnRoomGen(from: Id, gen: U32, secure: seq<Id>) returns (actions: seq<KeyAction>)
      modifies keys, keys.room
      ensures Value() == Next(old(Value()), RoomGenFrom(from, gen, secure))
      ensures actions == Actions(old(Value()), RoomGenFrom(from, gen, secure))
    {
      actions := keys.OnRoomGen(from, gen, members, secure);
    }

    method OnPromotion()
      modifies keys, keys.room
      ensures Value() == Next(old(Value()), PromotionElapsed)
    {
      keys.OnPromotionDue();
    }
  }

  // ---- forward secrecy ----

  predicate IsDeparture(n: Node, e: Event) {
    e.PeerLeft? || (e.Roster? && Departed(n.members, e.peers) != {})
  }

  /**
   * What the environment keeps to: keys and sessions are only reported for current members, keys are
   * only sent over sessions with members, and nobody guesses bytes that have not been drawn yet.
   */
  predicate Plausible(n: Node, e: Event) {
    match e
    case Secure(peer) => peer in n.members
    case RoomKeyFrom(from, _, key) => from in n.members && (key.origin == n.keys.me ==> key.serial < n.keys.mints)
    case PromotionElapsed => true
    case _ => Listed(e.secure) <= MembersAfter(n, e)
  }

  /**
   * A run as an observer records it: `mark` keys had been drawn when the latest departure or arrival
   * notice was processed, `told` were handed the bytes now staged, `gone` left and have not come back.
   */
  datatype Watch = Watch(node: Node, mark: nat, told: set<Id>, gone: set<Id>)

  function Recipients(actions: seq<KeyAction>): set<Id> {
    set a | a in actions && a.SendKey? :: a.peer
  }

  function SameKey(a: Coord, b: Coord): bool {
    a.ring.cur.Some? && b.ring.cur.Some? && a.ring.cur.value.key == b.ring.cur.value.key
  }

  function Observed(w: Watch, e: Event): Watch {
    var n, n' := w.node, Next(w.node, e);
    Watch(n',
          if IsDeparture(n, e) || e.PeerJoined? then n.keys.mints else w.mark,
          (if SameKey(n.keys, n'.keys) then w.told else {}) + Recipients(Actions(n, e)),
          match e
          case Roster(peers, _) => (w.gone + Departed(n.members, peers)) - Listed(peers)
          case PeerJoined(id, _) => w.gone - {id}
          case PeerLeft(id, _) => w.gone + {id}
          case _ => w.gone)
  }

  function Watched(me: Id, es: seq<Event>): Watch {
    if es == [] then Watch(Node({}, New(me)), 0, {}, {})
    else Observed(Watched(me, es[..|es| - 1]), es[|es| - 1])
  }

  /** Every event of the run is plausible and finds the counter below its maximum. */
  ghost predicate Admissible(me: Id, es: seq<Event>) {
    es != [] ==>
      var w := Watched(me, es[..|es| - 1]);
      && Admissible(me, es[..|es| - 1])
      && Plausible(w.node, es[|es| - 1])
      && w.node.keys.roomGen < U32_MAX
  }

  ghost predicate Sound(w: Watch) {
    var c := w.node.keys;
    && Coherent(c)
    && w.mark <= c.mints
    && w.gone !! w.node.members
    && (c.ring.cur.Some? && c.ring.cur.value.key.origin == c.me ==> c.ring.cur.value.key.serial < c.mints)
    && (AmAuthority(c.me, w.node.members) && c.ring.cur.Some? ==>
          && c.ring.cur.value.auth == c.me
          && c.ring.cur.value.key.origin == c.me
          && w.mark <= c.ring.cur.value.key.serial
          && w.told <= w.node.members)
  }

  /** What may be emitted: only the key just staged, only to members. */
  ghost predicate HandsOutOnly(actions: seq<KeyAction>, n: Node) {
    forall a :: a in actions && a.SendKey? ==>
      a.peer in n.members && n.keys.ring.cur.Some? && a.key == n.keys.ring.cur.value.key
          && a.gen == n.keys.ring.cur.value.gen
  }

  lemma CurrentToHandsOut(c: Coord, members: set<Id>, to: seq<Id>)
    requires Listed(to) <= members
    ensures HandsOutOnly(CurrentTo(c, to), Node(members, c))
    ensures Recipients(CurrentTo(c, to)) <= members
  {
    forall a | a in CurrentTo(c, to)
      ensures a.SendKey? && a.peer in members && a.key == c.ring.cur.value.key && a.gen == c.ring.cur.value.gen
    {
      var i :| 0 <= i < |CurrentTo(c, to)| && CurrentTo(c, to)[i] == a;
      assert a.peer == to[i] && to[i] in Listed(to);
    }
  }

  lemma ActionsAreFresh(n: Node, e: Event)
    requires Plausible(n, e)
    ensures HandsOutOnly(Actions(n, e), Next(n, e))
    ensures Recipients(Actions(n, e)) <= Next(n, e).members
  {
    var n' := Next(n, e);
    match e
    case Secure(peer) => CurrentToHandsOut(n'.keys, n'.members, [peer]);
    case RoomGenFrom(_, _, secure) => CurrentToHandsOut(n'.keys, n'.members, secure);
    case RoomKeyFrom(_, _, _) =>
    case PromotionElapsed =>
    case _ => CurrentToHandsOut(n'.keys, n'.members, e.secure);
  }

  predicate ChangesRoom(e: Event) {
    e.Roster? || e.PeerJoined? || e.PeerLeft? || e.Rekey?
  }

  lemma RotationKeepsSound(w: Watch, e: Event)
    requires Sound(w) && Plausible(w.node, e) && w.node.keys.roomGen < U32_MAX
    requires ChangesRoom(e) && Rotates(w.node, e)
    ensures Sound(Observed(w, e)) && Observed(w, e).node.keys.roomGen == w.node.keys.roomGen + 1
  {
    var n, c := w.node, w.node.keys;
    ActionsAreFresh(n, e);
    RotationIsFreshIff(c);
    var c' := KeysAfter(n, e);
    assert c' == Rotated(c);
    assert !SameKey(c, c');
    assert Observed(w, e).told == Recipients(Actions(n, e));
  }

  lemma QuietRoomEventKeepsSound(w: Watch, e: Event)
    requires Sound(w) && Plausible(w.node, e)
    requires ChangesRoom(e) && !Rotates(w.node, e)
    ensures Sound(Observed(w, e)) && Observed(w, e).node.keys == w.node.keys
  {
    var n, c := w.node, w.node.keys;
    assert Actions(n, e) == [] && KeysAfter(n, e) == c;
    if AmAuthority(c.me, MembersAfter(n, e)) {
      StillAuthority(n, e);
    }
  }

  lemma KeyFromKeepsSound(w: Watch, from: Id, gen: U32, key: KeyBytes)
    requires Sound(w) && Plausible(w.node, RoomKeyFrom(from, gen, key))
    ensures Sound(Observed(w, RoomKeyFrom(from, gen, key)))
    ensures var gen' := Observed(w, RoomKeyFrom(from, gen, key)).node.keys.roomGen;
            w.node.keys.roomGen <= gen' <= w.node.keys.roomGen + 1025
  {
    var n, e := w.node, RoomKeyFrom(from, gen, key);
    assert Actions(n, e) == [];
    KeyArrivalKeeps(n.keys, from, gen, key, n.members);
    KeyArrivalDrawsNothing(n.keys, from, gen, key, n.members);
    if AmAuthority(n.keys.me, n.members) {
      AuthorityTakesNoKey(n.keys, from, gen, key, n.members);
    }
  }

  lemma AuthorityTakesNoKey(c: Coord, from: Id, gen: U32, key: KeyBytes, members: set<Id>)
    requires AmAuthority(c.me, members) && from in members
    ensures AfterRoomKey(c, from, gen, key, members) == c
  {
    LessAsymmetric(c.me, from);
  }

  lemma KeyArrivalDrawsNothing(c: Coord, from: Id, gen: U32, key: KeyBytes, members: set<Id>)
    ensures var c' := AfterRoomKey(c, from, gen, key, members);
            && c'.mints == c.mints && c'.me == c.me
            && (c'.ring.cur == c.ring.cur || c'.ring.cur == Some(RoomKey(gen, from, key)))
  {
    if AfterRoomKey(c, from, gen, key, members) != c {
      KeysComeFromTheAuthority(c, from, gen, key, members);
    }
  }

  lemma KeyEventKeepsSound(w: Watch, e: Event)
    requires Sound(w) && Plausible(w.node, e) && w.node.keys.roomGen < U32_MAX && !ChangesRoom(e)
    ensures Sound(Observed(w, e))
    ensures w.node.keys.roomGen <= Observed(w, e).node.keys.roomGen <= w.node.keys.roomGen + 1025
  {
    var n, c := w.node, w.node.keys;
    ActionsAreFresh(n, e);
    match e
    case Secure(peer) => SecureKeeps(c, n.members);
    case RoomKeyFrom(from, gen, key) => KeyFromKeepsSound(w, from, gen, key);
    case RoomGenFrom(from, gen, _) => RoomGenKeeps(c, from, gen, n.members);
    case PromotionElapsed => PromotionKeeps(c);
  }

  lemma ObservedKeepsMe(w: Watch, e: Event)
    ensures Observed(w, e).node.keys.me == w.node.keys.me
  {}

  lemma EventKeepsSound(w: Watch, e: Event)
    requires Sound(w) && Plausible(w.node, e) && w.node.keys.roomGen < U32_MAX
    ensures Sound(Observed(w, e)) && Observed(w, e).node.keys.me == w.node.keys.me
    ensures w.node.keys.roomGen <= Observed(w, e).node.keys.roomGen <= w.node.keys.roomGen + 1025
  {
    ObservedKeepsMe(w, e);
    if !ChangesRoom(e) {
      KeyEventKeepsSound(w, e);
    } else if Rotates(w.node, e) {
      RotationKeepsSound(w, e);
    } else {
      QuietRoomEventKeepsSound(w, e);
    }
  }

  /** Becoming the authority takes a departure, and a departure that leaves us the authority rotates. */
  lemma StillAuthority(n: Node, e: Event)
    requires !Rotates(n, e) && AmAuthority(n.keys.me, MembersAfter(n, e))
    ensures n.members <= MembersAfter(n, e) && AmAuthority(n.keys.me, n.members) && !IsDeparture(n, e)
  {
    if e.Roster? {
      assert Departed(n.members, e.peers) == {};
      forall id | id in n.members ensures id in e.peers {
        assert id !in Departed(n.members, e.peers);
      }
    }
  }

  /**
   * In every reachable state where this node is the authority, the key it has staged is its own,
   * drawn after the latest departure and the latest arrival notice it processed, and was never handed
   * to anyone who is not a member now.
   */
  lemma {:induction false} ForwardSecrecy(me: Id, es: seq<Event>)
    requires Admissible(me, es)
    ensures Sound(Watched(me, es)) && Watched(me, es).node.keys.me == me
    ensures Watched(me, es).node.keys.roomGen <= 1025 * |es|
  {
    if es == [] {
      NewIsCoherent(me);
    } else {
      ForwardSecrecy(me, es[..|es| - 1]);
      EventKeepsSound(Watched(me, es[..|es| - 1]), es[|es| - 1]);
    }
  }

  /**
   * So a key handed out by any event of a run is the one staged then, younger than the latest
   * departure and arrival notice, and goes to no id that has left and not come back.
   */
  lemma NoKeyForTheDeparted(me: Id, es: seq<Event>, e: Event, a: KeyAction)
    requires Admissible(me, es + [e]) && a in Actions(Watched(me, es).node, e) && a.SendKey?
    ensures a.key.origin == me && a.key.serial >= Watched(me, es + [e]).mark
    ensures a.peer !in Watched(me, es + [e]).gone && a.peer in Watched(me, es + [e]).node.members
  {
    assert (es + [e])[..|es|] == es;
    ForwardSecrecy(me, es + [e]);
    ActionsAreFresh(Watched(me, es).node, e);
    ForwardSecrecy(me, es);
    HandingOutIsTheAuthoritysAct(Watched(me, es).node, e, a);
  }

  lemma HandingOutIsTheAuthoritysAct(n: Node, e: Event, a: KeyAction)
    requires a in Actions(n, e) && a.SendKey?
    ensures AmAuthority(n.keys.me, Next(n, e).members)
  {}

  /** The counter hypothesis costs nothing in the first 4,190,211 events. */
  lemma {:induction false} ShortRunsAreAdmissible(me: Id, es: seq<Event>)
    requires |es| <= 4_190_211
    requires forall i :: 0 <= i < |es| ==> Plausible(Watched(me, es[..i]).node, es[i])
    ensures Admissible(me, es)
  {
    if es != [] {
      var before := es[..|es| - 1];
      forall i | 0 <= i < |before| ensures Plausible(Watched(me, before[..i]).node, before[i]) {
        assert before[..i] == es[..i] && before[i] == es[i];
      }
      ShortRunsAreAdmissible(me, before);
      ForwardSecrecy(me, before);
      assert Plausible(Watched(me, es[..|es| - 1]).node, es[|es| - 1]);
    }
  }

  /** Once no promotion is outstanding, audio too is sealed with a key younger than the latest departure. */
  lemma AudioIsSealedAnew(me: Id, es: seq<Event>)
    requires Admissible(me, es)
    requires var n := Watched(me, es).node; AmAuthority(me, n.members) && n.keys.due == [] && n.keys.ring.send.Some?
    ensures var w := Watched(me, es);
            var k := w.node.keys.ring.send.value;
            && k.auth == me && k.key.origin == me && w.mark <= k.key.serial < w.node.keys.mints
            && w.told <= w.node.members && w.node.keys.ring.cur == Some(k)
  {
    ForwardSecrecy(me, es);
  }

  // ---- who must be told ----

  /** Each of `to`, in order, is sent the key `k`, and nobody anything else. */
  ghost predicate EachIsSent(actions: seq<KeyAction>, to: seq<Id>, k: RoomKey) {
    |actions| == |to| && forall i :: 0 <= i < |to| ==> actions[i] == SendKey(to[i], k.gen, k.key)
  }

  /**
   * A new key reaches every peer this node has a session with: whenever a change of the room or a report
   * leaves another key staged, that key is what each of them is sent.
   */
  lemma NewKeysReachEveryone(n: Node, e: Event)
    requires ChangesRoom(e) || e.RoomGenFrom?
    requires KeysAfter(n, e).ring.cur != n.keys.ring.cur
    ensures KeysAfter(n, e).ring.cur.Some? && EachIsSent(Actions(n, e), e.secure, KeysAfter(n, e).ring.cur.value)
  {}

  /** A departure, a rekey, or an arrival once there is a key, does stage another one at the authority. */
  lemma ChangesBringNewKeys(n: Node, e: Event)
    requires Coherent(n.keys) && n.keys.roomGen < U32_MAX
    requires IsDeparture(n, e) || e.Rekey? || (e.PeerJoined? && n.keys.ring.cur.Some?)
    ensures var cur := KeysAfter(n, e).ring.cur;
            if forall x :: x in MembersAfter(n, e) ==> Less(n.keys.me, x)
            then cur == Some(RoomKey(n.keys.roomGen + 1, n.keys.me, KeyBytes(n.keys.me, n.keys.mints)))
            else cur == n.keys.ring.cur
  {
    FreshBelowTheTop(n.keys);
  }

  /**
   * A session brings the newcomer the authority's key, or the authority a member's generation, and nobody
   * else anything.
   */
  lemma SessionsAreServed(n: Node, peer: Id)
    requires Coherent(n.keys)
    ensures var cur, acts := KeysAfter(n, Secure(peer)).ring.cur, Actions(n, Secure(peer));
            && (AmAuthority(n.keys.me, n.members) ==>
                cur.Some? && acts == [SendKey(peer, cur.value.gen, cur.value.key)])
            && (!AmAuthority(n.keys.me, n.members) && LeastOf(peer, n.keys.me, n.members) && peer != n.keys.me ==>
                  acts == if n.keys.ring.cur.Some? then [SendGen(peer, n.keys.roomGen)] else [])
            && (!AmAuthority(n.keys.me, n.members) && !LeastOf(peer, n.keys.me, n.members) ==> acts == [])
  {
    SecureKeeps(n.keys, n.members);
  }

  // ---- every key held is legitimate ----

  /** What the coordinator sees of one event of the engine. */
  function SeenBy(n: Node, e: Event): Option<KeyEvent> {
    match e
    case Secure(peer) => Some(SecureUp(peer, n.members))
    case RoomKeyFrom(from, gen, key) => Some(KeyArrived(from, gen, key, n.members))
    case RoomGenFrom(from, gen, _) => Some(GenArrived(from, gen, n.members))
    case PromotionElapsed => Some(PromotionDue)
    case _ => if Rotates(n, e) then Some(RotateAsked) else None
  }

  function Projected(me: Id, es: seq<Event>): seq<KeyEvent> {
    if es == [] then []
    else
      var seen := SeenBy(Watched(me, es[..|es| - 1]).node, es[|es| - 1]);
      if seen.None? then Projected(me, es[..|es| - 1]) else Projected(me, es[..|es| - 1]) + [seen.value]
  }

  lemma SeenIsApplied(n: Node, e: Event)
    ensures KeysAfter(n, e) == if SeenBy(n, e).None? then n.keys else Applied(n.keys, SeenBy(n, e).value)
  {}

  lemma RunKeysAppend(c: Coord, es: seq<KeyEvent>, e: KeyEvent)
    ensures RunKeys(c, es + [e]) == Applied(RunKeys(c, es), e)
  {
    assert (es + [e])[..|es|] == es;
  }

  lemma {:induction false} ProjectionRuns(me: Id, es: seq<Event>)
    ensures RunKeys(New(me), Projected(me, es)) == Watched(me, es).node.keys
  {
    if es != [] {
      var before, e := es[..|es| - 1], es[|es| - 1];
      var n := Watched(me, before).node;
      ProjectionRuns(me, before);
      SeenIsApplied(n, e);
      if SeenBy(n, e).Some? {
        RunKeysAppend(New(me), Projected(me, before), SeenBy(n, e).value);
      }
    }
  }

  /** Every key the engine ever holds is its own draw, or came from the least id of the room at the time. */
  lemma NodesHoldLegitimateKeys(me: Id, es: seq<Event>, h: RoomKey)
    requires Holds(Watched(me, es).node.keys, h)
    ensures Legitimate(me, Projected(me, es), h)
  {
    ProjectionRuns(me, es);
    EveryHeldKeyIsLegitimate(me, Projected(me, es), h);
  }

  /**
   * Arrivals learnt from a roster are another matter: unless somebody also left, the authority keeps
   * its key and hands that one, from before the arrival, to the newcomer.
   */
  lemma RosterArrivalGetsTheOldKey(n: Node, newcomer: Id, peers: seq<Id>, secure: seq<Id>)
    requires n.members <= Listed(peers) && newcomer in peers && newcomer !in n.members
    requires AmAuthority(n.keys.me, Listed(peers)) && n.keys.ring.cur.Some?
    ensures var n' := Next(n, Roster(peers, secure));
            var k := n.keys.ring.cur.value;
            n'.keys == n.keys && Actions(n', Secure(newcomer)) == [SendKey(newcomer, k.gen, k.key)]
  {
    assert Departed(n.members, peers) == {};
  }

  // ---- the hypothesis is needed ----

  /**
   * A departure that this node answers for as authority leaves a key drawn after it if and only if
   * the counter is below its maximum, or the key replaced carries a larger id.
   */
  lemma DepartureIsAnsweredIff(w: Watch, e: Event)
    requires Sound(w) && Plausible(w.node, e) && IsDeparture(w.node, e) && Rotates(w.node, e)
    ensures var c, w' := w.node.keys, Observed(w, e);
            var k := w'.node.keys.ring.cur;
            (k.Some? && k.value.key.origin == c.me && w'.mark <= k.value.key.serial)
            <==> (c.roomGen < U32_MAX || Less(c.me, c.ring.cur.value.auth))
  {
    var c := w.node.keys;
    RotationIsFreshIff(c);
    if c.roomGen == U32_MAX && !Less(c.me, c.ring.cur.value.auth) {
      MintKeeps(c, U32_MAX);
    }
  }

  /** At the maximal counter the rotation after a departure is refused and the old key stays. */
  lemma SaturatedRotationKeepsTheOldKey(c: Coord, left: Id)
    requires Coherent(c) && c.roomGen == U32_MAX && c.ring.cur.Some? && c.ring.cur.value.auth == c.me
    ensures Next(Node({left}, c), PeerLeft(left, [])).keys.ring.cur == c.ring.cur
  {
    assert AmAuthority(c.me, {left} - {left});
    MintKeeps(c, U32_MAX);
    LessIrreflexive(c.me);
  }

  function Rekeys(n: nat): seq<Event> {
    seq(n, _ => Rekey([]))
  }

  /** Alone in the room, a node raises its counter by one with every rekey it asks for. */
  lemma {:induction false} RekeysRaiseTheCounter(me: Id, n: nat)
    requires n <= U32_MAX
    ensures Admissible(me, Rekeys(n))
    ensures var c := Watched(me, Rekeys(n)).node.keys;
            && Watched(me, Rekeys(n)).node.members == {} && c.me == me && c.roomGen == n && Coherent(c)
            && (n > 0 ==> c.ring.cur.Some? && c.ring.cur.value.auth == me)
  {
    if n == 0 {
      NewIsCoherent(me);
    } else {
      var es := Rekeys(n);
      RekeysRaiseTheCounter(me, n - 1);
      assert es[..n - 1] == Rekeys(n - 1) && es[n - 1] == Rekey([]);
      var w := Watched(me, Rekeys(n - 1));
      assert Rotates(w.node, Rekey([]));
      FreshBelowTheTop(w.node.keys);
      RotationIsCoherent(w.node.keys);
    }
  }

  lemma RotationIsCoherent(c: Coord)
    requires Coherent(c)
    ensures Coherent(Rotated(c)) && Rotated(c).me == c.me
  {
    MintKeeps(c, SatAdd32(c.roomGen, 1));
  }

  /** The run: rekeys up to the last but one generation, then somebody joins and is handed the last. */
  function UpToTheTop(left: Id): seq<Event> {
    Rekeys(U32_MAX - 1) + [PeerJoined(left, [left])]
  }

  /** A newcomer with a session is handed the key its joining mints. */
  lemma NewcomerIsTold(w: Watch, left: Id)
    requires Coherent(w.node.keys) && w.node.keys.roomGen < U32_MAX && w.node.keys.ring.cur.Some?
    requires w.node.members == {} && Less(w.node.keys.me, left)
    ensures var w' := Observed(w, PeerJoined(left, [left]));
            && w'.node == Node({left}, Rotated(w.node.keys)) && left in w'.told
  {
    var e, c := PeerJoined(left, [left]), Rotated(w.node.keys);
    assert MembersAfter(w.node, e) == {left};
    assert Rotates(w.node, e);
    FreshBelowTheTop(w.node.keys);
    assert Actions(w.node, e) == [SendKey(left, c.ring.cur.value.gen, c.ring.cur.value.key)];
    assert SendKey(left, c.ring.cur.value.gen, c.ring.cur.value.key) in Actions(w.node, e);
  }

  /** And goes on holding it after leaving, if the counter is at its maximum. */
  lemma DepartedStaysTold(w: Watch, left: Id)
    requires Coherent(w.node.keys) && w.node.keys.roomGen == U32_MAX && w.node.members == {left} && left in w.told
    requires w.node.keys.ring.cur.Some? && w.node.keys.ring.cur.value.auth == w.node.keys.me
    ensures var w' := Observed(w, PeerLeft(left, []));
            && w'.node.keys.ring.cur == w.node.keys.ring.cur && w'.node.members == {} && left in w'.gone
                && left in w'.told
  {
    SaturatedRotationKeepsTheOldKey(w.node.keys, left);
  }

  /**
   * A run within all hypotheses ends at the maximal counter with a member holding the staged key; when
   * that member then leaves, the key stays, and the departed goes on holding it.
   */
  lemma SaturationIsReachable(me: Id, left: Id)
    requires Less(me, left)
    ensures Admissible(me, UpToTheTop(left)) && Plausible(Watched(me, UpToTheTop(left)).node, PeerLeft(left, []))
    ensures var w := Watched(me, UpToTheTop(left));
            var w' := Observed(w, PeerLeft(left, []));
            && w.node.members == {left} && w.node.keys.roomGen == U32_MAX && left in w.told
            && w.node.keys.ring.cur.Some? && w'.node.keys.ring.cur == w.node.keys.ring.cur
            && left in w'.gone && left in w'.told && w'.node.members == {}
  {
    var es := UpToTheTop(left);
    RekeysRaiseTheCounter(me, U32_MAX - 1);
    assert es[..|es| - 1] == Rekeys(U32_MAX - 1) && es[|es| - 1] == PeerJoined(left, [left]);
    var v := Watched(me, Rekeys(U32_MAX - 1));
    NewcomerIsTold(v, left);
    FreshBelowTheTop(v.node.keys);
    RotationIsCoherent(v.node.keys);
    DepartedStaysTold(Watched(me, es), left);
  }
}
