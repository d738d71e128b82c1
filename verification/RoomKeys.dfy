/** Group-audio key coordination: `RoomKeyCoordinator` of lib.rs. */
module RoomKeys {
  import opened Wrappers
  import opened Ids
  import opened Words
  import opened Aead
  import opened GroupAudio

  const ROOM_GEN_BOUND: U32 := 1024

  predicate AmAuthority(me: Id, members: set<Id>) {
    forall k :: k in members ==> Less(me, k)
  }

  /** Membership of `from` is not checked, as in the source. */
  predicate IsAuthorityPeer(from: Id, me: Id, members: set<Id>) {
    Less(from, me) && forall k :: k in members ==> k == from || Less(from, k)
  }

  datatype KeyAction =
    | SendKey(peer: Id, gen: U32, key: KeyBytes)
    | SendGen(peer: Id, gen: U32)

  /**
   * The coordinator's state. `due` holds the promotions scheduled and not yet delivered, oldest
   * first; `mints` counts the keys generated here, so that each draw is a new value.
   */
  datatype Coord = Coord(me: Id, ring: Ring, roomGen: U32, due: seq<U32>, mints: nat) {
    function GenOrZero(): U32 {
      if ring.cur.Some? then ring.cur.value.gen else 0
    }
  }

  function New(me: Id): Coord {
    Coord(me, NO_KEYS, 0, [], 0)
  }

  function Adopted(c: Coord, k: RoomKey): Coord {
    if !Accepts(c.ring, k) then c
    else
      var staged := Staged(c.ring, k);
      var g := k.gen;
      var roomGen := if c.roomGen > g then c.roomGen else g;
      if c.ring.send.None? then c.(ring := Promoted(staged, g), roomGen := roomGen)
      else c.(ring := staged, roomGen := roomGen, due := c.due + [g])
  }

  /** Generate a key and adopt it. */
  function Minted(c: Coord, gen: U32): Coord {
    Adopted(c.(mints := c.mints + 1), RoomKey(gen, c.me, KeyBytes(c.me, c.mints)))
  }

  function HandOut(k: RoomKey, to: seq<Id>): seq<KeyAction> {
    seq(|to|, i requires 0 <= i < |to| => SendKey(to[i], k.gen, k.key))
  }

  function CurrentTo(c: Coord, to: seq<Id>): seq<KeyAction> {
    if c.ring.cur.Some? then HandOut(c.ring.cur.value, to) else []
  }

  function Rotated(c: Coord): Coord {
    Minted(c, SatAdd32(c.roomGen, 1))
  }

  function AfterSecure(c: Coord, members: set<Id>): Coord {
    if AmAuthority(c.me, members) && c.ring.cur.None? then
      var g := if c.roomGen > 1 then c.roomGen else 1;
      Minted(c.(roomGen := g), g)
    else c
  }

  function SecureActions(c: Coord, peer: Id, members: set<Id>): seq<KeyAction> {
    if AmAuthority(c.me, members) then CurrentTo(AfterSecure(c, members), [peer])
    else if IsAuthorityPeer(peer, c.me, members) && c.ring.cur.Some? then [SendGen(peer, c.ring.cur.value.gen)]
    else []
  }

  predicate TakesKey(c: Coord, from: Id, gen: U32, members: set<Id>) {
    IsAuthorityPeer(from, c.me, members) && gen <= SatAdd32(c.roomGen, ROOM_GEN_BOUND)
  }

  function AfterRoomKey(c: Coord, from: Id, gen: U32, key: KeyBytes, members: set<Id>): Coord {
    if TakesKey(c, from, gen, members) then Adopted(c, RoomKey(gen, from, key)) else c
  }

  predicate HeedsGen(c: Coord, from: Id, gen: U32, members: set<Id>) {
    AmAuthority(c.me, members) && from in members && c.roomGen < gen <= SatAdd32(c.roomGen, ROOM_GEN_BOUND)
  }

  function AfterRoomGen(c: Coord, from: Id, gen: U32, members: set<Id>): Coord {
    if HeedsGen(c, from, gen, members) then Rotated(c.(roomGen := gen)) else c
  }

  function RoomGenActions(c: Coord, from: Id, gen: U32, members: set<Id>, secure: seq<Id>): seq<KeyAction> {
    if HeedsGen(c, from, gen, members) then CurrentTo(AfterRoomGen(c, from, gen, members), secure) else []
  }

  /** The oldest scheduled promotion is delivered to the engine. */
  function AfterPromotion(c: Coord): Coord {
    if c.due == [] then c else c.(ring := Promoted(c.ring, c.due[0]), due := c.due[1..])
  }

  class RoomKeyCoordinator {
    const me: Id
    const room: RoomAudio
    var roomGen: U32
    var due: seq<U32>
    var mints: nat

    constructor (me: Id, room: RoomAudio)
      ensures this.me == me && this.room == room
      ensures Value() == New(me).(ring := room.Value())
    {
      this.me, this.room := me, room;
      roomGen, due, mints := 0, [], 0;
    }

    function Value(): Coord
      reads this, room
    {
      Coord(me, room.Value(), roomGen, due, mints)
    }

    method Adopt(k: RoomKey) returns (taken: bool)
      modifies this, room
      ensures Value() == Adopted(old(Value()), k)
      ensures taken == Accepts(old(room.Value()), k)
    {
      var first := room.send.None?;
      taken := room.Stage(k);
      if !taken {
        return;
      }
      var g := if room.cur.Some? then room.cur.value.gen else 0;
      roomGen := if roomGen > g then roomGen else g;
      if first {
        room.Promote(g);
      } else {
        due := due + [g];
      }
    }

    /** `RoomKey::generate`: fresh random bytes. */
    method Generate(gen: U32) returns (k: RoomKey)
      modifies this`mints
      ensures k == RoomKey(gen, me, KeyBytes(me, old(mints))) && mints == old(mints) + 1
    {
      k := RoomKey(gen, me, KeyBytes(me, mints));
      mints := mints + 1;
    }

    method Rotate(securePeers: seq<Id>) returns (actions: seq<KeyAction>)
      modifies this, room
      ensures Value() == Rotated(old(Value()))
      ensures actions == CurrentTo(Value(), securePeers)
    {
      var g := SatAdd32(roomGen, 1);
      var k := Generate(g);
      var _ := Adopt(k);
      actions := [];
      if room.cur.Some? {
        actions := HandOut(room.cur.value, securePeers);
      }
    }

    method OnSecure(peer: Id, members: set<Id>) returns (actions: seq<KeyAction>)
      modifies this, room
      ensures Value() == AfterSecure(old(Value()), members)
      ensures actions == SecureActions(old(Value()), peer, members)
    {
      actions := [];
      if AmAuthority(me, members) {
        if room.cur.None? {
          roomGen := if roomGen > 1 then roomGen else 1;
          var k := Generate(roomGen);
          var _ := Adopt(k);
        }
        if room.cur.Some? {
          actions := HandOut(room.cur.value, [peer]);
        }
      } else if IsAuthorityPeer(peer, me, members) {
        if room.cur.Some? {
          actions := [SendGen(peer, room.cur.value.gen)];
        }
      }
    }

    method OnRoomKey(from: Id, gen: U32, key: KeyBytes, members: set<Id>) returns (taken: bool)
      modifies this, room
      ensures Value() == AfterRoomKey(old(Value()), from, gen, key, members)
      ensures taken == (TakesKey(old(Value()), from, gen, members)
              && Accepts(old(room.Value()), RoomKey(gen, from, key)))
    {
      taken := false;
      if IsAuthorityPeer(from, me, members) && gen <= SatAdd32(roomGen, ROOM_GEN_BOUND) {
        taken := Adopt(RoomKey(gen, from, key));
      }
    }

    method OnRoomGen(from: Id, gen: U32, members: set<Id>, securePeers: seq<Id>) returns (actions: seq<KeyAction>)
      modifies this, room
      ensures Value() == AfterRoomGen(old(Value()), from, gen, members)
      ensures actions == RoomGenActions(old(Value()), from, gen, members, securePeers)
    {
      actions := [];
      if AmAuthority(me, members) && from in members && roomGen < gen && gen <= SatAdd32(roomGen, ROOM_GEN_BOUND) {
        roomGen := gen;
        actions := Rotate(securePeers);
      }
    }

    /** The promotion arm of the engine loop. */
    method OnPromotionDue()
      modifies this, room
      ensures Value() == AfterPromotion(old(Value()))
    {
      if due != [] {
        room.Promote(due[0]);
        due := due[1..];
      }
    }
  }

  // ---- what every event keeps ----

  /** `a` is `b` or was adopted after it. */
  predicate NotBefore(a: RoomKey, b: RoomKey) {
    a == b || Better(a, b)
  }

  ghost predicate PromotionsInOrder(c: Coord)
    requires c.ring.cur.Some? && c.ring.send.Some?
  {
    && (forall i, j :: 0 <= i <= j < |c.due| ==> c.due[i] <= c.due[j])
    && (forall i :: 0 <= i < |c.due| ==> c.ring.send.value.gen <= c.due[i] <= c.ring.cur.value.gen)
    && (if c.due == [] then c.ring.send == c.ring.cur else c.due[|c.due| - 1] == c.ring.cur.value.gen)
  }

  ghost predicate Coherent(c: Coord) {
    && c.roomGen == c.GenOrZero()
    && Descending(c.ring.Keys())
    && (c.ring.send.Some? <==> c.ring.cur.Some?)
    && (c.ring.cur.None? ==> c.ring.prev == [] && c.due == [])
    && (c.ring.cur.Some? ==>
      && PromotionsInOrder(c)
      && NotBefore(c.ring.cur.value, c.ring.send.value)
      && var newest := FindGen(c.ring.Keys(), c.ring.send.value.gen);
         newest.Some? ==> NotBefore(newest.value, c.ring.send.value))
  }

  lemma NewIsCoherent(me: Id)
    ensures Coherent(New(me))
  {}

  lemma StagedKeys(r: Ring, k: RoomKey)
    requires Accepts(r, k) && Descending(r.Keys()) && (r.cur.None? ==> r.prev == [])
    ensures var ks := Staged(r, k).Keys();
            && ks[0] == k && Descending(ks) && (r.cur.Some? ==> ks == [k] + Truncated(r.Keys()))
    ensures forall h :: h in Staged(r, k).Keys() ==> h == k || h in r.Keys()
  {
    if r.cur.Some? {
      StagingPushes(r, k);
      assert forall h :: h in Truncated(r.Keys()) ==> h in r.Keys();
    }
  }

  /** Dropping the oldest keys loses a generation's newest key only together with the generation. */
  lemma FindGenTruncated(ks: seq<RoomKey>, gen: U32)
    ensures FindGen(Truncated(ks), gen).Some? ==> FindGen(ks, gen) == FindGen(Truncated(ks), gen)
  {
    if |ks| > ROOM_KEY_PREV_SLOTS {
      assert ks[1..][1..] == ks[2..];
      assert Truncated(ks) == [ks[0], ks[1]];
      assert [ks[0], ks[1]][1..] == [ks[1]];
    }
  }

  /** Adopting keeps the coordinator coherent; it never touches the key already sealed with. */
  lemma AdoptKeeps(c: Coord, k: RoomKey)
    requires Coherent(c)
    ensures var c' := Adopted(c, k);
            && Coherent(c') && c'.roomGen >= c.roomGen
            && (Accepts(c.ring, k) ==> c'.ring.cur == Some(k) && c'.roomGen == k.gen)
            && (c.ring.send.Some? ==> c'.ring.send == c.ring.send)
  {
    if Accepts(c.ring, k) {
      StagedKeys(c.ring, k);
      var c' := Adopted(c, k);
      if c.ring.send.None? {
        assert FindGen(Staged(c.ring, k).Keys(), k.gen) == Some(k);
      } else {
        var s := c.ring.send.value;
        assert c'.ring.send == c.ring.send;
        assert c'.ring.Keys() == [k] + Truncated(c.ring.Keys());
        assert c'.ring.Keys()[1..] == Truncated(c.ring.Keys());
        FindGenTruncated(c.ring.Keys(), s.gen);
        if c.ring.cur.value != s {
          BetterTransitive(k, c.ring.cur.value, s);
        }
      }
    }
  }

  /** Delivering the oldest promotion moves the send key forward or leaves it. */
  lemma PromotionKeeps(c: Coord)
    requires Coherent(c)
    ensures var c' := AfterPromotion(c);
            && Coherent(c') && c'.roomGen == c.roomGen && c'.ring.cur == c.ring.cur
            && (c.ring.send.Some? ==> c'.ring.send.Some? && NotBefore(c'.ring.send.value, c.ring.send.value))
  {
    if c.due != [] {
      var g := c.due[0];
      var found := FindGen(c.ring.Keys(), g);
      assert c.ring.Keys()[0] == c.ring.cur.value;
      if found.Some? {
        assert found.value == c.ring.cur.value || Better(c.ring.cur.value, found.value);
      }
    }
  }

  /** A mint at a generation nothing staged has reached is always taken. */
  lemma MintKeeps(c: Coord, gen: U32)
    requires Coherent(c)
    ensures var c' := Minted(c, gen);
            && Coherent(c') && c'.roomGen >= c.roomGen && c'.mints == c.mints + 1
            && (c.ring.send.Some? ==> c'.ring.send == c.ring.send)
            && c'.ring.cur.Some?
            && (if Accepts(c.ring, RoomKey(gen, c.me, KeyBytes(c.me, c.mints)))
                then c'.ring.cur == Some(RoomKey(gen, c.me, KeyBytes(c.me, c.mints))) && c'.roomGen == gen
                else c'.ring == c.ring && c'.roomGen == c.roomGen)
  {
    AdoptKeeps(c.(mints := c.mints + 1), RoomKey(gen, c.me, KeyBytes(c.me, c.mints)));
  }

  /**
   * A rotation stages a freshly drawn key exactly when the counter is below its maximum, or the
   * key it replaces carries a larger id; and then every recipient is handed that key.
   */
  lemma RotationIsFreshIff(c: Coord)
    requires Coherent(c)
    requires c.ring.cur.Some? ==> c.ring.cur.value.key != KeyBytes(c.me, c.mints)
    ensures Coherent(Rotated(c)) && Rotated(c).roomGen >= c.roomGen && Rotated(c).mints == c.mints + 1
    ensures Rotated(c).ring.cur.Some?
    ensures Rotated(c).ring.cur.value.key == KeyBytes(c.me, c.mints)
       <==> c.roomGen < U32_MAX || Less(c.me, c.ring.cur.value.auth)
    ensures c.roomGen < U32_MAX ==>
            Rotated(c).ring.cur == Some(RoomKey(c.roomGen + 1, c.me, KeyBytes(c.me, c.mints)))
                && Rotated(c).roomGen == c.roomGen + 1
    ensures c.ring.send.Some? ==> Rotated(c).ring.send == c.ring.send
  {
    MintKeeps(c, SatAdd32(c.roomGen, 1));
  }

  /** Heeding a report: the reported counter is skipped over and the mint lands above it. */
  lemma RoomGenKeeps(c: Coord, from: Id, gen: U32, members: set<Id>)
    requires Coherent(c)
    ensures var c' := AfterRoomGen(c, from, gen, members);
            && Coherent(c') && c.roomGen <= c'.roomGen <= c.roomGen + ROOM_GEN_BOUND + 1
            && (c.ring.send.Some? ==> c'.ring.send == c.ring.send)
            && (c'.mints == c.mints || c'.mints == c.mints + 1)
            && (HeedsGen(c, from, gen, members) ==>
                  && c'.roomGen == SatAdd32(gen, 1)
                  && c'.ring.cur == Some(RoomKey(c'.roomGen, c.me, KeyBytes(c.me, c.mints))))
            && (!HeedsGen(c, from, gen, members) ==> c' == c)
  {
    if HeedsGen(c, from, gen, members) {
      var g := SatAdd32(gen, 1);
      MintKeeps(c, g);
      var k := RoomKey(g, c.me, KeyBytes(c.me, c.mints));
      assert Accepts(c.ring, k);
      assert AfterRoomGen(c, from, gen, members) == Minted(c, g);
    }
  }

  lemma SecureKeeps(c: Coord, members: set<Id>)
    requires Coherent(c)
    ensures var c' := AfterSecure(c, members);
            && Coherent(c') && c.roomGen <= c'.roomGen <= c.roomGen + 1
            && (c.ring.cur.Some? ==> c' == c)
            && (AmAuthority(c.me, members) ==> c'.ring.cur.Some?)
            && (AmAuthority(c.me, members) && c.ring.cur.None? ==>
                  c'.roomGen == 1 && c'.mints == c.mints + 1
                      && c'.ring.cur == Some(RoomKey(1, c.me, KeyBytes(c.me, c.mints))))
  {
    if AmAuthority(c.me, members) && c.ring.cur.None? {
      MintKeeps(c, 1);
      assert Minted(c.(roomGen := 1), 1) == Minted(c, 1);
    }
  }

  // ---- whole runs of one coordinator ----

  datatype KeyEvent =
    | SecureUp(peer: Id, members: set<Id>)
    | KeyArrived(from: Id, gen: U32, key: KeyBytes, members: set<Id>)
    | GenArrived(from: Id, gen: U32, members: set<Id>)
    | RotateAsked
    | PromotionDue

  function Applied(c: Coord, e: KeyEvent): Coord {
    match e
    case SecureUp(_, members) => AfterSecure(c, members)
    case KeyArrived(from, gen, key, members) => AfterRoomKey(c, from, gen, key, members)
    case GenArrived(from, gen, members) => AfterRoomGen(c, from, gen, members)
    case RotateAsked => Rotated(c)
    case PromotionDue => AfterPromotion(c)
  }

  function RunKeys(c: Coord, es: seq<KeyEvent>): Coord {
    if es == [] then c else Applied(RunKeys(c, es[..|es| - 1]), es[|es| - 1])
  }

  lemma EventKeeps(c: Coord, e: KeyEvent)
    requires Coherent(c)
    ensures var c' := Applied(c, e);
            && Coherent(c') && c.roomGen <= c'.roomGen <= c.roomGen + ROOM_GEN_BOUND + 1
            && (c.ring.cur.Some? ==> c'.ring.cur.Some?)
            && (c.ring.send.Some? ==> c'.ring.send.Some? && NotBefore(c'.ring.send.value, c.ring.send.value))
  {
    match e
    case SecureUp(_, members) => SecureKeeps(c, members);
    case KeyArrived(from, gen, key, members) => KeyArrivalKeeps(c, from, gen, key, members);
    case GenArrived(from, gen, members) => RoomGenKeeps(c, from, gen, members);
    case RotateAsked => MintKeeps(c, SatAdd32(c.roomGen, 1));
    case PromotionDue => PromotionKeeps(c);
  }

  lemma KeyArrivalKeeps(c: Coord, from: Id, gen: U32, key: KeyBytes, members: set<Id>)
    requires Coherent(c)
    ensures var c' := AfterRoomKey(c, from, gen, key, members);
            && Coherent(c') && c.roomGen <= c'.roomGen <= c.roomGen + ROOM_GEN_BOUND + 1
            && (c.ring.cur.Some? ==> c'.ring.cur.Some?)
            && (c.ring.send.Some? ==> c'.ring.send == c.ring.send)
  {
    AdoptKeeps(c, RoomKey(gen, from, key));
  }

  /** From any coherent state on, the send key only moves forward in the order keys are adopted. */
  lemma {:induction false} SealingNeverRegresses(c: Coord, es: seq<KeyEvent>)
    requires Coherent(c)
    ensures var c' := RunKeys(c, es);
            && Coherent(c') && c'.roomGen >= c.roomGen
            && (c.ring.cur.Some? ==> c'.ring.cur.Some?)
            && (c.ring.send.Some? ==> c'.ring.send.Some? && NotBefore(c'.ring.send.value, c.ring.send.value))
  {
    if es != [] {
      var c1 := RunKeys(c, es[..|es| - 1]);
      SealingNeverRegresses(c, es[..|es| - 1]);
      EventKeeps(c1, es[|es| - 1]);
      if c.ring.send.Some? {
        var s0, s1, s2 := c.ring.send.value, c1.ring.send.value, Applied(c1, es[|es| - 1]).ring.send.value;
        if Better(s1, s0) && Better(s2, s1) {
          BetterTransitive(s2, s1, s0);
        }
      }
    }
  }

  /** Once a key has been staged, no raw frame is emitted or accepted, whatever happens afterwards. */
  lemma NeverRawAgain(me: Id, before: seq<KeyEvent>, after: seq<KeyEvent>, opus: Bytes, nonce: Bytes, ct: Bytes,
                      log: seq<Sealing<KeyBytes>>, sender: Id, wire: Bytes)
    requires RunKeys(New(me), before).ring.cur.Some?
    requires wire != [] && wire[0] == AUDIO_RAW
    ensures var r := RunKeys(RunKeys(New(me), before), after).ring;
            && r.send.Some? && SealOutbound(r, opus, nonce, ct) == Some(SealedWire(r.send.value.gen, nonce, ct))
            && SealOutbound(r, opus, nonce, ct).value[0] == AUDIO_SEALED
            && OpenInbound(log, r, sender, wire).None?
  {
    NewIsCoherent(me);
    SealingNeverRegresses(New(me), before);
    SealingNeverRegresses(RunKeys(New(me), before), after);
  }

  /** `room_gen` is the staged generation, never falls, and grows by at most 1025 an event. */
  lemma {:induction false} GenerationAccounting(me: Id, es: seq<KeyEvent>)
    ensures var c := RunKeys(New(me), es);
            Coherent(c) && c.me == me && c.roomGen == c.GenOrZero() && c.roomGen <= 1025 * |es|
    ensures es != [] ==> RunKeys(New(me), es[..|es| - 1]).roomGen <= RunKeys(New(me), es).roomGen
  {
    if es == [] {
      NewIsCoherent(me);
    } else {
      var before := es[..|es| - 1];
      GenerationAccounting(me, before);
      EventKeeps(RunKeys(New(me), before), es[|es| - 1]);
      EventKeepsMe(RunKeys(New(me), before), es[|es| - 1]);
    }
  }

  lemma EventKeepsMe(c: Coord, e: KeyEvent)
    ensures Applied(c, e).me == c.me
  {}

  lemma FreshBelowTheTop(c: Coord)
    requires Coherent(c) && c.roomGen < U32_MAX
    ensures Rotated(c).roomGen == c.roomGen + 1
    ensures Rotated(c).ring.cur == Some(RoomKey(c.roomGen + 1, c.me, KeyBytes(c.me, c.mints)))
  {
    MintKeeps(c, c.roomGen + 1);
  }

  lemma AboveEverythingHeld(c: Coord, k: RoomKey)
    requires Coherent(c) && k.gen > c.roomGen
    ensures forall h :: h in c.ring.Keys() ==> Better(k, h)
  {
    forall h | h in c.ring.Keys() ensures h.gen <= c.roomGen {
      assert c.ring.Keys()[0] == c.ring.cur.value;
      var i :| 0 <= i < |c.ring.Keys()| && c.ring.Keys()[i] == h;
    }
  }

  lemma CounterStaysLow(events: nat, gen: nat)
    requires events <= 4_190_211 && gen <= 1025 * events
    ensures gen < U32_MAX
  {}

  /** So for the first 4,190,211 events every rotation lands strictly above everything held. */
  lemma MintsStrictlyFresh(me: Id, es: seq<KeyEvent>)
    requires |es| <= 4_190_211
    ensures var c := RunKeys(New(me), es);
            c.roomGen < U32_MAX &&
            var k := RoomKey(c.roomGen + 1, me, KeyBytes(me, c.mints));
            && Rotated(c).roomGen == k.gen && Rotated(c).ring.cur == Some(k)
            && forall h :: h in c.ring.Keys() ==> Better(k, h)
  {
    GenerationAccounting(me, es);
    CounterStaysLow(|es|, RunKeys(New(me), es).roomGen);
    FreshAboveAll(RunKeys(New(me), es));
  }

  lemma FreshAboveAll(c: Coord)
    requires Coherent(c) && c.roomGen < U32_MAX
    ensures var k := RoomKey(c.roomGen + 1, c.me, KeyBytes(c.me, c.mints));
            && Rotated(c).roomGen == k.gen && Rotated(c).ring.cur == Some(k)
            && forall h :: h in c.ring.Keys() ==> Better(k, h)
  {
    FreshBelowTheTop(c);
    AboveEverythingHeld(c, RoomKey(c.roomGen + 1, c.me, KeyBytes(c.me, c.mints)));
  }

  /** Nobody sends bytes that this node is going to draw but has not drawn yet. */
  ghost predicate Unguessed(me: Id, es: seq<KeyEvent>) {
    es != [] ==>
      var e := es[|es| - 1];
      && Unguessed(me, es[..|es| - 1])
      && (e.KeyArrived? && e.key.origin == me ==> e.key.serial < RunKeys(New(me), es[..|es| - 1]).mints)
  }

  /** The keys a run has held for opening, or received, up to its end. */
  ghost predicate Used(me: Id, es: seq<KeyEvent>, b: KeyBytes) {
    || (exists h :: h in RunKeys(New(me), es).ring.Keys() && h.key == b)
    || (es != [] && ((es[|es| - 1].KeyArrived? && es[|es| - 1].key == b) || Used(me, es[..|es| - 1], b)))
  }

  /** Staging a key adds no other. */
  lemma AdoptedKeys(c: Coord, k: RoomKey)
    ensures forall h :: h in Adopted(c, k).ring.Keys() ==> h in c.ring.Keys() || h == k
  {}

  ghost predicate DrawsOnly(c: Coord, d: Coord, e: KeyEvent) {
    && d.mints >= c.mints
    && forall h :: h in d.ring.Keys() ==>
         || h in c.ring.Keys()
         || (e.KeyArrived? && h.key == e.key)
         || (h.key == KeyBytes(c.me, c.mints) && d.mints > c.mints)
  }

  lemma EventDraws(c: Coord, e: KeyEvent)
    ensures DrawsOnly(c, Applied(c, e), e)
  {
    var drawn := KeyBytes(c.me, c.mints);
    var counted := c.(mints := c.mints + 1);
    match e
    case SecureUp(_, _) =>
      var g := if c.roomGen > 1 then c.roomGen else 1;
      AdoptedKeys(counted.(roomGen := g), RoomKey(g, c.me, drawn));
    case KeyArrived(from, gen, key, _) => AdoptedKeys(c, RoomKey(gen, from, key));
    case GenArrived(_, gen, _) => AdoptedKeys(counted.(roomGen := gen), RoomKey(SatAdd32(gen, 1), c.me, drawn));
    case RotateAsked => AdoptedKeys(counted, RoomKey(SatAdd32(c.roomGen, 1), c.me, drawn));
    case PromotionDue =>
  }

  lemma {:induction false} OnlyDrawnBytesAreUsed(me: Id, es: seq<KeyEvent>, b: KeyBytes)
    requires Unguessed(me, es) && Used(me, es, b) && b.origin == me
    ensures b.serial < RunKeys(New(me), es).mints
  {
    if es != [] {
      var before, e := es[..|es| - 1], es[|es| - 1];
      var c := RunKeys(New(me), before);
      EventDraws(c, e);
      GenerationAccounting(me, before);
      if Used(me, before, b) {
        OnlyDrawnBytesAreUsed(me, before, b);
      } else if !(e.KeyArrived? && e.key == b) {
        var h :| h in Applied(c, e).ring.Keys() && h.key == b;
        assert h !in c.ring.Keys();
      }
    }
  }

  /** And its bytes have never been held or received before. */
  lemma MintsNewBytes(me: Id, es: seq<KeyEvent>)
    requires Unguessed(me, es)
    ensures !Used(me, es, KeyBytes(me, RunKeys(New(me), es).mints))
  {
    if Used(me, es, KeyBytes(me, RunKeys(New(me), es).mints)) {
      OnlyDrawnBytesAreUsed(me, es, KeyBytes(me, RunKeys(New(me), es).mints));
    }
  }

  // ---- who may change the key ----

  /** `x` is the least of the node and its members. */
  ghost predicate LeastOf(x: Id, me: Id, members: set<Id>) {
    forall y :: y in members + {me} && y != x ==> Less(x, y)
  }

  /**
   * A received key changes a node only if its sender is the least of the room as the node sees it, at most
   * 1024 ahead.
   */
  lemma KeysComeFromTheAuthority(c: Coord, from: Id, gen: U32, key: KeyBytes, members: set<Id>)
    requires AfterRoomKey(c, from, gen, key, members) != c
    ensures LeastOf(from, c.me, members) && gen <= c.roomGen + 1024
    ensures AfterRoomKey(c, from, gen, key, members).ring.cur == Some(RoomKey(gen, from, key))
  {
    if c.ring.send.None? {
      assert Staged(c.ring, RoomKey(gen, from, key)).Keys()[0] == RoomKey(gen, from, key);
    }
  }

  /** Every such key that is better than the current one is taken. */
  lemma TheAuthorityIsBelieved(c: Coord, from: Id, gen: U32, key: KeyBytes, members: set<Id>)
    requires LeastOf(from, c.me, members) && from != c.me && gen <= c.roomGen + 1024
    requires c.ring.cur.Some? ==> Better(RoomKey(gen, from, key), c.ring.cur.value)
    ensures AfterRoomKey(c, from, gen, key, members).ring.cur == Some(RoomKey(gen, from, key))
  {
    assert Less(from, c.me);
    if c.ring.send.None? {
      assert Staged(c.ring, RoomKey(gen, from, key)).Keys()[0] == RoomKey(gen, from, key);
    }
  }

  /**
   * A report changes a node exactly if it is the least of the room, and hears from a member of 1 to 1024
   * generations more.
   */
  lemma ReportsAreHeededIff(c: Coord, from: Id, gen: U32, members: set<Id>)
    requires Coherent(c)
    ensures AfterRoomGen(c, from, gen, members) != c
       <==> c.me !in members && LeastOf(c.me, c.me, members) && from in members && c.roomGen < gen <= c.roomGen + 1024
  {
    LessIrreflexive(c.me);
    RoomGenKeeps(c, from, gen, members);
  }

  /** A session coming up changes a node exactly if it is the least of the room and holds no key yet. */
  lemma SessionsMintIff(c: Coord, members: set<Id>)
    requires Coherent(c)
    ensures AfterSecure(c, members) != c <==> c.me !in members && LeastOf(c.me, c.me, members) && c.ring.cur.None?
  {
    LessIrreflexive(c.me);
    SecureKeeps(c, members);
  }

  /** Drawn here, with a draw counted by the end of the run. */
  ghost predicate OwnDraw(me: Id, c: Coord, k: RoomKey) {
    k.auth == me && k.key.origin == me && k.key.serial < c.mints
  }

  /** Event `i` brought `k` from the least id of the room, as the node saw it then. */
  ghost predicate BroughtBy(me: Id, es: seq<KeyEvent>, i: nat, k: RoomKey) {
    && i < |es| && es[i].KeyArrived?
    && k == RoomKey(es[i].gen, es[i].from, es[i].key)
    && es[i].from != me && LeastOf(es[i].from, me, es[i].members)
  }

  ghost predicate Legitimate(me: Id, es: seq<KeyEvent>, k: RoomKey) {
    OwnDraw(me, RunKeys(New(me), es), k) || exists i :: BroughtBy(me, es, i, k)
  }

  ghost predicate Holds(c: Coord, k: RoomKey) {
    k in c.ring.Keys() || c.ring.send == Some(k)
  }

  lemma AdoptedHolds(c: Coord, k: RoomKey, h: RoomKey)
    requires Holds(Adopted(c, k), h)
    ensures Holds(c, h) || h == k
  {}

  lemma LegitimateLasts(me: Id, es: seq<KeyEvent>, k: RoomKey)
    requires es != [] && Legitimate(me, es[..|es| - 1], k)
    ensures Legitimate(me, es, k)
  {
    var before := es[..|es| - 1];
    EventDraws(RunKeys(New(me), before), es[|es| - 1]);
    if !OwnDraw(me, RunKeys(New(me), before), k) {
      var i: nat :| BroughtBy(me, before, i, k);
      assert es[i] == before[i];
      assert BroughtBy(me, es, i, k);
    }
  }

  /** What one event brings a node to hold. */
  lemma EventHolds(c: Coord, e: KeyEvent, h: RoomKey)
    requires Coherent(c) && Holds(Applied(c, e), h) && !Holds(c, h)
    ensures || OwnDraw(c.me, Applied(c, e), h)
            || (e.KeyArrived? && h == RoomKey(e.gen, e.from, e.key) && e.from != c.me
                && LeastOf(e.from, c.me, e.members))
  {
    var drawn := KeyBytes(c.me, c.mints);
    var counted := c.(mints := c.mints + 1);
    match e
    case SecureUp(_, _) =>
      var g := if c.roomGen > 1 then c.roomGen else 1;
      AdoptedHolds(counted.(roomGen := g), RoomKey(g, c.me, drawn), h);
    case KeyArrived(from, gen, key, members) =>
      KeysComeFromTheAuthority(c, from, gen, key, members);
      AdoptedHolds(c, RoomKey(gen, from, key), h);
      LessIrreflexive(c.me);
    case GenArrived(_, gen, _) => AdoptedHolds(counted.(roomGen := gen), RoomKey(SatAdd32(gen, 1), c.me, drawn), h);
    case RotateAsked => AdoptedHolds(counted, RoomKey(SatAdd32(c.roomGen, 1), c.me, drawn), h);
    case PromotionDue =>
  }

  /**
   * Whatever a run brings, every key the node holds, for opening or for sealing, is its own draw or was
   * received from the least id of the room as the node saw it when the key arrived.
   */
  lemma {:induction false} EveryHeldKeyIsLegitimate(me: Id, es: seq<KeyEvent>, h: RoomKey)
    requires Holds(RunKeys(New(me), es), h)
    ensures Legitimate(me, es, h)
  {
    if es != [] {
      var before, e := es[..|es| - 1], es[|es| - 1];
      var c := RunKeys(New(me), before);
      GenerationAccounting(me, before);
      if Holds(c, h) {
        EveryHeldKeyIsLegitimate(me, before, h);
        LegitimateLasts(me, es, h);
      } else {
        EventHolds(c, e, h);
        if !OwnDraw(me, Applied(c, e), h) {
          assert BroughtBy(me, es, |es| - 1, h);
        }
      }
    }
  }
}
