/** PIN-protected session brokering: sessions.rs. */
module Pins {
  import opened Wrappers
  import opened Words
  import opened Counting

  const MAX_AGE_SECS: U64 := 86400
  const EMPTY_GRACE_SECS: U64 := 300
  const MAX_ATTEMPTS: nat := 6
  const LOCK_SECS: U64 := 600
  const SWEEP_SECS: U64 := 60

  type Pin = seq<bv8>
  type Code = string

  datatype Session = Session(room: string, token: Option<string>, pin: Pin, created: U64, lastActive: U64,
                             attempts: nat, lockedAt: U64)

  datatype JoinError = NotFound | Locked | BadPin
  datatype Outcome = Joined(room: string, token: Option<string>) | Refused(error: JoinError)

  /** Comparison without an early exit. */
  method CtEq(a: seq<bv8>, b: seq<bv8>) returns (same: bool)
    ensures same <==> a == b
  {
    if |a| != |b| {
      return false;
    }
    var diff: bv8 := 0;
    for i := 0 to |a|
      invariant diff == 0 <==> a[..i] == b[..i]
    {
      assert a[..i + 1] == a[..i] + [a[i]] && b[..i + 1] == b[..i] + [b[i]];
      OrXorZero(diff, a[i], b[i]);
      diff := diff | (a[i] ^ b[i]);
    }
    assert a[..|a|] == a && b[..|a|] == b;
    return diff == 0;
  }

  lemma OrXorZero(d: bv8, x: bv8, y: bv8)
    ensures d | (x ^ y) == 0 <==> d == 0 && x == y
  {}

  // ---- one session ----

  predicate LockedOut(s: Session, t: U64) {
    s.attempts >= MAX_ATTEMPTS && t < SatAdd64(s.lockedAt, LOCK_SECS)
  }

  function Answer(s: Session, pin: Pin, t: U64): Outcome {
    if LockedOut(s, t) then Refused(Locked)
    else if s.pin == pin then Joined(s.room, s.token)
    else Refused(BadPin)
  }

  function Tried(s: Session, pin: Pin, t: U64): Session {
    if LockedOut(s, t) then s
    else
      var used := if s.attempts >= MAX_ATTEMPTS then 0 else s.attempts;
      if s.pin == pin then s.(attempts := used, lastActive := t)
      else if used + 1 >= MAX_ATTEMPTS then s.(attempts := used + 1, lockedAt := t)
      else s.(attempts := used + 1)
  }

  /** `saturating_sub`. */
  function Since(now: U64, then': U64): U64 {
    if now >= then' then now - then' else 0
  }

  predicate Survives(s: Session, now: U64, occupied: bool) {
    Since(now, s.created) < MAX_AGE_SECS && (occupied || Since(now, s.lastActive) < EMPTY_GRACE_SECS)
  }

  function Swept(s: Session, now: U64, occupied: bool): Session {
    if occupied then s.(lastActive := now) else s
  }

  // ---- the table of sessions ----

  type Table = map<Code, Session>

  function Reaped(m: Table, now: U64, occupied: set<string>): Table {
    map c | c in m && Survives(m[c], now, m[c].room in occupied) :: Swept(m[c], now, m[c].room in occupied)
  }

  class Sessions {
    var inner: Table

    constructor ()
      ensures inner == map[]
    {
      inner := map[];
    }

    /** `code` is the first random draw that is not taken. */
    method Create(code: Code, pin: Pin, room: string, token: Option<string>, t: U64)
      requires code !in inner
      modifies this
      ensures inner == old(inner)[code := Session(room, token, pin, t, t, 0, 0)]
    {
      inner := inner[code := Session(room, token, pin, t, t, 0, 0)];
    }

    method JoinAt(code: Code, pin: Pin, t: U64) returns (r: Outcome)
      modifies this
      ensures code !in old(inner) ==> r == Refused(NotFound) && inner == old(inner)
      ensures code in old(inner) ==>
                r == Answer(old(inner)[code], pin, t) && inner == old(inner)[code := Tried(old(inner)[code], pin, t)]
    {
      if code !in inner {
        return Refused(NotFound);
      }
      var s := inner[code];
      if s.attempts >= MAX_ATTEMPTS {
        if t < SatAdd64(s.lockedAt, LOCK_SECS) {
          return Refused(Locked);
        }
        s := s.(attempts := 0);
      }
      var same := CtEq(s.pin, pin);
      if same {
        s := s.(lastActive := t);
        r := Joined(s.room, s.token);
      } else {
        s := s.(attempts := s.attempts + 1);
        if s.attempts >= MAX_ATTEMPTS {
          s := s.(lockedAt := t);
        }
        r := Refused(BadPin);
      }
      inner := inner[code := s];
    }

    method Reap(now: U64, occupied: set<string>)
      modifies this
      ensures inner == Reaped(old(inner), now, occupied)
    {
      var kept: Table := map[];
      var todo := inner.Keys;
      while todo != {}
        invariant todo <= inner.Keys && inner == old(inner)
        invariant kept == map c | c in Reaped(inner, now, occupied) && c !in todo :: Reaped(inner, now, occupied)[c]
      {
        var c :| c in todo;
        var s := inner[c];
        todo := todo - {c};
        if Since(now, s.created) < MAX_AGE_SECS {
          if s.room in occupied {
            kept := kept[c := s.(lastActive := now)];
          } else if Since(now, s.lastActive) < EMPTY_GRACE_SECS {
            kept := kept[c := s];
          }
        }
      }
      inner := kept;
    }
  }

  // ---- the life of one session ----

  datatype Event =
    | Try(pin: Pin, t: U64)
    | Sweep(t: U64, occupied: bool)

  function Live(s: Option<Session>, e: Event): Option<Session> {
    if s.None? then None
    else
      match e
      case Try(pin, t) => Some(Tried(s.value, pin, t))
      case Sweep(t, occupied) => if Survives(s.value, t, occupied) then Some(Swept(s.value, t, occupied)) else None
  }

  function Life(s: Option<Session>, es: seq<Event>): Option<Session> {
    if es == [] then s else Live(Life(s, es[..|es| - 1]), es[|es| - 1])
  }

  /** The times at which a wrong PIN was actually compared. */
  function WrongTimes(s: Option<Session>, es: seq<Event>): seq<U64> {
    if es == [] then []
    else
      var before := es[..|es| - 1];
      var now := Life(s, before);
      var e := es[|es| - 1];
      WrongTimes(s, before) + (if now.Some? && e.Try? && Answer(now.value, e.pin, e.t) == Refused(BadPin) then [e.t]
          else [])
  }

  /** The PIN has a say in what an attempt at time `t` is answered or does. */
  ghost predicate PinMatters(s: Session, t: U64) {
    exists p: Pin, q: Pin :: Answer(s, p, t) != Answer(s, q, t) || Tried(s, p, t) != Tried(s, q, t)
  }

  /** While six wrong PINs are being sat out, every PIN gets the same refusal and nothing changes. */
  lemma LockedAnswerIgnoresThePin(s: Session, t: U64)
    requires s.attempts >= 6 && t < s.lockedAt + 600 <= U64_MAX
    ensures !PinMatters(s, t)
    ensures forall p: Pin :: Answer(s, p, t) == Refused(Locked) && Tried(s, p, t) == s
  {}

  /** Otherwise the right PIN, and no other, is let in. */
  lemma OnlyTheRightPinIsAdmitted(s: Session, t: U64, p: Pin)
    requires s.attempts < 6 || t >= s.lockedAt + 600
    ensures PinMatters(s, t)
    ensures Answer(s, p, t) == if p == s.pin then Joined(s.room, s.token) else Refused(BadPin)
    ensures p == s.pin ==> Tried(s, p, t).lastActive == t && Tried(s, p, t).attempts < 6
  {
    var other := s.pin + [0];
    assert other != s.pin;
    assert Answer(s, s.pin, t) != Answer(s, other, t);
  }

  /** The times of wrong PINs tried when the PIN had a say: guesses somebody could learn from. */
  ghost function GuessTimes(s: Option<Session>, es: seq<Event>): seq<U64> {
    if es == [] then []
    else
      var before := es[..|es| - 1];
      var now := Life(s, before);
      var e := es[|es| - 1];
      GuessTimes(s, before)
      + (if now.Some? && e.Try? && e.pin != now.value.pin && PinMatters(now.value, e.t) then [e.t] else [])
  }

  /** A wrong PIN is compared exactly when it had a say. */
  lemma ComparedIffItMatters(s: Session, p: Pin, t: U64)
    requires t <= U64_MAX - LOCK_SECS
    ensures Answer(s, p, t) == Refused(BadPin) <==> p != s.pin && PinMatters(s, t)
  {
    if s.attempts >= 6 && t < s.lockedAt + 600 {
      if s.lockedAt + 600 <= U64_MAX {
        LockedAnswerIgnoresThePin(s, t);
      } else {
        assert forall q: Pin :: Answer(s, q, t) == Refused(Locked) && Tried(s, q, t) == s;
      }
    } else {
      OnlyTheRightPinIsAdmitted(s, t, p);
    }
  }

  lemma {:induction false} GuessesAreComparisons(s: Option<Session>, es: seq<Event>)
    requires forall i :: 0 <= i < |es| ==> es[i].t <= U64_MAX - LOCK_SECS
    ensures GuessTimes(s, es) == WrongTimes(s, es)
  {
    if es != [] {
      var before, e := es[..|es| - 1], es[|es| - 1];
      GuessesAreComparisons(s, before);
      var now := Life(s, before);
      if now.Some? && e.Try? {
        ComparedIffItMatters(now.value, e.pin, e.t);
      }
    }
  }

  /** Times do not run backwards, and stay clear of the end of the u64 range. */
  ghost predicate Timed(from: U64, es: seq<Event>) {
    && (forall i :: 0 <= i < |es| ==> from <= es[i].t <= U64_MAX - LOCK_SECS)
    && (forall i, j :: 0 <= i <= j < |es| ==> es[i].t <= es[j].t)
  }

  /** After every sixth wrong PIN comes a pause. */
  ghost predicate Spaced(w: seq<U64>) {
    && (forall i, j :: 0 <= i <= j < |w| ==> w[i] <= w[j])
    && (forall q :: 0 < q < |w| && q % MAX_ATTEMPTS == 0 ==> w[q] >= w[q - 1] + LOCK_SECS)
  }

  /** The guess budget is what the wrong PINs so far leave of it. */
  ghost predicate Budget(s: Session, w: seq<U64>, now: U64) {
    var n := |w|;
    if n % MAX_ATTEMPTS != 0 then s.attempts == n % MAX_ATTEMPTS
    else if n == 0 then s.attempts == 0
    else (s.attempts == MAX_ATTEMPTS && s.lockedAt == w[n - 1]) || (s.attempts == 0 && now >= w[n - 1] + LOCK_SECS)
  }

  ghost predicate Fresh(s: Session) {
    s.attempts == 0
  }

  lemma TryKeeps(s: Session, w: seq<U64>, last: U64, pin: Pin, t: U64)
    requires Spaced(w) && Budget(s, w, last) && last <= t <= U64_MAX - LOCK_SECS
    requires w != [] ==> w[|w| - 1] <= last
    ensures var w' := w + (if Answer(s, pin, t) == Refused(BadPin) then [t] else []);
            Spaced(w') && Budget(Tried(s, pin, t), w', t) && (w' != [] ==> w'[|w'| - 1] <= t)
  {}

  /** What is known after any part of a session's life, `last` being the time of the latest event. */
  ghost predicate Accounted(s: Option<Session>, created: U64, w: seq<U64>, last: U64) {
    && Spaced(w) && (w != [] ==> w[|w| - 1] <= last)
    && (s.Some? ==> Budget(s.value, w, last) && s.value.created == created)
  }

  lemma EventKeeps(s: Option<Session>, created: U64, w: seq<U64>, last: U64, e: Event)
    requires Accounted(s, created, w, last) && last <= e.t <= U64_MAX - LOCK_SECS
    ensures Accounted(Live(s, e), created,
                      w + (if s.Some? && e.Try? && Answer(s.value, e.pin, e.t) == Refused(BadPin) then [e.t]
                          else []), e.t)
  {
    if s.Some? && e.Try? {
      TryKeeps(s.value, w, last, e.pin, e.t);
    } else {
      assert w + [] == w;
    }
  }

  function LastTime(created: U64, es: seq<Event>): U64 {
    if es == [] then created else es[|es| - 1].t
  }

  lemma {:induction false} LifeKeeps(s: Session, es: seq<Event>)
    requires Fresh(s) && Timed(s.created, es)
    ensures Accounted(Life(Some(s), es), s.created, WrongTimes(Some(s), es), LastTime(s.created, es))
  {
    if es != [] {
      var before, e := es[..|es| - 1], es[|es| - 1];
      assert Timed(s.created, before);
      LifeKeeps(s, before);
      EventKeeps(Life(Some(s), before), s.created, WrongTimes(Some(s), before), LastTime(s.created, before), e);
    }
  }

  /** `6 * m` wrong PINs further on, `m` locks have been sat out. */
  lemma {:induction false} SixPerLock(w: seq<U64>, i: nat, m: nat)
    requires Spaced(w) && i + MAX_ATTEMPTS * m < |w|
    ensures w[i + MAX_ATTEMPTS * m] >= w[i] + LOCK_SECS * m
  {
    if m > 0 {
      SixPerLock(w, i, m - 1);
      var k := i + MAX_ATTEMPTS * (m - 1);
      var q := k + MAX_ATTEMPTS - k % MAX_ATTEMPTS;
      assert q % MAX_ATTEMPTS == 0 && k < q <= k + MAX_ATTEMPTS;
      assert w[q] >= w[q - 1] + LOCK_SECS;
    }
  }

  function Within(w: seq<U64>, lo: nat, hi: nat): set<nat> {
    set i: nat | i < |w| && lo <= w[i] <= hi
  }

  lemma SpacedBound(w: seq<U64>, lo: nat, span: nat)
    requires Spaced(w)
    ensures |Within(w, lo, lo + span)| <= MAX_ATTEMPTS * (span / LOCK_SECS + 1)
  {
    var s := Within(w, lo, lo + span);
    var m := span / LOCK_SECS + 1;
    if s != {} {
      var i := Smallest(s);
      forall k | k in s ensures k in Interval(i, MAX_ATTEMPTS * m) {
        if k >= i + MAX_ATTEMPTS * m {
          SixPerLock(w, i, m);
        }
      }
      SubsetSize(s, Interval(i, MAX_ATTEMPTS * m));
    }
  }

  /**
   * Whatever is tried, the wrong PINs that were compared, and those that had any say in the answer or
   * its effect, number at most six for every lock window begun in a closed interval of `span` seconds.
   */
  lemma PinGuessBound(s: Session, es: seq<Event>, lo: nat, span: nat)
    requires Fresh(s) && Timed(s.created, es)
    ensures |Within(WrongTimes(Some(s), es), lo, lo + span)| <= MAX_ATTEMPTS * (span / LOCK_SECS + 1)
    ensures |Within(GuessTimes(Some(s), es), lo, lo + span)| <= MAX_ATTEMPTS * (span / LOCK_SECS + 1)
  {
    GuessesAreComparisons(Some(s), es);
    LifeKeeps(s, es);
    SpacedBound(WrongTimes(Some(s), es), lo, span);
  }

  /** Every event later than one sweep period after creation comes within a period of a sweep. */
  ghost predicate SweptRegularly(created: U64, es: seq<Event>) {
    forall i {:trigger SweptBefore(es, i)} :: 0 <= i < |es| && es[i].t > created + SWEEP_SECS ==> SweptBefore(es, i)
  }

  ghost predicate SweptBefore(es: seq<Event>, i: nat)
    requires i < |es|
  {
    exists j :: 0 <= j < i && es[j].Sweep? && es[j].t + SWEEP_SECS >= es[i].t
  }

  lemma {:induction false} DeadStaysDead(s: Option<Session>, es: seq<Event>, j: nat)
    requires j <= |es| && Life(s, es[..j]).None?
    ensures Life(s, es).None?
  {
    if j == |es| {
      assert es[..j] == es;
    } else {
      assert es[..|es| - 1][..j] == es[..j];
      DeadStaysDead(s, es[..|es| - 1], j);
    }
  }

  /** The age cap ends a session at the first sweep a day after its creation. */
  lemma TooOldIsGone(s: Session, es: seq<Event>, j: nat)
    requires Fresh(s) && Timed(s.created, es) && j < |es| && es[j].Sweep? && es[j].t >= s.created + MAX_AGE_SECS
    ensures Life(Some(s), es).None?
  {
    var upto := es[..j + 1];
    assert upto[..|upto| - 1] == es[..j] && upto[|upto| - 1] == es[j];
    assert Timed(s.created, es[..j]);
    LifeKeeps(s, es[..j]);
    DeadStaysDead(Some(s), es, j + 1);
  }

  lemma SweptRegularlyBefore(created: U64, es: seq<Event>)
    requires es != [] && SweptRegularly(created, es)
    ensures SweptRegularly(created, es[..|es| - 1])
  {
    var before := es[..|es| - 1];
    forall i | 0 <= i < |before| && before[i].t > created + SWEEP_SECS ensures SweptBefore(before, i) {
      assert es[i] == before[i] && SweptBefore(es, i);
      var j :| 0 <= j < i && es[j].Sweep? && es[j].t + SWEEP_SECS >= es[i].t;
      assert before[j] == es[j];
    }
  }

  /** Past the age cap and a sweep period, nothing is left to guess at. */
  lemma LateEventFindsNothing(s: Session, es: seq<Event>)
    requires Fresh(s) && Timed(s.created, es) && SweptRegularly(s.created, es)
    requires es != [] && es[|es| - 1].t > s.created + MAX_AGE_SECS + SWEEP_SECS
    ensures Life(Some(s), es[..|es| - 1]).None?
  {
    var before := es[..|es| - 1];
    assert SweptBefore(es, |es| - 1);
    var j :| 0 <= j < |es| - 1 && es[j].Sweep? && es[j].t + SWEEP_SECS >= es[|es| - 1].t;
    assert before[j] == es[j];
    assert Timed(s.created, before);
    TooOldIsGone(s, before, j);
  }

  lemma {:induction false} WrongTimesEndWithLife(s: Session, es: seq<Event>, k: nat)
    requires Fresh(s) && Timed(s.created, es) && SweptRegularly(s.created, es) && k < |WrongTimes(Some(s), es)|
    ensures s.created <= WrongTimes(Some(s), es)[k] <= s.created + MAX_AGE_SECS + SWEEP_SECS
  {
    var before, e := es[..|es| - 1], es[|es| - 1];
    assert Timed(s.created, before);
    SweptRegularlyBefore(s.created, es);
    if k < |WrongTimes(Some(s), before)| {
      WrongTimesEndWithLife(s, before, k);
    } else if e.t > s.created + MAX_AGE_SECS + SWEEP_SECS {
      LateEventFindsNothing(s, es);
    }
  }

  /** So with sweeps at most a minute apart a session takes at most 870 wrong guesses in its life. */
  lemma LifetimeGuessBound(s: Session, es: seq<Event>)
    requires Fresh(s) && Timed(s.created, es) && SweptRegularly(s.created, es)
    ensures |WrongTimes(Some(s), es)| <= 870 && |GuessTimes(Some(s), es)| <= 870
  {
    GuessesAreComparisons(Some(s), es);
    var w := WrongTimes(Some(s), es);
    var span := MAX_AGE_SECS + SWEEP_SECS;
    PinGuessBound(s, es, s.created, span);
    forall k | 0 <= k < |w| ensures s.created <= w[k] <= s.created + span {
      WrongTimesEndWithLife(s, es, k);
    }
    AllWithin(w, s.created, s.created + span);
  }

  lemma AllWithin(w: seq<U64>, lo: nat, hi: nat)
    requires forall k :: 0 <= k < |w| ==> lo <= w[k] <= hi
    ensures |Within(w, lo, hi)| == |w|
  {
    assert Within(w, lo, hi) == Interval(0, |w|);
  }

  /** Near the end of the u64 range a lock opens before its time, at the last second if at all. */
  lemma LockOpensEarlyIff(s: Session)
    requires s.attempts >= MAX_ATTEMPTS
    ensures (exists t: U64 :: t < s.lockedAt + LOCK_SECS && !LockedOut(s, t)) <==> s.lockedAt > U64_MAX - LOCK_SECS
  {
    if s.lockedAt > U64_MAX - LOCK_SECS {
      assert !LockedOut(s, U64_MAX);
    }
  }

  // ---- when a session ends ----

  /** The latest time the room was seen occupied or the right PIN let somebody in. */
  function LastSeen(s: Session, es: seq<Event>): U64 {
    if es == [] then s.lastActive
    else
      var now, e := Life(Some(s), es[..|es| - 1]), es[|es| - 1];
      if now.Some? && (if e.Try? then Answer(now.value, e.pin, e.t).Joined? else e.occupied) then e.t
      else LastSeen(s, es[..|es| - 1])
  }

  lemma {:induction false} LastActiveIsLastSeen(s: Session, es: seq<Event>)
    requires Life(Some(s), es).Some?
    ensures var now := Life(Some(s), es).value;
            now.lastActive == LastSeen(s, es) && now.created == s.created && now.pin == s.pin && now.room == s.room
  {
    if es != [] {
      LastActiveIsLastSeen(s, es[..|es| - 1]);
    }
  }

  /**
   * A sweep spares a living session if and only if it is under a day old and its room is occupied or was
   * seen within the last five minutes; nothing else ever ends one.
   */
  lemma SessionEndsIff(s: Session, es: seq<Event>, e: Event)
    requires Life(Some(s), es).Some? && s.created <= e.t && LastSeen(s, es) <= e.t
    ensures Life(Some(s), es + [e]).Some?
       <==> e.Try? || (e.t - s.created < 24 * 3600 && (e.occupied || e.t - LastSeen(s, es) < 5 * 60))
  {
    LifeAppend(Some(s), es, e);
    LastActiveIsLastSeen(s, es);
  }

  // ---- the life of a session inside the table ----

  datatype TableEvent =
    | Creates(code: Code, session: Session)
    | Joins(code: Code, pin: Pin, t: U64)
    | Reaps(t: U64, occupied: set<string>)

  function TableNext(m: Table, e: TableEvent): Table {
    match e
    case Creates(code, session) => if code in m then m else m[code := session]
    case Joins(code, pin, t) => if code in m then m[code := Tried(m[code], pin, t)] else m
    case Reaps(t, occupied) => Reaped(m, t, occupied)
  }

  function TableRun(m: Table, es: seq<TableEvent>): Table {
    if es == [] then m else TableNext(TableRun(m, es[..|es| - 1]), es[|es| - 1])
  }

  function Lookup(m: Table, code: Code): Option<Session> {
    if code in m then Some(m[code]) else None
  }

  /** What the session of `code`, brokering `room`, gets to see of a run. */
  function Seen(code: Code, room: string, es: seq<TableEvent>): seq<Event> {
    if es == [] then []
    else
      var before := Seen(code, room, es[..|es| - 1]);
      var e := SeenOf(code, room, es[|es| - 1]);
      if e.None? then before else before + [e.value]
  }

  lemma LifeAppend(s: Option<Session>, es: seq<Event>, e: Event)
    ensures Life(s, es + [e]) == Live(Life(s, es), e)
  {
    assert (es + [e])[..|es|] == es;
  }

  /** The part of one table event that the session of `code` sees. */
  function SeenOf(code: Code, room: string, e: TableEvent): Option<Event> {
    match e
    case Creates(_, _) => None
    case Joins(c, pin, t) => if c == code then Some(Try(pin, t)) else None
    case Reaps(t, occupied) => Some(Sweep(t, room in occupied))
  }

  lemma TableStepLives(m: Table, code: Code, room: string, e: TableEvent)
    requires e.Creates? ==> e.code != code
    requires code in m ==> m[code].room == room
    ensures Lookup(TableNext(m, e), code)
         == if SeenOf(code, room, e).None? then Lookup(m, code) else Live(Lookup(m, code), SeenOf(code, room, e).value)
    ensures code in TableNext(m, e) ==> TableNext(m, e)[code].room == room
  {}

  /** In the table each session lives its own life, until its code is drawn again. */
  lemma {:induction false} TableRunsLives(m: Table, code: Code, es: seq<TableEvent>)
    requires code in m && forall i :: 0 <= i < |es| && es[i].Creates? ==> es[i].code != code
    ensures Lookup(TableRun(m, es), code) == Life(Some(m[code]), Seen(code, m[code].room, es))
    ensures code in TableRun(m, es) ==> TableRun(m, es)[code].room == m[code].room
  {
    if es != [] {
      var before, e := es[..|es| - 1], es[|es| - 1];
      TableRunsLives(m, code, before);
      TableStepLives(TableRun(m, before), code, m[code].room, e);
      if SeenOf(code, m[code].room, e).Some? {
        LifeAppend(Some(m[code]), Seen(code, m[code].room, before), SeenOf(code, m[code].room, e).value);
      }
    }
  }

  /** The times at which a wrong PIN was compared for `code` anywhere in a run of the table. */
  function TableWrongTimes(m: Table, code: Code, es: seq<TableEvent>): seq<U64> {
    if es == [] then []
    else
      var before, e := es[..|es| - 1], es[|es| - 1];
      var now := TableRun(m, before);
      TableWrongTimes(m, code, before)
      + (if e.Joins? && e.code == code && code in now && Answer(now[code], e.pin, e.t) == Refused(BadPin) then [e.t]
          else [])
  }

  /** The same for the guesses that had a say. */
  ghost function TableGuessTimes(m: Table, code: Code, es: seq<TableEvent>): seq<U64> {
    if es == [] then []
    else
      var before, e := es[..|es| - 1], es[|es| - 1];
      var now := TableRun(m, before);
      TableGuessTimes(m, code, before)
      + (if e.Joins? && e.code == code && code in now && e.pin != now[code].pin && PinMatters(now[code], e.t) then [e.t]
         else [])
  }

  lemma {:induction false} TableGuessesAreComparisons(m: Table, code: Code, es: seq<TableEvent>)
    requires forall i :: 0 <= i < |es| ==> TimeOf(es[i]) <= U64_MAX - LOCK_SECS
    ensures TableGuessTimes(m, code, es) == TableWrongTimes(m, code, es)
  {
    if es != [] {
      var before, e := es[..|es| - 1], es[|es| - 1];
      TableGuessesAreComparisons(m, code, before);
      var now := TableRun(m, before);
      if e.Joins? && e.code == code && code in now {
        ComparedIffItMatters(now[code], e.pin, e.t);
      }
    }
  }

  function TimeOf(e: TableEvent): U64 {
    match e
    case Creates(_, session) => session.created
    case Joins(_, _, t) => t
    case Reaps(t, _) => t
  }

  ghost predicate TableTimed(from: U64, es: seq<TableEvent>) {
    && (forall i :: 0 <= i < |es| ==> from <= TimeOf(es[i]) <= U64_MAX - LOCK_SECS)
    && (forall i, j :: 0 <= i <= j < |es| ==> TimeOf(es[i]) <= TimeOf(es[j]))
  }

  lemma {:induction false} SeenIsTimed(from: U64, code: Code, room: string, es: seq<TableEvent>)
    requires TableTimed(from, es)
    ensures Timed(from, Seen(code, room, es))
    ensures forall e :: e in Seen(code, room, es) ==> es != [] && e.t <= TimeOf(es[|es| - 1])
  {
    if es != [] {
      var most := es[..|es| - 1];
      assert TableTimed(from, most);
      SeenIsTimed(from, code, room, most);
      var seen := Seen(code, room, most);
      assert forall i :: 0 <= i < |seen| ==> seen[i] in seen;
    }
  }

  lemma WrongTimesAppend(s: Option<Session>, es: seq<Event>, e: Event)
    ensures WrongTimes(s, es + [e]) == WrongTimes(s, es)
         + (if Life(s, es).Some? && e.Try? && Answer(Life(s, es).value, e.pin, e.t) == Refused(BadPin) then [e.t]
             else [])
  {
    assert (es + [e])[..|es|] == es;
  }

  lemma {:induction false} TableWrongIsWrong(m: Table, code: Code, es: seq<TableEvent>)
    requires code in m && forall i :: 0 <= i < |es| && es[i].Creates? ==> es[i].code != code
    ensures TableWrongTimes(m, code, es) == WrongTimes(Some(m[code]), Seen(code, m[code].room, es))
  {
    if es != [] {
      var before, e := es[..|es| - 1], es[|es| - 1];
      TableWrongIsWrong(m, code, before);
      TableRunsLives(m, code, before);
      if SeenOf(code, m[code].room, e).Some? {
        WrongTimesAppend(Some(m[code]), Seen(code, m[code].room, before), SeenOf(code, m[code].room, e).value);
      }
    }
  }

  /** The bound as a guesser of one code meets it, whatever happens to the other sessions in between. */
  lemma TableGuessBound(m: Table, code: Code, es: seq<TableEvent>, lo: nat, span: nat)
    requires code in m && Fresh(m[code]) && TableTimed(m[code].created, es)
    requires forall i :: 0 <= i < |es| && es[i].Creates? ==> es[i].code != code
    ensures |Within(TableWrongTimes(m, code, es), lo, lo + span)| <= MAX_ATTEMPTS * (span / LOCK_SECS + 1)
    ensures |Within(TableGuessTimes(m, code, es), lo, lo + span)| <= MAX_ATTEMPTS * (span / LOCK_SECS + 1)
  {
    TableGuessesAreComparisons(m, code, es);
    TableWrongIsWrong(m, code, es);
    SeenIsTimed(m[code].created, code, m[code].room, es);
    PinGuessBound(m[code], Seen(code, m[code].room, es), lo, span);
  }

  /** Every event of the table later than one sweep period after creation comes within a period of a sweep. */
  ghost predicate TableSwept(created: U64, es: seq<TableEvent>) {
    forall i {:trigger ReapedBefore(es, i)} :: 0 <= i < |es| && TimeOf(es[i]) > created + SWEEP_SECS ==>
        ReapedBefore(es, i)
  }

  ghost predicate ReapedBefore(es: seq<TableEvent>, i: nat)
    requires i < |es|
  {
    exists j :: 0 <= j < i && es[j].Reaps? && TimeOf(es[j]) + SWEEP_SECS >= TimeOf(es[i])
  }

  lemma TableSweptBefore(created: U64, es: seq<TableEvent>)
    requires es != [] && TableSwept(created, es)
    ensures TableSwept(created, es[..|es| - 1])
  {
    var before := es[..|es| - 1];
    forall i | 0 <= i < |before| && TimeOf(before[i]) > created + SWEEP_SECS ensures ReapedBefore(before, i) {
      assert es[i] == before[i] && ReapedBefore(es, i);
      var j :| 0 <= j < i && es[j].Reaps? && TimeOf(es[j]) + SWEEP_SECS >= TimeOf(es[i]);
      assert before[j] == es[j];
    }
  }

  ghost predicate SweepsAt(seen: seq<Event>, t: U64) {
    exists i :: 0 <= i < |seen| && seen[i].Sweep? && seen[i].t == t
  }

  /** Every sweep of the table is one the session sees. */
  lemma {:induction false} SeesSweep(code: Code, room: string, es: seq<TableEvent>, j: nat)
    requires j < |es| && es[j].Reaps?
    ensures SweepsAt(Seen(code, room, es), TimeOf(es[j]))
  {
    var most, last := es[..|es| - 1], es[|es| - 1];
    var was, now := Seen(code, room, most), Seen(code, room, es);
    if j < |es| - 1 {
      SeesSweep(code, room, most, j);
      var i :| 0 <= i < |was| && was[i].Sweep? && was[i].t == TimeOf(most[j]);
      assert now[i] == was[i];
    } else {
      assert now[|was|] == Sweep(last.t, room in last.occupied);
    }
  }

  lemma {:induction false} SeenIsSwept(created: U64, code: Code, room: string, es: seq<TableEvent>)
    requires TableSwept(created, es)
    ensures SweptRegularly(created, Seen(code, room, es))
  {
    if es != [] {
      var most, last := es[..|es| - 1], es[|es| - 1];
      TableSweptBefore(created, es);
      SeenIsSwept(created, code, room, most);
      var was, now := Seen(code, room, most), Seen(code, room, es);
      forall i | 0 <= i < |now| && now[i].t > created + SWEEP_SECS ensures SweptBefore(now, i) {
        if i < |was| {
          assert now[i] == was[i] && SweptBefore(was, i);
          var j :| 0 <= j < i && was[j].Sweep? && was[j].t + SWEEP_SECS >= was[i].t;
          assert now[j] == was[j];
        } else {
          LastIsSwept(created, code, room, es);
        }
      }
    }
  }

  lemma LastIsSwept(created: U64, code: Code, room: string, es: seq<TableEvent>)
    requires es != [] && TableSwept(created, es)
    requires SeenOf(code, room, es[|es| - 1]).Some? && TimeOf(es[|es| - 1]) > created + SWEEP_SECS
    ensures SweptBefore(Seen(code, room, es), |Seen(code, room, es)| - 1)
  {
    var most := es[..|es| - 1];
    assert ReapedBefore(es, |es| - 1);
    var j :| 0 <= j < |es| - 1 && es[j].Reaps? && TimeOf(es[j]) + SWEEP_SECS >= TimeOf(es[|es| - 1]);
    assert most[j] == es[j];
    SeesSweep(code, room, most, j);
    var was, now := Seen(code, room, most), Seen(code, room, es);
    var i :| 0 <= i < |was| && was[i].Sweep? && was[i].t == TimeOf(es[j]);
    assert now[i] == was[i];
  }

  /** And so over the whole life of a code in the table: at most 870 wrong guesses. */
  lemma TableLifetimeBound(m: Table, code: Code, es: seq<TableEvent>)
    requires code in m && Fresh(m[code]) && TableTimed(m[code].created, es) && TableSwept(m[code].created, es)
    requires forall i :: 0 <= i < |es| && es[i].Creates? ==> es[i].code != code
    ensures |TableWrongTimes(m, code, es)| <= 870 && |TableGuessTimes(m, code, es)| <= 870
  {
    TableGuessesAreComparisons(m, code, es);
    TableWrongIsWrong(m, code, es);
    SeenIsTimed(m[code].created, code, m[code].room, es);
    SeenIsSwept(m[code].created, code, m[code].room, es);
    LifetimeGuessBound(m[code], Seen(code, m[code].room, es));
  }
}
