/**
 * Who is sent which frames, who may hold a handle, and how fast a connection may talk: over runs of the
 * signaling server.
 */
module Delivery {
  import opened Wrappers
  import opened Ids
  import opened Counting
  import opened Signaling

  /** Frames sent on behalf of a member. */
  datatype Class = Relays | Talks | Rekeys

  predicate OfClass(c: Class, m: ServerMsg) {
    match c
    case Relays => m.Relayed?
    case Talks => m.PttFrom?
    case Rekeys => m.Rekeyed?
  }

  /** The frames of one class, in order. */
  function Kept(c: Class, ms: seq<ServerMsg>): seq<ServerMsg> {
    if ms == [] then []
    else Kept(c, ms[..|ms| - 1]) + if OfClass(c, ms[|ms| - 1]) then [ms[|ms| - 1]] else []
  }

  lemma KeptAppend(c: Class, ms: seq<ServerMsg>, m: ServerMsg)
    ensures Kept(c, ms + [m]) == Kept(c, ms) + if OfClass(c, m) then [m] else []
  {
    assert (ms + [m])[..|ms|] == ms;
  }

  /** Same frames of the class, same frame meter, and what it has joined it stays joined to. */
  predicate SameSock(c: Class, a: Sock, b: Sock) {
    && Kept(c, b.sent) == Kept(c, a.sent) && b.winStart == a.winStart && b.winCount == a.winCount
    && (a.me.Some? ==> b.me == a.me)
  }

  ghost predicate Same(c: Class, a: map<SockId, Sock>, b: map<SockId, Sock>) {
    forall k :: k in a ==> k in b && SameSock(c, a[k], b[k])
  }

  /** What the members' requests send connection `k`: stated from the rooms alone. */
  ghost function IssuedBy(c: Class, srv: Server, s: SockId, m: ClientMsg, now: nat, k: SockId): seq<ServerMsg>
    requires s in srv.socks
  {
    var me := srv.socks[s].me;
    if me.None? || me.value.0 !in srv.rooms then []
    else
      var (room, from) := me.value;
      var r := srv.rooms[room];
      match m
      case Relay(kind, to, payload) =>
        if c.Relays? && to != "" && |to| <= 64 && |payload| <= (if kind.Ice? then 4096 else 16384) && to in r
            && r[to].sock == k
        then [Relayed(kind, from, payload)] else []
      case Ptt(active) =>
        if c.Talks? && (exists id :: id in r && id != from && r[id].sock == k) then [PttFrom(from, active)] else []
      case Rekey =>
        if c.Rekeys? && (room in srv.rekeys ==> now - srv.rekeys[room] >= 5000)
            && (exists id :: id in r && r[id].sock == k)
        then [Rekeyed(if from in r then r[from].name else "")] else []
      case _ => []
  }

  /** The frame is within the limit: fifty in a window of a second. */
  predicate Heard(k: Sock, now: nat) {
    now - k.winStart > 1000 || k.winCount < 50
  }

  ghost function Issued(c: Class, srv: Server, e: Event, k: SockId): seq<ServerMsg> {
    if e.Text? && e.s in srv.socks && srv.socks[e.s].open && Heard(srv.socks[e.s], e.now) && e.m.Some?
    then IssuedBy(c, srv, e.s, e.m.value, e.now, k)
    else []
  }

  // ---- sending ----

  lemma SendAllAdds(c: Class, a: map<SockId, Sock>, to: set<SockId>, m: ServerMsg, k: SockId)
    requires k in a
    ensures k in SendAll(a, to, m)
    ensures var b := SendAll(a, to, m)[k];
            && Kept(c, b.sent) == Kept(c, a[k].sent) + (if k in to && OfClass(c, m) then [m] else [])
            && b.winStart == a[k].winStart && b.winCount == a[k].winCount && b.me == a[k].me
  {
    KeptAppend(c, a[k].sent, m);
  }

  lemma SendAllSame(c: Class, a: map<SockId, Sock>, b: map<SockId, Sock>, to: set<SockId>, m: ServerMsg)
    requires Same(c, a, b) && !OfClass(c, m)
    ensures Same(c, a, SendAll(b, to, m))
  {
    forall k | k in a ensures k in SendAll(b, to, m) && SameSock(c, a[k], SendAll(b, to, m)[k]) {
      SendAllAdds(c, b, to, m, k);
    }
  }

  lemma SendIsSendAll(b: map<SockId, Sock>, s: SockId, m: ServerMsg)
    ensures Send(b, s, m) == SendAll(b, {s}, m)
  {}

  lemma SendSame(c: Class, a: map<SockId, Sock>, b: map<SockId, Sock>, s: SockId, m: ServerMsg)
    requires Same(c, a, b) && !OfClass(c, m)
    ensures Same(c, a, Send(b, s, m))
  {
    SendIsSendAll(b, s, m);
    SendAllSame(c, a, b, {s}, m);
  }

  lemma CloseSame(c: Class, a: map<SockId, Sock>, srv: Server, s: SockId)
    requires s in srv.socks && Same(c, a, srv.socks)
    ensures Same(c, a, Closed(srv, s).socks)
  {
    var shut := srv.socks[s := srv.socks[s].(open := false)];
    assert Same(c, a, shut);
    if Owner(srv, s) {
      var (rm, id) := srv.socks[s].me.value;
      SendAllSame(c, a, shut, SocksOf(srv.rooms[rm] - {id}, None), PeerLeft(id));
    }
  }

  lemma RefusalSame(c: Class, a: map<SockId, Sock>, srv: Server, s: SockId, m: ServerMsg)
    requires s in srv.socks && Same(c, a, srv.socks) && !OfClass(c, m)
    ensures Same(c, a, Refused(srv, s, m).socks)
  {
    SendSame(c, a, srv.socks, s, m);
    CloseSame(c, a, srv.(socks := Send(srv.socks, s, m)), s);
  }

  lemma AnnouncingSame(c: Class, a: map<SockId, Sock>, r: Room, s: SockId, id: Id, name: Name, secret: string)
    ensures Same(c, a, Announced(a, r, s, id, name, secret))
  {
    var told := if id in r then Send(a, r[id].sock, Error("superseded")) else a;
    SendSame(c, a, a, if id in r then r[id].sock else 0, Error("superseded"));
    SendAllSame(c, a, told, SocksOf((r - {id})[id := Handle(name, s, secret)], Some(id)), PeerJoined(id, name));
  }

  lemma WelcomeSame(c: Class, a: map<SockId, Sock>, b: map<SockId, Sock>, roster: map<Id, Name>, now: Room, s: SockId,
                    id: Id, turn: bool)
    requires Same(c, a, b)
    ensures Same(c, a, Welcomed(b, roster, now, s, id, turn))
  {
    var listed := Send(b, s, Roster(roster));
    var warned := if |now| >= WARN_CAP then SendAll(listed, SocksOf(now, None), Warn(|now|)) else listed;
    SendSame(c, a, b, s, Roster(roster));
    SendAllSame(c, a, listed, SocksOf(now, None), Warn(|now|));
    SendSame(c, a, warned, s, Credentials(id));
  }

  lemma WithMeSame(c: Class, a: map<SockId, Sock>, b: map<SockId, Sock>, s: SockId, me: (string, Id))
    requires Same(c, a, b) && s in a && s in b && a[s].me.None?
    ensures Same(c, a, WithMe(b, s, me))
  {}

  lemma EntrySame(c: Class, srv: Server, s: SockId, rm: string, id: Id, name: Name, secret: string)
    requires s in srv.socks && srv.socks[s].me.None?
    ensures Same(c, srv.socks, Entered(srv, s, rm, id, name, secret).socks)
  {
    var r := RoomOf(srv, rm);
    var now := (r - {id})[id := Handle(name, s, secret)];
    var told := Announced(srv.socks, r, s, id, name, secret);
    AnnouncingSame(c, srv.socks, r, s, id, name, secret);
    WelcomeSame(c, srv.socks, told, Names(r - {id}), now, s, id, srv.turn);
    WithMeSame(c, srv.socks, Welcomed(told, Names(r - {id}), now, s, id, srv.turn), s, (rm, id));
  }

  lemma JoinSame(c: Class, srv: Server, s: SockId, m: ClientMsg)
    requires s in srv.socks && m.Join?
    ensures Same(c, srv.socks, Joined(srv, s, m).socks)
  {
    if srv.socks[s].me.Some? {
      SendSame(c, srv.socks, srv.socks, s, Error("already_joined"));
    } else if m.proto != PROTOCOL_VERSION {
      RefusalSame(c, srv.socks, srv, s, Error("protocol_mismatch"));
    } else if !JoinWellFormed(m) {
      RefusalSame(c, srv.socks, srv, s, Error("bad_input"));
    } else if !m.authOk {
      RefusalSame(c, srv.socks, srv, s, Error("bad_token"));
    } else if MayEnter(RoomOf(srv, m.room), m.id, m.secret) {
      EntrySame(c, srv, s, m.room, m.id, m.name, m.secret);
    } else {
      RefusalSame(c, srv.socks, srv, s, if m.id !in RoomOf(srv, m.room) then RoomFull else Error("id_in_use"));
    }
  }

  // ---- what one request adds to one connection ----

  /** From `a` to `b` the class grows by `more`; the meter and membership stay. */
  predicate Grows(c: Class, a: Sock, b: Sock, more: seq<ServerMsg>) {
    && Kept(c, b.sent) == Kept(c, a.sent) + more && b.winStart == a.winStart && b.winCount == a.winCount
    && (a.me.Some? ==> b.me == a.me)
  }

  lemma SameGrows(c: Class, a: map<SockId, Sock>, b: map<SockId, Sock>, k: SockId)
    requires Same(c, a, b) && k in a
    ensures k in b && Grows(c, a[k], b[k], [])
  {
    assert Kept(c, a[k].sent) + [] == Kept(c, a[k].sent);
  }

  /** Whom a relay text reaches, if anybody. */
  predicate Reaches(srv: Server, s: SockId, m: ClientMsg)
    requires s in srv.socks && m.Relay?
  {
    && srv.socks[s].me.Some? && LenOk(m.to, MAX_ID) && |m.payload| <= (if m.kind.Ice? then MAX_ICE else MAX_SDP)
    && m.to in RoomOf(srv, srv.socks[s].me.value.0)
  }

  lemma RelaySends(srv: Server, s: SockId, m: ClientMsg, now: nat)
    requires s in srv.socks && m.Relay?
    ensures Handled(srv, s, m, now).socks
         == if Reaches(srv, s, m)
            then Send(srv.socks, RoomOf(srv, srv.socks[s].me.value.0)[m.to].sock,
                Relayed(m.kind, srv.socks[s].me.value.1, m.payload))
            else srv.socks
  {}

  lemma NothingAdds(c: Class, a: Sock)
    ensures Grows(c, a, a, [])
  {
    assert Kept(c, a.sent) + [] == Kept(c, a.sent);
  }

  lemma RelayAdds(c: Class, srv: Server, s: SockId, m: ClientMsg, now: nat, k: SockId)
    requires s in srv.socks && k in srv.socks && m.Relay?
    ensures var b := Handled(srv, s, m, now).socks;
            k in b && Grows(c, srv.socks[k], b[k], IssuedBy(c, srv, s, m, now, k))
  {
    RelaySends(srv, s, m, now);
    NothingAdds(c, srv.socks[k]);
    if Reaches(srv, s, m) {
      var me := srv.socks[s].me.value;
      var h := RoomOf(srv, me.0)[m.to];
      var frame := Relayed(m.kind, me.1, m.payload);
      SendIsSendAll(srv.socks, h.sock, frame);
      SendAllAdds(c, srv.socks, {h.sock}, frame, k);
    }
  }

  lemma InSocksOf(r: Room, except: Option<Id>, k: SockId)
    ensures k in SocksOf(r, except) <==> exists id :: id in r && except != Some(id) && r[id].sock == k
  {}

  lemma TalkAdds(c: Class, srv: Server, s: SockId, active: bool, now: nat, k: SockId)
    requires s in srv.socks && k in srv.socks
    ensures var b := Handled(srv, s, Ptt(active), now).socks;
            k in b && Grows(c, srv.socks[k], b[k], IssuedBy(c, srv, s, Ptt(active), now, k))
  {
    var me := srv.socks[s].me;
    if me.Some? {
      var (room, from) := me.value;
      var to := SocksOf(RoomOf(srv, room), Some(from));
      InSocksOf(RoomOf(srv, room), Some(from), k);
      SendAllAdds(c, srv.socks, to, PttFrom(from, active), k);
    }
  }

  lemma RekeyAdds(c: Class, srv: Server, s: SockId, now: nat, k: SockId)
    requires s in srv.socks && k in srv.socks
    ensures var b := RekeyAsked(srv, s, now).socks;
            k in b && Grows(c, srv.socks[k], b[k], IssuedBy(c, srv, s, Rekey, now, k))
  {
    var me := srv.socks[s].me;
    if me.Some? && RekeyAllowed(srv, me.value.0, now) {
      AllowedRekeyAdds(c, srv, s, now, k);
    }
  }

  lemma AllowedRekeySends(srv: Server, s: SockId, now: nat)
    requires s in srv.socks && srv.socks[s].me.Some? && RekeyAllowed(srv, srv.socks[s].me.value.0, now)
    ensures var (room, from) := srv.socks[s].me.value;
            var r := RoomOf(srv, room);
            RekeyAsked(srv, s, now).socks
            == SendAll(srv.socks, SocksOf(r, None), Rekeyed(if from in r then r[from].name else ""))
  {}

  lemma AllowedRekeyAdds(c: Class, srv: Server, s: SockId, now: nat, k: SockId)
    requires s in srv.socks && k in srv.socks && srv.socks[s].me.Some?
             && RekeyAllowed(srv, srv.socks[s].me.value.0, now)
    ensures var b := RekeyAsked(srv, s, now).socks;
            k in b && Grows(c, srv.socks[k], b[k], IssuedBy(c, srv, s, Rekey, now, k))
  {
    var (room, from) := srv.socks[s].me.value;
    var r := RoomOf(srv, room);
    AllowedRekeySends(srv, s, now);
    InSocksOf(r, None, k);
    SendAllAdds(c, srv.socks, SocksOf(r, None), Rekeyed(if from in r then r[from].name else ""), k);
  }

  lemma RequestAdds(c: Class, srv: Server, s: SockId, m: ClientMsg, now: nat, k: SockId)
    requires s in srv.socks && k in srv.socks
    ensures var b := Handled(srv, s, m, now).socks;
            k in b && Grows(c, srv.socks[k], b[k], IssuedBy(c, srv, s, m, now, k))
  {
    match m
    case Join(_, _, _, _, _, _, _) =>
      JoinSame(c, srv, s, m);
      SameGrows(c, srv.socks, Joined(srv, s, m).socks, k);
    case Relay(_, _, _) => RelayAdds(c, srv, s, m, now, k);
    case Ptt(active) => TalkAdds(c, srv, s, active, now, k);
    case Rekey => RekeyAdds(c, srv, s, now, k);
    case Leave =>
      CloseSame(c, srv.socks, srv, s);
      SameGrows(c, srv.socks, Closed(srv, s).socks, k);
  }

  // ---- one event ----

  /** The meter moves only by a frame of the connection's own. */
  function Metered(srv: Server, e: Event, k: SockId): Sock
    requires k in srv.socks
  {
    if e.Text? && e.s == k && srv.socks[k].open then Counted(srv.socks[k], e.now) else srv.socks[k]
  }

  lemma CountingKeeps(c: Class, srv: Server, s: SockId, now: nat, m: ClientMsg, k: SockId)
    requires s in srv.socks && k in srv.socks
    ensures var counted := srv.(socks := srv.socks[s := Counted(srv.socks[s], now)]);
            && IssuedBy(c, counted, s, m, now, k) == IssuedBy(c, srv, s, m, now, k)
            && (counted.socks[s].winCount > MSG_RATE_MAX <==> !Heard(srv.socks[s], now))
  {}

  lemma ParsedAdds(c: Class, srv: Server, e: Event, k: SockId)
    requires e.Text? && e.s in srv.socks && srv.socks[e.s].open && k in srv.socks && e.m.Some?
    ensures var b := Next(srv, e).socks; k in b && Grows(c, Metered(srv, e, k), b[k], Issued(c, srv, e, k))
  {
    var counted := srv.(socks := srv.socks[e.s := Counted(srv.socks[e.s], e.now)]);
    CountingKeeps(c, srv, e.s, e.now, e.m.value, k);
    if Heard(srv.socks[e.s], e.now) {
      RequestAdds(c, counted, e.s, e.m.value, e.now, k);
    } else {
      assert Same(c, counted.socks, counted.socks);
      SameGrows(c, counted.socks, counted.socks, k);
    }
  }

  lemma UnparsedNext(srv: Server, e: Event)
    requires e.Text? && e.s in srv.socks && srv.socks[e.s].open && e.m.None?
    ensures var counted := srv.(socks := srv.socks[e.s := Counted(srv.socks[e.s], e.now)]);
            Next(srv, e) == if !Heard(srv.socks[e.s], e.now) then counted
                            else if srv.socks[e.s].me.None?
                                && e.joinFrame then Refused(counted, e.s, Error("protocol_mismatch"))
                            else counted.(socks := Send(counted.socks, e.s, Error("bad_json")))
  {}

  lemma UnparsedAdds(c: Class, srv: Server, e: Event, k: SockId)
    requires e.Text? && e.s in srv.socks && srv.socks[e.s].open && k in srv.socks && e.m.None?
    ensures var b := Next(srv, e).socks; k in b && Grows(c, Metered(srv, e, k), b[k], [])
  {
    var counted := srv.(socks := srv.socks[e.s := Counted(srv.socks[e.s], e.now)]);
    assert Same(c, counted.socks, counted.socks);
    UnparsedNext(srv, e);
    RefusalSame(c, counted.socks, counted, e.s, Error("protocol_mismatch"));
    SendSame(c, counted.socks, counted.socks, e.s, Error("bad_json"));
    SameGrows(c, counted.socks, Next(srv, e).socks, k);
  }

  lemma ReceiptAdds(c: Class, srv: Server, e: Event, k: SockId)
    requires e.Text? && e.s in srv.socks && srv.socks[e.s].open && k in srv.socks
    ensures var b := Next(srv, e).socks; k in b && Grows(c, Metered(srv, e, k), b[k], Issued(c, srv, e, k))
  {
    if e.m.Some? {
      ParsedAdds(c, srv, e, k);
    } else {
      UnparsedAdds(c, srv, e, k);
    }
  }

  /**
   * Exactly the frames the rooms call for: whatever happens, a connection is sent the relayed, talk and
   * rekey frames that `Issued` says, stamped as it says, and no others.
   */
  lemma EventsSendExactly(c: Class, srv: Server, e: Event, k: SockId)
    requires k in srv.socks
    ensures var b := Next(srv, e).socks; k in b && Grows(c, Metered(srv, e, k), b[k], Issued(c, srv, e, k))
  {
    assert Same(c, srv.socks, srv.socks);
    SameGrows(c, srv.socks, srv.socks, k);
    match e
    case Connect(_, _) =>
    case Hangup(s) =>
      if s in srv.socks && srv.socks[s].open {
        CloseSame(c, srv.socks, srv, s);
        SameGrows(c, srv.socks, Closed(srv, s).socks, k);
      }
    case Text(s, _, _, _) =>
      if s in srv.socks && srv.socks[s].open {
        ReceiptAdds(c, srv, e, k);
      }
  }

  lemma SocksConnect(srv: Server, e: Event, k: SockId)
    requires k in Next(srv, e).socks && k !in srv.socks
    ensures e.Connect? && Next(srv, e).socks[k] == Sock(true, None, [], e.now, 0)
  {
    if e.Text? && e.s in srv.socks && srv.socks[e.s].open {
      ReceiptKeepsSocks(srv, e.s, e.m, e.joinFrame, e.now);
    }
  }

  lemma CloseKeepsSocks(srv: Server, s: SockId)
    requires s in srv.socks
    ensures Closed(srv, s).socks.Keys == srv.socks.Keys
  {}

  lemma RefusalKeepsSocks(srv: Server, s: SockId, m: ServerMsg)
    requires s in srv.socks
    ensures Refused(srv, s, m).socks.Keys == srv.socks.Keys
  {
    CloseKeepsSocks(srv.(socks := Send(srv.socks, s, m)), s);
  }

  lemma JoinKeepsSocks(srv: Server, s: SockId, m: ClientMsg)
    requires s in srv.socks && m.Join?
    ensures Joined(srv, s, m).socks.Keys == srv.socks.Keys
  {
    if srv.socks[s].me.Some? {
    } else if m.proto != PROTOCOL_VERSION {
      RefusalKeepsSocks(srv, s, Error("protocol_mismatch"));
    } else if !JoinWellFormed(m) {
      RefusalKeepsSocks(srv, s, Error("bad_input"));
    } else if !m.authOk {
      RefusalKeepsSocks(srv, s, Error("bad_token"));
    } else if MayEnter(RoomOf(srv, m.room), m.id, m.secret) {
      EnteredShape(srv, s, m.room, m.id, m.name, m.secret);
    } else {
      RefusalKeepsSocks(srv, s, if m.id !in RoomOf(srv, m.room) then RoomFull else Error("id_in_use"));
    }
  }

  lemma HandlingKeepsSocks(srv: Server, s: SockId, m: ClientMsg, now: nat)
    requires s in srv.socks
    ensures Handled(srv, s, m, now).socks.Keys == srv.socks.Keys
  {
    match m
    case Join(_, _, _, _, _, _, _) => JoinKeepsSocks(srv, s, m);
    case Leave => CloseKeepsSocks(srv, s);
    case _ =>
  }

  lemma ReceiptKeepsSocks(srv: Server, s: SockId, m: Option<ClientMsg>, joinFrame: bool, now: nat)
    requires s in srv.socks
    ensures Received(srv, s, m, joinFrame, now).socks.Keys == srv.socks.Keys
  {
    var counted := srv.(socks := srv.socks[s := Counted(srv.socks[s], now)]);
    if m.Some? {
      HandlingKeepsSocks(counted, s, m.value, now);
    } else {
      RefusalKeepsSocks(counted, s, Error("protocol_mismatch"));
    }
  }

  // ---- whole runs ----

  /** Some event of the run sent connection `k` this frame. */
  ghost predicate SentAlong(c: Class, turn: bool, es: seq<Event>, k: SockId, m: ServerMsg) {
    exists i {:trigger es[i]} :: 0 <= i < |es| && m in Issued(c, Run(Started(turn), es[..i]), es[i], k)
  }

  lemma SentAlongLasts(c: Class, turn: bool, es: seq<Event>, k: SockId, m: ServerMsg)
    requires es != [] && SentAlong(c, turn, es[..|es| - 1], k, m)
    ensures SentAlong(c, turn, es, k, m)
  {
    var before := es[..|es| - 1];
    var i :| 0 <= i < |before| && m in Issued(c, Run(Started(turn), before[..i]), before[i], k);
    assert before[..i] == es[..i] && before[i] == es[i];
  }

  lemma {:induction false} EveryFrameWasIssued(c: Class, turn: bool, es: seq<Event>, k: SockId, m: ServerMsg)
    requires k in Run(Started(turn), es).socks && m in Kept(c, Run(Started(turn), es).socks[k].sent)
    ensures SentAlong(c, turn, es, k, m)
  {
    if es != [] {
      var before, e := es[..|es| - 1], es[|es| - 1];
      var srv := Run(Started(turn), before);
      if k in srv.socks {
        EventsSendExactly(c, srv, e, k);
        if m in Kept(c, srv.socks[k].sent) {
          EveryFrameWasIssued(c, turn, before, k, m);
          SentAlongLasts(c, turn, es, k, m);
        } else {
          assert es[..|es| - 1] == before && m in Issued(c, srv, es[|es| - 1], k);
        }
      } else {
        SocksConnect(srv, e, k);
      }
    }
  }

  /** An open connection joined as `(room, from)` asked to relay, and `k` is the addressee's connection in that room. */
  ghost predicate AskedToRelay(srv: Server, e: Event, k: SockId, kind: RelayKind, from: Id, payload: string) {
    && e.Text? && e.s in srv.socks && srv.socks[e.s].open && e.m.Some? && e.m.value.Relay?
    && e.m.value.kind == kind && e.m.value.payload == payload
    && srv.socks[e.s].me.Some? && srv.socks[e.s].me.value.1 == from
    && var room := srv.socks[e.s].me.value.0;
       room in srv.rooms && e.m.value.to in srv.rooms[room] && srv.rooms[room][e.m.value.to].sock == k
  }

  /**
   * Every relayed frame a connection has ever been sent was asked for, in those very words, by a live
   * connection joined under the stamped id, and addressed to this connection's member of the same room.
   */
  lemma RelayedFramesAreGenuine(turn: bool, es: seq<Event>, k: SockId, kind: RelayKind, from: Id, payload: string)
    requires k in Run(Started(turn), es).socks
    requires Relayed(kind, from, payload) in Run(Started(turn), es).socks[k].sent
    ensures exists i {:trigger es[i]} ::
              0 <= i < |es| && AskedToRelay(Run(Started(turn), es[..i]), es[i], k, kind, from, payload)
  {
    var m := Relayed(kind, from, payload);
    KeptHas(Relays, Run(Started(turn), es).socks[k].sent, m);
    EveryFrameWasIssued(Relays, turn, es, k, m);
    var i :| 0 <= i < |es| && m in Issued(Relays, Run(Started(turn), es[..i]), es[i], k);
    IssuedMeansAsked(Run(Started(turn), es[..i]), es[i], k, kind, from, payload);
  }

  lemma IssuedMeansAsked(srv: Server, e: Event, k: SockId, kind: RelayKind, from: Id, payload: string)
    requires Relayed(kind, from, payload) in Issued(Relays, srv, e, k)
    ensures AskedToRelay(srv, e, k, kind, from, payload)
  {}

  lemma {:induction false} KeptHas(c: Class, ms: seq<ServerMsg>, m: ServerMsg)
    requires m in ms && OfClass(c, m)
    ensures m in Kept(c, ms)
  {
    if m in ms[..|ms| - 1] {
      KeptHas(c, ms[..|ms| - 1], m);
    } else {
      assert ms[|ms| - 1] == m;
    }
  }

  // ---- the rekey cooldown, in frames ----

  predicate JoinedTo(k: Sock, room: string) {
    k.me.Some? && k.me.value.0 == room
  }

  /** Between `a` and `b`, whoever had joined `room` stays so and is sent no rekey request. */
  ghost predicate NoRekeyIn(room: string, a: map<SockId, Sock>, b: map<SockId, Sock>) {
    forall k :: k in a && JoinedTo(a[k], room) ==>
      k in b && JoinedTo(b[k], room) && Kept(Rekeys, b[k].sent) == Kept(Rekeys, a[k].sent)
  }

  /** A rekey of another room reaches nobody of this one; one of this room is held back. */
  lemma NoneIssued(room: string, srv: Server, e: Event, k: SockId)
    requires Inv(srv) && k in srv.socks && JoinedTo(srv.socks[k], room) && (e.Text? ==> !RekeyAllowed(srv, room, e.now))
    ensures Issued(Rekeys, srv, e, k) == []
  {
    if e.Text? && e.s in srv.socks && e.m.Some? {
      NoneIssuedBy(room, srv, e.s, e.m.value, e.now, k);
    }
  }

  lemma NoneIssuedBy(room: string, srv: Server, s: SockId, m: ClientMsg, now: nat, k: SockId)
    requires Inv(srv) && s in srv.socks && k in srv.socks && JoinedTo(srv.socks[k], room)
             && !RekeyAllowed(srv, room, now)
    ensures IssuedBy(Rekeys, srv, s, m, now, k) == []
  {
    if srv.socks[s].me.Some? && m.Rekey? {
      var rm := srv.socks[s].me.value.0;
      if rm != room && rm in srv.rooms {
        NotOfThatRoom(srv, k, room, rm);
      }
    }
  }

  lemma NotOfThatRoom(srv: Server, k: SockId, room: string, rm: string)
    requires Inv(srv) && k in srv.socks && JoinedTo(srv.socks[k], room) && rm != room && rm in srv.rooms
    ensures forall id :: id in srv.rooms[rm] ==> srv.rooms[rm][id].sock != k
  {
    forall id | id in srv.rooms[rm] ensures srv.rooms[rm][id].sock != k {
      HandleOwned(srv.rooms, Looks(srv.socks), rm, id);
    }
  }

  lemma NextIsNoRekey(room: string, srv: Server, e: Event)
    requires Inv(srv) && (e.Text? ==> !RekeyAllowed(srv, room, e.now))
    ensures NoRekeyIn(room, srv.socks, Next(srv, e).socks)
  {
    var b := Next(srv, e).socks;
    forall k | k in srv.socks && JoinedTo(srv.socks[k], room)
      ensures k in b && JoinedTo(b[k], room) && Kept(Rekeys, b[k].sent) == Kept(Rekeys, srv.socks[k].sent)
    {
      EventsSendExactly(Rekeys, srv, e, k);
      NoneIssued(room, srv, e, k);
    }
  }

  lemma NoRekeyChains(room: string, a: map<SockId, Sock>, b: map<SockId, Sock>, c: map<SockId, Sock>)
    requires NoRekeyIn(room, a, b) && NoRekeyIn(room, b, c)
    ensures NoRekeyIn(room, a, c)
  {}

  /**
   * Until the cooldown of a rekey at time `t` is over, nobody who has joined the room is sent another
   * rekey frame, whatever this or any other room does.
   */
  lemma {:induction false} RekeyFramesAreSpaced(srv: Server, es: seq<Event>, room: string, t: nat)
    requires Inv(srv) && room in srv.rekeys && srv.rekeys[room] >= t && Occupied(srv, es, room, t)
    requires forall i :: 0 <= i < |es| && es[i].Text? ==> es[i].now < t + REKEY_COOLDOWN
    ensures NoRekeyIn(room, srv.socks, Run(srv, es).socks) && Inv(Run(srv, es))
  {
    if es != [] {
      var before, e := es[..|es| - 1], es[|es| - 1];
      OccupiedBefore(srv, es, room, t);
      RekeyFramesAreSpaced(srv, before, room, t);
      RekeysAreSpaced(srv, before, room, t);
      var was := Run(srv, before);
      NextIsNoRekey(room, was, e);
      NoRekeyChains(room, srv.socks, was.socks, Next(was, e).socks);
      NextKeeps(was, e);
    }
  }

  /** A rekey frame goes out only together with the note of its time. */
  lemma RekeysAreNoted(srv: Server, e: Event, k: SockId)
    requires Issued(Rekeys, srv, e, k) != []
    ensures srv.socks[e.s].me.Some?
    ensures var room := srv.socks[e.s].me.value.0;
            room in Next(srv, e).rekeys && Next(srv, e).rekeys[room] == e.now && Next(srv, e).rooms == srv.rooms
  {
    CountingKeeps(Rekeys, srv, e.s, e.now, Rekey, e.s);
  }

  /** So after a rekey frame has gone out, no member of the room is sent another for five seconds. */
  lemma RekeysKeepTheirDistance(srv: Server, e: Event, es: seq<Event>, k: SockId)
    requires Inv(srv) && Issued(Rekeys, srv, e, k) != []
    requires var room := srv.socks[e.s].me.value.0; Occupied(Next(srv, e), es, room, e.now)
    requires forall i :: 0 <= i < |es| && es[i].Text? ==> es[i].now < e.now + 5000
    ensures NoRekeyIn(srv.socks[e.s].me.value.0, Next(srv, e).socks, Run(Next(srv, e), es).socks)
  {
    RekeysAreNoted(srv, e, k);
    NextKeeps(srv, e);
    RekeyFramesAreSpaced(Next(srv, e), es, srv.socks[e.s].me.value.0, e.now);
  }

  lemma CloseClears(srv: Server, s: SockId, room: string)
    requires s in srv.socks && room in srv.rooms && room !in Closed(srv, s).rooms
    ensures room !in Closed(srv, s).rekeys
  {}

  lemma RefusalClears(srv: Server, s: SockId, m: ServerMsg, room: string)
    requires s in srv.socks && room in srv.rooms && room !in Refused(srv, s, m).rooms
    ensures room !in Refused(srv, s, m).rekeys
  {
    CloseClears(srv.(socks := Send(srv.socks, s, m)), s, room);
  }

  lemma HandlingClears(srv: Server, s: SockId, m: ClientMsg, now: nat, room: string)
    requires s in srv.socks && room in srv.rooms && room !in Handled(srv, s, m, now).rooms
    ensures room !in Handled(srv, s, m, now).rekeys
  {
    if m.Leave? {
      CloseClears(srv, s, room);
    } else if m.Join? && srv.socks[s].me.None? {
      EntitledMeans(srv, s, m);
      if Entitled(srv, m) {
        EntryOutcome(srv, s, m.room, m.id, m.name, m.secret);
      } else {
        RefusalClears(srv, s, WhyNot(srv, m), room);
      }
    }
  }

  /** A room that empties takes its cooldown with it. */
  lemma EmptiedRoomsForgetTheirRekey(srv: Server, e: Event, room: string)
    requires room in srv.rooms && room !in Next(srv, e).rooms
    ensures room !in Next(srv, e).rekeys
  {
    if e.Hangup? && e.s in srv.socks && srv.socks[e.s].open {
      CloseClears(srv, e.s, room);
    } else if e.Text? && e.s in srv.socks && srv.socks[e.s].open {
      var counted := srv.(socks := srv.socks[e.s := Counted(srv.socks[e.s], e.now)]);
      if e.m.Some? {
        HandlingClears(counted, e.s, e.m.value, e.now, room);
      } else {
        RefusalClears(counted, e.s, Error("protocol_mismatch"), room);
      }
    }
  }

  /**
   * Text that does not parse is answered; if it was to be a join of a connection that has not joined, the
   * connection ends.
   */
  lemma UnparsedTextIsAnswered(srv: Server, e: Event)
    requires e.Text? && e.s in srv.socks && srv.socks[e.s].open && Heard(srv.socks[e.s], e.now) && e.m.None?
    ensures var v, k := Next(srv, e), srv.socks[e.s];
            var cutOff := k.me.None? && e.joinFrame;
            && v.rooms == srv.rooms && e.s in v.socks && v.socks[e.s].open == !cutOff
            && v.socks[e.s].sent == k.sent + [Error(if cutOff then "protocol_mismatch" else "bad_json")]
  {
    if srv.socks[e.s].me.None? && e.joinFrame {
      var counted := srv.(socks := srv.socks[e.s := Counted(srv.socks[e.s], e.now)]);
      RefusalOutcome(counted, e.s, Error("protocol_mismatch"));
    }
  }

  // ---- who may hold a handle ----

  ghost predicate SizesOk(m: ClientMsg)
    requires m.Join?
  {
    && 0 < |m.room| <= 64 && 0 < |m.id| <= 64 && 0 < |m.name| <= 64 && 0 < |m.secret| <= 64
    && (m.token.Some? ==> |m.token.value| <= 128)
  }

  /** A live connection that has not joined yet asks, within its frame limit, to join. */
  ghost predicate Asks(srv: Server, e: Event) {
    && e.Text? && e.s in srv.socks && srv.socks[e.s].open && Heard(srv.socks[e.s], e.now)
    && srv.socks[e.s].me.None? && e.m.Some? && e.m.value.Join?
  }

  /** Of the right version, well-formed, with a valid token; and the id is its own or there is room for it. */
  ghost predicate Entitled(srv: Server, m: ClientMsg)
    requires m.Join?
  {
    && m.proto == 2 && SizesOk(m) && m.authOk
    && if m.room in srv.rooms && m.id in srv.rooms[m.room] then srv.rooms[m.room][m.id].secret == m.secret
       else m.room in srv.rooms ==> |srv.rooms[m.room]| < 16
  }

  lemma CountedAsk(srv: Server, e: Event)
    requires Asks(srv, e)
    ensures var counted := srv.(socks := srv.socks[e.s := Counted(srv.socks[e.s], e.now)]);
            Next(srv, e) == Joined(counted, e.s, e.m.value) && counted.socks[e.s].me.None?
            && counted.socks[e.s].sent == srv.socks[e.s].sent && counted.rooms == srv.rooms
  {}

  /** The join as it is decided, for a connection whose frame has been counted. */
  ghost predicate Decided(srv: Server, s: SockId, m: ClientMsg, v: Server)
    requires s in srv.socks && m.Join?
  {
    if Entitled(srv, m) then
      && v.rooms == srv.rooms[m.room := RoomOf(srv, m.room)[m.id := Handle(m.name, s, m.secret)]]
      && s in v.socks && v.socks[s].me == Some((m.room, m.id))
    else
      && v.rooms == srv.rooms && s in v.socks && !v.socks[s].open && v.socks[s].me.None?
      && v.socks[s].sent == srv.socks[s].sent + [WhyNot(srv, m)]
  }

  lemma EntitledMeans(srv: Server, s: SockId, m: ClientMsg)
    requires s in srv.socks && m.Join? && srv.socks[s].me.None?
    ensures Joined(srv, s, m)
         == if Entitled(srv, m) then Entered(srv, s, m.room, m.id, m.name, m.secret)
             else Refused(srv, s, WhyNot(srv, m))
  {}

  lemma EntryOutcome(srv: Server, s: SockId, room: string, id: Id, name: Name, secret: string)
    requires s in srv.socks
    ensures var v := Entered(srv, s, room, id, name, secret);
            && v.rooms == srv.rooms[room := RoomOf(srv, room)[id := Handle(name, s, secret)]]
            && s in v.socks && v.socks[s].me == Some((room, id))
  {
    EnteredShape(srv, s, room, id, name, secret);
    assert (RoomOf(srv, room) - {id})[id := Handle(name, s, secret)]
        == RoomOf(srv, room)[id := Handle(name, s, secret)];
  }

  /** Exactly the entitled get the handle they ask for; anyone else is told off and cut off, and no room changes. */
  lemma JoinsAreDecided(srv: Server, e: Event)
    requires Asks(srv, e)
    ensures Decided(srv, e.s, e.m.value, Next(srv, e))
  {
    CountedAsk(srv, e);
    var counted := srv.(socks := srv.socks[e.s := Counted(srv.socks[e.s], e.now)]);
    JoinIsDecided(counted, e.s, e.m.value);
    DecidedAlike(srv, counted, e.s, e.m.value, Next(srv, e));
  }

  lemma JoinIsDecided(srv: Server, s: SockId, m: ClientMsg)
    requires s in srv.socks && m.Join? && srv.socks[s].me.None?
    ensures Decided(srv, s, m, Joined(srv, s, m))
  {
    EntitledMeans(srv, s, m);
    if Entitled(srv, m) {
      EntryOutcome(srv, s, m.room, m.id, m.name, m.secret);
    } else {
      RefusalOutcome(srv, s, WhyNot(srv, m));
    }
  }

  lemma DecidedAlike(srv: Server, counted: Server, s: SockId, m: ClientMsg, v: Server)
    requires s in srv.socks && s in counted.socks && m.Join?
    requires counted.rooms == srv.rooms && counted.socks[s].sent == srv.socks[s].sent && Decided(counted, s, m, v)
    ensures Decided(srv, s, m, v)
  {}

  lemma RefusalOutcome(srv: Server, s: SockId, why: ServerMsg)
    requires s in srv.socks && srv.socks[s].me.None?
    ensures var v := Refused(srv, s, why);
            && v.rooms == srv.rooms && s in v.socks && !v.socks[s].open && v.socks[s].me.None?
            && v.socks[s].sent == srv.socks[s].sent + [why]
  {}

  /** What a refused join is told: the first thing wrong with it. */
  ghost function WhyNot(srv: Server, m: ClientMsg): ServerMsg
    requires m.Join?
  {
    if m.proto != 2 then Error("protocol_mismatch")
    else if !SizesOk(m) then Error("bad_input")
    else if !m.authOk then Error("bad_token")
    else if m.room in srv.rooms && m.id in srv.rooms[m.room] then Error("id_in_use")
    else RoomFull
  }

  ghost predicate Held(srv: Server, room: string, id: Id) {
    room in srv.rooms && id in srv.rooms[room]
  }

  lemma CloseKeepsHandles(srv: Server, s: SockId, room: string, id: Id)
    requires s in srv.socks && Held(Closed(srv, s), room, id)
    ensures Held(srv, room, id) && Closed(srv, s).rooms[room][id] == srv.rooms[room][id]
  {}

  lemma HandlingKeepsHandles(srv: Server, s: SockId, m: ClientMsg, now: nat, room: string, id: Id)
    requires s in srv.socks && !m.Join? && Held(Handled(srv, s, m, now), room, id)
    ensures Held(srv, room, id) && Handled(srv, s, m, now).rooms[room][id] == srv.rooms[room][id]
  {
    if m.Leave? {
      CloseKeepsHandles(srv, s, room, id);
    }
  }

  /** A handle is new or different only by a join that is entitled to it. */
  lemma HandlesComeFromJoins(srv: Server, e: Event, room: string, id: Id)
    requires Held(Next(srv, e), room, id)
    ensures || (Held(srv, room, id) && Next(srv, e).rooms[room][id] == srv.rooms[room][id])
            || (Asks(srv, e) && Entitled(srv, e.m.value) && e.m.value.room == room && e.m.value.id == id
                && Next(srv, e).rooms[room][id] == Handle(e.m.value.name, e.s, e.m.value.secret))
  {
    match e
    case Connect(_, _) =>
    case Hangup(s) =>
      if s in srv.socks && srv.socks[s].open {
        CloseKeepsHandles(srv, s, room, id);
      }
    case Text(s, m, joinFrame, now) =>
      if Asks(srv, e) {
        AskMovesOneHandle(srv, e, room, id);
      } else if s in srv.socks && srv.socks[s].open {
        OtherTextKeepsHandles(srv, e, room, id);
      }
  }

  lemma AskMovesOneHandle(srv: Server, e: Event, room: string, id: Id)
    requires Asks(srv, e) && Held(Next(srv, e), room, id)
    ensures var m := e.m.value;
            if Entitled(srv, m) && m.room == room && m.id == id
            then Next(srv, e).rooms[room][id] == Handle(m.name, e.s, m.secret)
            else Held(srv, room, id) && Next(srv, e).rooms[room][id] == srv.rooms[room][id]
  {
    JoinsAreDecided(srv, e);
  }

  lemma OtherTextKeepsHandles(srv: Server, e: Event, room: string, id: Id)
    requires e.Text? && e.s in srv.socks && srv.socks[e.s].open && !Asks(srv, e) && Held(Next(srv, e), room, id)
    ensures Held(srv, room, id) && Next(srv, e).rooms[room][id] == srv.rooms[room][id]
  {
    var counted := srv.(socks := srv.socks[e.s := Counted(srv.socks[e.s], e.now)]);
    if e.m.Some? {
      CountingKeeps(Relays, srv, e.s, e.now, e.m.value, e.s);
      if Heard(srv.socks[e.s], e.now) && !e.m.value.Join? {
        HandlingKeepsHandles(counted, e.s, e.m.value, e.now, room, id);
      }
    }
  }

  /** The member is there in every state of the run. */
  ghost predicate HeldThroughout(srv: Server, es: seq<Event>, room: string, id: Id) {
    (es == [] || HeldThroughout(srv, es[..|es| - 1], room, id)) && Held(Run(srv, es), room, id)
  }

  /**
   * However often its connection is taken over, a handle keeps its secret as long as it is held: only who
   * knows it takes over.
   */
  lemma {:induction false} TakeoversKnowTheSecret(srv: Server, es: seq<Event>, room: string, id: Id)
    requires HeldThroughout(srv, es, room, id)
    ensures Held(srv, room, id) && Run(srv, es).rooms[room][id].secret == srv.rooms[room][id].secret
  {
    if es != [] {
      TakeoversKnowTheSecret(srv, es[..|es| - 1], room, id);
      HandlesComeFromJoins(Run(srv, es[..|es| - 1]), es[|es| - 1], room, id);
    }
  }

  // ---- what a join sends ----

  lemma SendAllSends(a: map<SockId, Sock>, to: set<SockId>, m: ServerMsg, k: SockId)
    requires k in a
    ensures k in SendAll(a, to, m) && SendAll(a, to, m)[k].sent == a[k].sent + (if k in to then [m] else [])
  {}

  lemma SendSends(a: map<SockId, Sock>, s: SockId, m: ServerMsg, k: SockId)
    requires k in a
    ensures k in Send(a, s, m) && Send(a, s, m)[k].sent == a[k].sent + (if k == s then [m] else [])
  {}

  /** Another member's connection. */
  ghost predicate Beside(r: Room, id: Id, k: SockId) {
    exists j :: j in r && j != id && r[j].sock == k
  }

  ghost function Warning(size: nat): seq<ServerMsg> {
    if size >= 12 then [Warn(size)] else []
  }

  /**
   * What the entry of `id` over connection `s` puts on connection `k`: the newcomer first gets the roster
   * of the others, the others hear who came, the connection it replaces that it is superseded; a room of
   * twelve or more is warned.
   */
  ghost function ToldOfEntry(r: Room, s: SockId, id: Id, name: Name, secret: string, turn: bool,
                             k: SockId): seq<ServerMsg> {
    var size := |(r - {id})[id := Handle(name, s, secret)]|;
    if k == s then [Roster(Names(r - {id}))] + Warning(size) + (if turn then [Credentials(id)] else [])
    else if Beside(r, id, k) then [PeerJoined(id, name)] + Warning(size)
    else if id in r && r[id].sock == k then [Error("superseded")]
    else []
  }

  lemma AnnouncingSends(a: map<SockId, Sock>, r: Room, s: SockId, id: Id, name: Name, secret: string, k: SockId)
    requires k in a
    ensures var b := Announced(a, r, s, id, name, secret);
            k in b && b[k].sent == a[k].sent + (if id in r && r[id].sock == k then [Error("superseded")] else [])
                                   + (if Beside(r, id, k) then [PeerJoined(id, name)] else [])
  {
    var told := if id in r then Send(a, r[id].sock, Error("superseded")) else a;
    if id in r {
      SendSends(a, r[id].sock, Error("superseded"), k);
    }
    SameSocks(r, id, Handle(name, s, secret));
    InSocksOf(r, Some(id), k);
    SendAllSends(told, SocksOf(r, Some(id)), PeerJoined(id, name), k);
  }

  lemma WelcomeSends(a: map<SockId, Sock>, roster: map<Id, Name>, now: Room, s: SockId, id: Id, turn: bool, k: SockId)
    requires k in a
    ensures var b := Welcomed(a, roster, now, s, id, turn);
            k in b && b[k].sent == a[k].sent + (if k == s then [Roster(roster)] else [])
                                   + (if k in SocksOf(now, None) then Warning(|now|) else [])
                                   + (if k == s && turn then [Credentials(id)] else [])
  {
    var listed := Send(a, s, Roster(roster));
    SendSends(a, s, Roster(roster), k);
    SendAllSends(listed, SocksOf(now, None), Warn(|now|), k);
    var warned := if |now| >= WARN_CAP then SendAll(listed, SocksOf(now, None), Warn(|now|)) else listed;
    SendSends(warned, s, Credentials(id), k);
  }

  lemma InTheRoomNow(r: Room, s: SockId, id: Id, h: Handle, k: SockId)
    requires h.sock == s
    ensures k in SocksOf((r - {id})[id := h], None) <==> k == s || Beside(r, id, k)
  {
    var now := (r - {id})[id := h];
    InSocksOf(now, None, k);
    if k == s {
      assert id in now && now[id].sock == k;
    }
    if Beside(r, id, k) {
      var j :| j in r && j != id && r[j].sock == k;
      assert j in now && now[j].sock == k;
    }
  }

  /** The newcomer's connection is nobody's yet, and the replaced one only the replaced member's. */
  lemma RolesExclude(r: Room, s: SockId, id: Id, k: SockId)
    requires SocksDiffer(r) && forall i :: i in r ==> r[i].sock != s
    ensures k == s ==> !Beside(r, id, k) && !(id in r && r[id].sock == k)
    ensures id in r && r[id].sock == k ==> !Beside(r, id, k)
  {}

  /** The pieces of an entry's frames for one connection, put together. */
  lemma PiecesOfEntry(sent: seq<ServerMsg>, r: Room, s: SockId, id: Id, name: Name, secret: string, turn: bool,
                      k: SockId)
    requires k == s ==> !Beside(r, id, k) && !(id in r && r[id].sock == k)
    requires id in r && r[id].sock == k ==> !Beside(r, id, k)
    ensures var size := |(r - {id})[id := Handle(name, s, secret)]|;
            var first := sent + (if id in r && r[id].sock == k then [Error("superseded")] else [])
                              + (if Beside(r, id, k) then [PeerJoined(id, name)] else []);
            first + (if k == s then [Roster(Names(r - {id}))] else [])
                  + (if k == s || Beside(r, id, k) then Warning(size) else [])
                  + (if k == s && turn then [Credentials(id)] else [])
            == sent + ToldOfEntry(r, s, id, name, secret, turn, k)
  {}

  lemma SocksEntrySends(a: map<SockId, Sock>, r: Room, s: SockId, room: string, id: Id, name: Name, secret: string,
                        turn: bool, k: SockId)
    requires SocksDiffer(r) && (forall i :: i in r ==> r[i].sock != s) && s in a && k in a
    ensures var now := (r - {id})[id := Handle(name, s, secret)];
            var told := Announced(a, r, s, id, name, secret);
            var welcomed := Welcomed(told, Names(r - {id}), now, s, id, turn);
            && s in welcomed && k in welcomed
            && WithMe(welcomed, s, (room, id))[k].sent == a[k].sent + ToldOfEntry(r, s, id, name, secret, turn, k)
  {
    var now := (r - {id})[id := Handle(name, s, secret)];
    var told := Announced(a, r, s, id, name, secret);
    AnnouncingSends(a, r, s, id, name, secret, k);
    AnnouncingSends(a, r, s, id, name, secret, s);
    WelcomeSends(told, Names(r - {id}), now, s, id, turn, k);
    WelcomeSends(told, Names(r - {id}), now, s, id, turn, s);
    InTheRoomNow(r, s, id, Handle(name, s, secret), k);
    RolesExclude(r, s, id, k);
    PiecesOfEntry(a[k].sent, r, s, id, name, secret, turn, k);
  }

  /** An entry sends every connection exactly that, in that order. */
  lemma EntrySends(srv: Server, s: SockId, room: string, id: Id, name: Name, secret: string, k: SockId)
    requires Inv(srv) && s in srv.socks && srv.socks[s].me.None? && k in srv.socks
    ensures var v := Entered(srv, s, room, id, name, secret);
            && k in v.socks
            && v.socks[k].sent == srv.socks[k].sent + ToldOfEntry(RoomOf(srv, room), s, id, name, secret, srv.turn, k)
  {
    NotInRoom(srv, s, room);
    RoomSocksDiffer(srv, room);
    SocksEntrySends(srv.socks, RoomOf(srv, room), s, room, id, name, secret, srv.turn, k);
  }

  /** The client closes, times out, or says that it leaves. */
  ghost predicate Ends(srv: Server, e: Event) {
    && e.s in srv.socks && srv.socks[e.s].open
    && (e.Hangup? || (e.Text? && Heard(srv.socks[e.s], e.now) && e.m == Some(Leave)))
  }

  lemma ClosedIsShut(srv: Server, s: SockId)
    requires s in srv.socks
    ensures s in Closed(srv, s).socks && !Closed(srv, s).socks[s].open
  {}

  lemma EndingShuts(srv: Server, e: Event)
    requires Ends(srv, e)
    ensures e.s in Next(srv, e).socks && !Next(srv, e).socks[e.s].open
  {
    if e.Hangup? {
      ClosedIsShut(srv, e.s);
    } else {
      CountingKeeps(Relays, srv, e.s, e.now, Leave, e.s);
      ClosedIsShut(srv.(socks := srv.socks[e.s := Counted(srv.socks[e.s], e.now)]), e.s);
    }
  }

  /** A connection that ends is closed and holds no handle any more. */
  lemma EndedConnectionsLetGo(srv: Server, e: Event)
    requires Inv(srv) && Ends(srv, e)
    ensures var v := Next(srv, e);
            && e.s in v.socks && !v.socks[e.s].open
            && forall room, id :: room in v.rooms && id in v.rooms[room] ==> v.rooms[room][id].sock != e.s
  {
    var v := Next(srv, e);
    NextKeeps(srv, e);
    EndingShuts(srv, e);
    ShutHoldsNothing(v, e.s);
  }

  lemma ShutHoldsNothing(srv: Server, s: SockId)
    requires Inv(srv) && s in srv.socks && !srv.socks[s].open
    ensures forall room, id :: room in srv.rooms && id in srv.rooms[room] ==> srv.rooms[room][id].sock != s
  {
    forall room, id | room in srv.rooms && id in srv.rooms[room] ensures srv.rooms[room][id].sock != s {
      HandleOwned(srv.rooms, Looks(srv.socks), room, id);
    }
  }

  // ---- how fast a connection may talk ----

  /** A frame beyond the limit moves the meter and nothing else. */
  lemma TooFastIsIgnored(srv: Server, e: Event)
    requires e.Text? && e.s in srv.socks && srv.socks[e.s].open && !Heard(srv.socks[e.s], e.now)
    ensures Next(srv, e) == srv.(socks := srv.socks[e.s := srv.socks[e.s].(winCount := srv.socks[e.s].winCount + 1)])
  {}

  /** The frames of connection `s` that were heard, each with the start of its window. */
  function HeardFrames(turn: bool, es: seq<Event>, s: SockId): seq<Mark> {
    if es == [] then []
    else
      var before, e := es[..|es| - 1], es[|es| - 1];
      var srv := Run(Started(turn), before);
      if e.Text? && e.s == s && s in srv.socks && srv.socks[s].open && Heard(srv.socks[s], e.now)
      then HeardFrames(turn, before, s) + [Mark(e.now, Counted(srv.socks[s], e.now).winStart)]
      else HeardFrames(turn, before, s)
  }

  function TimeOf(e: Event, last: nat): nat {
    if e.Hangup? then last else e.now
  }

  function LastTime(es: seq<Event>): nat {
    if es == [] then 0 else TimeOf(es[|es| - 1], LastTime(es[..|es| - 1]))
  }

  ghost predicate InTime(es: seq<Event>) {
    es != [] ==> InTime(es[..|es| - 1]) && LastTime(es[..|es| - 1]) <= LastTime(es)
  }

  /** What the meter says about the frames heard so far. */
  ghost predicate Metes(srv: Server, s: SockId, w: seq<Mark>, last: nat) {
    && (forall i :: 0 <= i < |w| ==> w[i].at <= last)
    && (s !in srv.socks ==> w == [])
    && (s in srv.socks ==> srv.socks[s].winStart <= last && MarksMetered(w, srv.socks[s], last))
  }

  ghost predicate MarksMetered(w: seq<Mark>, k: Sock, last: nat) {
    forall i :: 0 <= i < |w| ==>
      && w[i].at <= last && Follows(w[i], Mark(last, k.winStart), 1001)
      && (w[i].start == k.winStart ==> |w| - i <= k.winCount)
  }

  lemma CountingMeters(w: seq<Mark>, k: Sock, last: nat, now: nat)
    requires last <= now && k.winStart <= last && MarksMetered(w, k, last)
    ensures var n := Counted(k, now);
            && n.winStart <= now < n.winStart + 1001 && MarksMetered(w, n, now)
            && forall i :: 0 <= i < |w| && w[i].start == n.winStart ==> |w| + 1 - i <= n.winCount
  {}

  /** One more frame heard in the current window. */
  lemma OneMoreHeard(w: seq<Mark>, n: Sock, now: nat)
    requires Windowed(w, 1001, 50) && MarksMetered(w, n, now) && n.winStart <= now < n.winStart + 1001
             && 1 <= n.winCount <= 50
    requires forall i :: 0 <= i < |w| && w[i].start == n.winStart ==> |w| + 1 - i <= n.winCount
    ensures Windowed(w + [Mark(now, n.winStart)], 1001, 50) && MarksMetered(w + [Mark(now, n.winStart)], n, now)
  {}

  lemma MeterStep(k: Sock, w: seq<Mark>, last: nat, now: nat)
    requires last <= now && Windowed(w, 1001, 50) && k.winStart <= last && MarksMetered(w, k, last)
    ensures var n := Counted(k, now);
            var w' := if Heard(k, now) then w + [Mark(now, n.winStart)] else w;
            Windowed(w', 1001, 50) && n.winStart <= now && MarksMetered(w', n, now)
  {
    CountingMeters(w, k, last, now);
    if Heard(k, now) {
      OneMoreHeard(w, Counted(k, now), now);
    }
  }

  lemma {:induction false} HeardFramesAreMetered(turn: bool, es: seq<Event>, s: SockId)
    requires InTime(es)
    ensures Metes(Run(Started(turn), es), s, HeardFrames(turn, es, s), LastTime(es))
    ensures Windowed(HeardFrames(turn, es, s), 1001, 50)
  {
    if es != [] {
      var before, e := es[..|es| - 1], es[|es| - 1];
      var srv := Run(Started(turn), before);
      HeardFramesAreMetered(turn, before, s);
      if s in srv.socks {
        EventsSendExactly(Relays, srv, e, s);
        if e.Text? && e.s == s && srv.socks[s].open {
          MeterStep(srv.socks[s], HeardFrames(turn, before, s), LastTime(before), e.now);
        }
      } else if s in Next(srv, e).socks {
        SocksConnect(srv, e, s);
      }
    }
  }

  /**
   * At most fifty frames of a connection are acted on in any of its windows, and fifty for each second or
   * part begun.
   */
  lemma TalkIsLimited(turn: bool, es: seq<Event>, s: SockId, lo: nat, span: nat)
    requires InTime(es)
    ensures Windowed(HeardFrames(turn, es, s), 1001, 50)
    ensures |Between(HeardFrames(turn, es, s), lo, lo + span)| <= 50 * (span / 1001 + 2)
  {
    HeardFramesAreMetered(turn, es, s);
    WindowBound(HeardFrames(turn, es, s), 1001, 50, lo, span);
  }
}
