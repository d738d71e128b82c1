/** Room state of the signaling server: `handle_socket` and `relay_to` of main.rs. */
module Signaling {
  import opened Wrappers
  import opened Ids

  const WARN_CAP: nat := 12
  const HARD_CAP: nat := 16
  const MAX_ID: nat := 64
  const MAX_NAME: nat := 64
  const MAX_TOKEN: nat := 128
  const MAX_SECRET: nat := 64
  const MAX_SDP: nat := 16 * 1024
  const MAX_ICE: nat := 4 * 1024
  const PROTOCOL_VERSION: nat := 2
  const MSG_RATE_WINDOW: nat := 1000 // milliseconds
  const MSG_RATE_MAX: nat := 50
  const REKEY_COOLDOWN: nat := 5000 // milliseconds

  type Name = string
  /** A connection: the identity of its outbound channel. */
  type SockId = nat
  datatype RelayKind = Offer | Answer | Ice

  datatype ServerMsg =
    | Roster(peers: map<Id, Name>)
    | PeerJoined(id: Id, name: Name)
    | PeerLeft(id: Id)
    | Warn(size: nat)
    | RoomFull
    | Error(code: string)
    | Relayed(kind: RelayKind, from: Id, payload: string)
    | PttFrom(id: Id, active: bool)
    | Rekeyed(who: Name)
    | Credentials(id: Id) // for the TURN relay

  /** `authOk` is what `auth.check` says of the room and token. */
  datatype ClientMsg =
    | Join(proto: nat, room: string, id: Id, name: Name, token: Option<string>, authOk: bool, secret: string)
    | Relay(kind: RelayKind, to: Id, payload: string)
    | Ptt(active: bool)
    | Rekey
    | Leave

  datatype Handle = Handle(name: Name, sock: SockId, secret: string)
  type Room = map<Id, Handle>

  /** `sent` is everything put on the outbound channel so far; no frame is dropped. */
  datatype Sock = Sock(open: bool, me: Option<(string, Id)>, sent: seq<ServerMsg>, winStart: nat, winCount: nat)

  /** `turn` says whether relay credentials are configured. */
  datatype Server = Server(rooms: map<string, Room>, socks: map<SockId, Sock>, rekeys: map<string, nat>, turn: bool)

  function Started(turn: bool): Server {
    Server(map[], map[], map[], turn)
  }

  // ---- sending ----

  function Send(socks: map<SockId, Sock>, s: SockId, m: ServerMsg): map<SockId, Sock> {
    if s in socks then socks[s := socks[s].(sent := socks[s].sent + [m])] else socks
  }

  function SendAll(socks: map<SockId, Sock>, to: set<SockId>, m: ServerMsg): map<SockId, Sock> {
    map k | k in socks :: if k in to then socks[k].(sent := socks[k].sent + [m]) else socks[k]
  }

  /** The connections of a room, without that of `except`. */
  function SocksOf(r: Room, except: Option<Id>): set<SockId> {
    set id | id in r && except != Some(id) :: r[id].sock
  }

  function Names(r: Room): map<Id, Name> {
    map id | id in r :: r[id].name
  }

  function RoomOf(srv: Server, room: string): Room {
    if room in srv.rooms then srv.rooms[room] else map[]
  }

  // ---- one frame ----

  function LenOk(s: string, max: nat): bool {
    s != "" && |s| <= max
  }

  predicate JoinWellFormed(m: ClientMsg)
    requires m.Join?
  {
    && LenOk(m.room, MAX_ID) && LenOk(m.id, MAX_ID) && LenOk(m.name, MAX_NAME) && LenOk(m.secret, MAX_SECRET)
    && (m.token.Some? ==> |m.token.value| <= MAX_TOKEN)
  }

  /** Cleanup after the socket loop ends. */
  function Closed(srv: Server, s: SockId): Server
    requires s in srv.socks
  {
    var sock := srv.socks[s];
    var shut := srv.(socks := srv.socks[s := sock.(open := false)]);
    if sock.me.Some? then
      var (room, id) := sock.me.value;
      if room in srv.rooms && id in srv.rooms[room] && srv.rooms[room][id].sock == s then
        var r := srv.rooms[room] - {id};
        var told := SendAll(shut.socks, SocksOf(r, None), PeerLeft(id));
        if r == map[] then Server(srv.rooms - {room}, told, srv.rekeys - {room}, srv.turn)
        else Server(srv.rooms[room := r], told, srv.rekeys, srv.turn)
      else shut
    else shut
  }

  function Refused(srv: Server, s: SockId, m: ServerMsg): Server
    requires s in srv.socks
  {
    Closed(srv.(socks := Send(srv.socks, s, m)), s)
  }

  predicate MayEnter(r: Room, id: Id, secret: string) {
    if id in r then r[id].secret == secret else |r| < HARD_CAP
  }

  /** A connection this one replaces is told so, and the others of the room hear of the newcomer. */
  function Announced(socks: map<SockId, Sock>, r: Room, s: SockId, id: Id, name: Name,
                     secret: string): map<SockId, Sock> {
    var told := if id in r then Send(socks, r[id].sock, Error("superseded")) else socks;
    SendAll(told, SocksOf((r - {id})[id := Handle(name, s, secret)], Some(id)), PeerJoined(id, name))
  }

  /** The newcomer's roster, the warning to a large room, and the newcomer's relay credentials. */
  function Welcomed(socks: map<SockId, Sock>, roster: map<Id, Name>, now: Room, s: SockId, id: Id,
                    turn: bool): map<SockId, Sock> {
    var listed := Send(socks, s, Roster(roster));
    var warned := if |now| >= WARN_CAP then SendAll(listed, SocksOf(now, None), Warn(|now|)) else listed;
    if turn then Send(warned, s, Credentials(id)) else warned
  }

  function WithMe(socks: map<SockId, Sock>, s: SockId, me: (string, Id)): map<SockId, Sock>
    requires s in socks
  {
    socks[s := socks[s].(me := Some(me))]
  }

  /** The join's critical section, once it may enter. */
  function Entered(srv: Server, s: SockId, room: string, id: Id, name: Name, secret: string): Server
    requires s in srv.socks
  {
    var r := RoomOf(srv, room);
    var now := (r - {id})[id := Handle(name, s, secret)];
    var socks := Welcomed(Announced(srv.socks, r, s, id, name, secret), Names(r - {id}), now, s, id, srv.turn);
    Server(srv.rooms[room := now], WithMe(socks, s, (room, id)), srv.rekeys, srv.turn)
  }

  function Joined(srv: Server, s: SockId, m: ClientMsg): Server
    requires s in srv.socks && m.Join?
  {
    var r := RoomOf(srv, m.room);
    if srv.socks[s].me.Some? then srv.(socks := Send(srv.socks, s, Error("already_joined")))
    else if m.proto != PROTOCOL_VERSION then Refused(srv, s, Error("protocol_mismatch"))
    else if !JoinWellFormed(m) then Refused(srv, s, Error("bad_input"))
    else if !m.authOk then Refused(srv, s, Error("bad_token"))
    else if MayEnter(r, m.id, m.secret) then Entered(srv, s, m.room, m.id, m.name, m.secret)
    else if m.id !in r then Refused(srv, s, RoomFull)
    else Refused(srv, s, Error("id_in_use"))
  }

  function RelayedTo(srv: Server, s: SockId, to: Id, kind: RelayKind, payload: string): Server
    requires s in srv.socks
  {
    var me := srv.socks[s].me;
    if me.None? then srv
    else
      var (room, from) := me.value;
      var r := RoomOf(srv, room);
      if to in r then srv.(socks := Send(srv.socks, r[to].sock, Relayed(kind, from, payload))) else srv
  }

  predicate RekeyAllowed(srv: Server, room: string, now: nat) {
    room in srv.rekeys ==> now - srv.rekeys[room] >= REKEY_COOLDOWN
  }

  function RekeyAsked(srv: Server, s: SockId, now: nat): Server
    requires s in srv.socks
  {
    var me := srv.socks[s].me;
    if me.None? || !RekeyAllowed(srv, me.value.0, now) then srv
    else
      var (room, from) := me.value;
      var r := RoomOf(srv, room);
      var who := if from in r then r[from].name else "";
      Server(srv.rooms, SendAll(srv.socks, SocksOf(r, None), Rekeyed(who)), srv.rekeys[room := now], srv.turn)
  }

  function Handled(srv: Server, s: SockId, m: ClientMsg, now: nat): Server
    requires s in srv.socks
  {
    match m
    case Join(_, _, _, _, _, _, _) => Joined(srv, s, m)
    case Relay(kind, to, payload) =>
      if !LenOk(to, MAX_ID) || |payload| > (if kind.Ice? then MAX_ICE else MAX_SDP) then srv
      else RelayedTo(srv, s, to, kind, payload)
    case Ptt(active) =>
      var me := srv.socks[s].me;
      if me.None? then srv
      else srv.(socks := SendAll(srv.socks, SocksOf(RoomOf(srv, me.value.0), Some(me.value.1)),
          PttFrom(me.value.1, active)))
    case Rekey => RekeyAsked(srv, s, now)
    case Leave => Closed(srv, s)
  }

  /** The per-connection window: restarted once it is over, then counted up. */
  function Counted(k: Sock, now: nat): Sock {
    if now - k.winStart > MSG_RATE_WINDOW then k.(winStart := now, winCount := 1) else k.(winCount := k.winCount + 1)
  }

  /** A text frame; `m` is None if it does not parse. */
  function Received(srv: Server, s: SockId, m: Option<ClientMsg>, joinFrame: bool, now: nat): Server
    requires s in srv.socks
  {
    var counted := srv.(socks := srv.socks[s := Counted(srv.socks[s], now)]);
    if counted.socks[s].winCount > MSG_RATE_MAX then counted
    else if m.Some? then Handled(counted, s, m.value, now)
    else if srv.socks[s].me.None? && joinFrame then Refused(counted, s, Error("protocol_mismatch"))
    else counted.(socks := Send(counted.socks, s, Error("bad_json")))
  }

  datatype Event =
    | Connect(s: SockId, now: nat)
    | Text(s: SockId, m: Option<ClientMsg>, joinFrame: bool, now: nat)
    | Hangup(s: SockId) // close frame, end of stream or idle timeout

  function Next(srv: Server, e: Event): Server {
    match e
    case Connect(s, now) => if s in srv.socks then srv else srv.(socks := srv.socks[s := Sock(true, None, [], now, 0)])
    case Text(s, m, joinFrame, now) => if s in srv.socks && srv.socks[s].open then Received(srv, s, m, joinFrame, now)
        else srv
    case Hangup(s) => if s in srv.socks && srv.socks[s].open then Closed(srv, s) else srv
  }

  function Run(srv: Server, es: seq<Event>): Server {
    if es == [] then srv else Next(Run(srv, es[..|es| - 1]), es[|es| - 1])
  }

  // ---- what a client makes of its frames ----

  function Folded(view: map<Id, Name>, m: ServerMsg): map<Id, Name> {
    match m
    case Roster(peers) => peers
    case PeerJoined(id, name) => view[id := name]
    case PeerLeft(id) => view - {id}
    case _ => view
  }

  function View(ms: seq<ServerMsg>): map<Id, Name> {
    if ms == [] then map[] else Folded(View(ms[..|ms| - 1]), ms[|ms| - 1])
  }

  lemma ViewAppend(ms: seq<ServerMsg>, m: ServerMsg)
    ensures View(ms + [m]) == Folded(View(ms), m)
  {
    assert (ms + [m])[..|ms|] == ms;
  }

  // ---- invariants ----

  /** A connection as the invariants see it: liveness, what it joined as, and its client's folded view. */
  datatype Look = Look(open: bool, me: Option<(string, Id)>, view: map<Id, Name>)

  function LookOf(k: Sock): Look {
    Look(k.open, k.me, View(k.sent))
  }

  function Looks(socks: map<SockId, Sock>): map<SockId, Look> {
    map k | k in socks :: LookOf(socks[k])
  }

  /** Connection `h.sock` is live and has joined as this member. */
  predicate Owned(looks: map<SockId, Look>, room: string, id: Id, h: Handle) {
    h.sock in looks && looks[h.sock].open && looks[h.sock].me == Some((room, id))
  }

  /**
   * Each handle belongs to a live connection joined as that member, whose folded view is the room
   * without itself; rooms hold 1 to 16 members.
   */
  ghost predicate Sound(rooms: map<string, Room>, looks: map<SockId, Look>) {
    Sized(rooms) && forall room :: room in rooms ==> Seated(rooms[room], looks, room)
  }

  ghost predicate Sized(rooms: map<string, Room>) {
    forall room :: room in rooms ==> 1 <= |rooms[room]| <= HARD_CAP
  }

  ghost predicate Seated(r: Room, looks: map<SockId, Look>, room: string) {
    forall id :: id in r ==> Owned(looks, room, id, r[id]) && looks[r[id].sock].view == Names(r - {id})
  }

  ghost predicate Inv(srv: Server) {
    Sound(srv.rooms, Looks(srv.socks))
  }

  lemma HandleOwned(rooms: map<string, Room>, looks: map<SockId, Look>, room: string, id: Id)
    requires Sound(rooms, looks) && room in rooms && id in rooms[room]
    ensures Owned(looks, room, id, rooms[room][id]) && looks[rooms[room][id].sock].view == Names(rooms[room] - {id})
  {
    assert Seated(rooms[room], looks, room);
  }

  /** Two handles never share a connection. */
  lemma HandlesDiffer(rooms: map<string, Room>, looks: map<SockId, Look>, room1: string, id1: Id, room2: string,
                      id2: Id)
    requires Sound(rooms, looks) && room1 in rooms && room2 in rooms && id1 in rooms[room1] && id2 in rooms[room2]
    requires room1 != room2 || id1 != id2
    ensures rooms[room1][id1].sock != rooms[room2][id2].sock
  {
    HandleOwned(rooms, looks, room1, id1);
    HandleOwned(rooms, looks, room2, id2);
  }

  /** Frames that are not about membership leave every folded view alone. */
  predicate Neutral(m: ServerMsg) {
    !m.Roster? && !m.PeerJoined? && !m.PeerLeft?
  }

  function LookAll(looks: map<SockId, Look>, to: set<SockId>, m: ServerMsg): map<SockId, Look> {
    map k | k in looks :: if k in to then looks[k].(view := Folded(looks[k].view, m)) else looks[k]
  }

  lemma SentLook(k: Sock, m: ServerMsg)
    ensures LookOf(k.(sent := k.sent + [m])) == LookOf(k).(view := Folded(LookOf(k).view, m))
  {
    ViewAppend(k.sent, m);
  }

  lemma SendAllLooks(socks: map<SockId, Sock>, to: set<SockId>, m: ServerMsg)
    ensures Looks(SendAll(socks, to, m)) == LookAll(Looks(socks), to, m)
  {
    var sent := SendAll(socks, to, m);
    forall k | k in socks ensures Looks(sent)[k] == LookAll(Looks(socks), to, m)[k] {
      SentLook(socks[k], m);
    }
  }

  lemma SendLooks(socks: map<SockId, Sock>, s: SockId, m: ServerMsg)
    requires s in socks
    ensures Looks(Send(socks, s, m)) == Looks(socks)[s := Looks(socks)[s].(view := Folded(Looks(socks)[s].view, m))]
  {
    SentLook(socks[s], m);
  }

  lemma NeutralLooks(looks: map<SockId, Look>, to: set<SockId>, m: ServerMsg)
    requires Neutral(m)
    ensures LookAll(looks, to, m) == looks
  {}

  lemma SendNeutral(socks: map<SockId, Sock>, s: SockId, m: ServerMsg)
    requires Neutral(m)
    ensures Looks(Send(socks, s, m)) == Looks(socks)
  {
    if s in socks {
      SendLooks(socks, s, m);
      assert Looks(socks)[s].(view := Looks(socks)[s].view) == Looks(socks)[s];
    }
  }

  lemma SendAllNeutral(socks: map<SockId, Sock>, to: set<SockId>, m: ServerMsg)
    requires Neutral(m)
    ensures Looks(SendAll(socks, to, m)) == Looks(socks)
  {
    SendAllLooks(socks, to, m);
    NeutralLooks(Looks(socks), to, m);
  }

  // Closing.

  predicate Owner(srv: Server, s: SockId)
    requires s in srv.socks
  {
    var me := srv.socks[s].me;
    me.Some? && me.value.0 in srv.rooms && me.value.1 in srv.rooms[me.value.0]
        && srv.rooms[me.value.0][me.value.1].sock == s
  }

  /** Closing a connection that owns no handle changes no room, no cooldown and no other connection. */
  lemma StaleCloseChangesNothing(srv: Server, s: SockId)
    requires s in srv.socks
    requires forall room, id :: room in srv.rooms && id in srv.rooms[room] ==> srv.rooms[room][id].sock != s
    ensures Closed(srv, s) == srv.(socks := srv.socks[s := srv.socks[s].(open := false)])
  {}

  lemma ClosedLooks(srv: Server, s: SockId)
    requires s in srv.socks && Owner(srv, s)
    ensures var (room, id) := srv.socks[s].me.value;
            && Closed(srv, s).rooms == WithoutMember(srv.rooms, room, id)
            && Looks(Closed(srv, s).socks) == LeftLooks(srv.rooms, Looks(srv.socks), room, id)
  {
    var shut := srv.socks[s := srv.socks[s].(open := false)];
    var (room, id) := srv.socks[s].me.value;
    assert Looks(shut) == Looks(srv.socks)[s := LookOf(srv.socks[s]).(open := false)];
    SendAllLooks(shut, SocksOf(srv.rooms[room] - {id}, None), PeerLeft(id));
  }

  function WithoutMember(rooms: map<string, Room>, room: string, id: Id): map<string, Room>
    requires room in rooms
  {
    var r := rooms[room] - {id};
    if r == map[] then rooms - {room} else rooms[room := r]
  }

  function LeftLooks(rooms: map<string, Room>, looks: map<SockId, Look>, room: string, id: Id): map<SockId, Look>
    requires room in rooms && id in rooms[room] && rooms[room][id].sock in looks
  {
    var s := rooms[room][id].sock;
    LookAll(looks[s := looks[s].(open := false)], SocksOf(rooms[room] - {id}, None), PeerLeft(id))
  }

  lemma NamesWithout(r: Room, id: Id, i: Id)
    ensures Names(r - {i}) - {id} == Names(r - {id} - {i})
  {}

  /** What leaving makes of one remaining connection. */
  lemma LeftLook(rooms: map<string, Room>, looks: map<SockId, Look>, room: string, id: Id, k: SockId)
    requires room in rooms && id in rooms[room] && rooms[room][id].sock in looks
    requires k in looks && k != rooms[room][id].sock
    ensures k in LeftLooks(rooms, looks, room, id)
    ensures LeftLooks(rooms, looks, room, id)[k]
         == if k in SocksOf(rooms[room] - {id}, None) then looks[k].(view := looks[k].view - {id}) else looks[k]
  {}

  lemma LeaveKeepsRoom(rooms: map<string, Room>, looks: map<SockId, Look>, room: string, id: Id)
    requires Sound(rooms, looks) && room in rooms && id in rooms[room] && rooms[room][id].sock in looks
    ensures Seated(rooms[room] - {id}, LeftLooks(rooms, looks, room, id), room)
  {
    var r := rooms[room] - {id};
    forall i | i in r ensures Owned(LeftLooks(rooms, looks, room, id), room, i, r[i])
                              && LeftLooks(rooms, looks, room, id)[r[i].sock].view == Names(r - {i})
    {
      HandleOwned(rooms, looks, room, i);
      HandlesDiffer(rooms, looks, room, i, room, id);
      LeftLook(rooms, looks, room, id, r[i].sock);
      assert i in r && None != Some(i) && r[i].sock in SocksOf(r, None);
      NamesWithout(rooms[room], id, i);
    }
  }

  lemma LeaveKeepsOther(rooms: map<string, Room>, looks: map<SockId, Look>, room: string, id: Id, rm: string)
    requires Sound(rooms, looks) && room in rooms && id in rooms[room] && rooms[room][id].sock in looks && rm in rooms
             && rm != room
    ensures Seated(rooms[rm], LeftLooks(rooms, looks, room, id), rm)
  {
    forall i | i in rooms[rm] ensures Owned(LeftLooks(rooms, looks, room, id), rm, i, rooms[rm][i])
                                      && LeftLooks(rooms, looks, room, id)[rooms[rm][i].sock].view
                                          == Names(rooms[rm] - {i})
    {
      var k := rooms[rm][i].sock;
      HandleOwned(rooms, looks, rm, i);
      HandlesDiffer(rooms, looks, rm, i, room, id);
      LeftLook(rooms, looks, room, id, k);
      OtherRoomsSock(rooms, looks, room, rm, i);
    }
  }

  lemma OtherRoomsSock(rooms: map<string, Room>, looks: map<SockId, Look>, room: string, rm: string, i: Id)
    requires Sound(rooms, looks) && room in rooms && rm in rooms && i in rooms[rm] && rm != room
    ensures forall id :: id in rooms[room] ==> rooms[room][id].sock != rooms[rm][i].sock
  {
    forall id | id in rooms[room] ensures rooms[room][id].sock != rooms[rm][i].sock {
      HandlesDiffer(rooms, looks, room, id, rm, i);
    }
  }

  lemma Shrinks(r: Room, id: Id)
    requires id in r
    ensures |r - {id}| == |r| - 1 && (r - {id} == map[] <==> |r| == 1)
  {
    assert (r - {id}).Keys == r.Keys - {id};
    assert |r - {id}| == |(r - {id}).Keys| && |r| == |r.Keys|;
  }

  lemma LeaveKeepsSized(rooms: map<string, Room>, room: string, id: Id)
    requires Sized(rooms) && room in rooms && id in rooms[room]
    ensures Sized(WithoutMember(rooms, room, id))
  {
    Shrinks(rooms[room], id);
  }

  lemma RoomLeft(rooms: map<string, Room>, room: string, id: Id, rm: string)
    requires room in rooms && rm in WithoutMember(rooms, room, id)
    ensures rm in rooms && WithoutMember(rooms, room, id)[rm] == if rm == room then rooms[room] - {id} else rooms[rm]
  {}

  lemma LeaveKeepsSeated(rooms: map<string, Room>, looks: map<SockId, Look>, room: string, id: Id, rm: string)
    requires Sound(rooms, looks) && room in rooms && id in rooms[room] && rooms[room][id].sock in looks
    requires rm in WithoutMember(rooms, room, id)
    ensures Seated(WithoutMember(rooms, room, id)[rm], LeftLooks(rooms, looks, room, id), rm)
  {
    RoomLeft(rooms, room, id, rm);
    if rm == room {
      LeaveKeepsRoom(rooms, looks, room, id);
    } else {
      LeaveKeepsOther(rooms, looks, room, id, rm);
    }
  }

  /** A member leaves: its connection shuts and the rest of the room drops it from their views. */
  lemma LeaveKeepsSound(rooms: map<string, Room>, looks: map<SockId, Look>, room: string, id: Id)
    requires Sound(rooms, looks) && room in rooms && id in rooms[room]
    ensures rooms[room][id].sock in looks && Sound(WithoutMember(rooms, room, id), LeftLooks(rooms, looks, room, id))
  {
    HandleOwned(rooms, looks, room, id);
    LeaveKeepsSized(rooms, room, id);
    forall rm | rm in WithoutMember(rooms, room, id)
      ensures Seated(WithoutMember(rooms, room, id)[rm], LeftLooks(rooms, looks, room, id), rm)
    {
      LeaveKeepsSeated(rooms, looks, room, id, rm);
    }
  }

  lemma StaleCloseKeeps(srv: Server, s: SockId)
    requires Inv(srv) && s in srv.socks && !Owner(srv, s)
    ensures Inv(Closed(srv, s))
  {
    StaleShut(srv.rooms, Looks(srv.socks), s);
    ShutLooks(srv.socks, s);
  }

  lemma ShutLooks(socks: map<SockId, Sock>, s: SockId)
    requires s in socks
    ensures Looks(socks[s := socks[s].(open := false)]) == Looks(socks)[s := Looks(socks)[s].(open := false)]
  {}

  lemma CloseKeeps(srv: Server, s: SockId)
    requires Inv(srv) && s in srv.socks
    ensures Inv(Closed(srv, s))
  {
    if Owner(srv, s) {
      var (room, id) := srv.socks[s].me.value;
      ClosedLooks(srv, s);
      LeaveKeepsSound(srv.rooms, Looks(srv.socks), room, id);
    } else {
      StaleCloseKeeps(srv, s);
    }
  }

  lemma ShutKeepsRoom(r: Room, looks: map<SockId, Look>, s: SockId, l: Look, room: string)
    requires Seated(r, looks, room) && forall i :: i in r ==> r[i].sock != s
    ensures Seated(r, looks[s := l], room)
  {}

  lemma StaleShut(rooms: map<string, Room>, looks: map<SockId, Look>, s: SockId)
    requires Sound(rooms, looks) && s in looks
    requires looks[s].me.Some? ==> !(looks[s].me.value.0 in rooms && looks[s].me.value.1 in rooms[looks[s].me.value.0]
                                     && rooms[looks[s].me.value.0][looks[s].me.value.1].sock == s)
    ensures Sound(rooms, looks[s := looks[s].(open := false)])
  {
    forall rm | rm in rooms ensures Seated(rooms[rm], looks[s := looks[s].(open := false)], rm) {
      forall i | i in rooms[rm] ensures rooms[rm][i].sock != s {
        HandleOwned(rooms, looks, rm, i);
      }
      ShutKeepsRoom(rooms[rm], looks, s, looks[s].(open := false), rm);
    }
  }

  lemma RefuseKeeps(srv: Server, s: SockId, m: ServerMsg)
    requires Inv(srv) && s in srv.socks && Neutral(m)
    ensures Inv(Refused(srv, s, m))
  {
    SendNeutral(srv.socks, s, m);
    CloseKeeps(srv.(socks := Send(srv.socks, s, m)), s);
  }

  // Entering.

  /** The newcomer sees the others; the others see the newcomer. */
  function EnteredLooks(looks: map<SockId, Look>, r: Room, s: SockId, room: string, id: Id,
                        name: Name): map<SockId, Look>
    requires s in looks
  {
    var told := LookAll(looks, SocksOf(r, Some(id)), PeerJoined(id, name));
    told[s := Look(looks[s].open, Some((room, id)), Names(r - {id}))]
  }

  lemma AnnouncedLooks(socks: map<SockId, Sock>, r: Room, s: SockId, id: Id, name: Name, secret: string)
    ensures Looks(Announced(socks, r, s, id, name, secret))
            == LookAll(Looks(socks), SocksOf(r, Some(id)), PeerJoined(id, name))
  {
    var told := if id in r then Send(socks, r[id].sock, Error("superseded")) else socks;
    SendNeutral(socks, if id in r then r[id].sock else 0, Error("superseded"));
    SameSocks(r, id, Handle(name, s, secret));
    SendAllLooks(told, SocksOf(r, Some(id)), PeerJoined(id, name));
  }

  lemma WelcomedLooks(socks: map<SockId, Sock>, roster: map<Id, Name>, now: Room, s: SockId, id: Id, turn: bool)
    requires s in socks
    ensures Looks(Welcomed(socks, roster, now, s, id, turn)) == Looks(socks)[s := Looks(socks)[s].(view := roster)]
  {
    var listed := Send(socks, s, Roster(roster));
    var warned := if |now| >= WARN_CAP then SendAll(listed, SocksOf(now, None), Warn(|now|)) else listed;
    SendLooks(socks, s, Roster(roster));
    SendAllNeutral(listed, SocksOf(now, None), Warn(|now|));
    SendNeutral(warned, s, Credentials(id));
  }

  lemma EntryLooks(socks: map<SockId, Sock>, r: Room, now: Room, s: SockId, room: string, id: Id, name: Name,
                   secret: string, turn: bool)
    requires s in socks
    ensures var told := Announced(socks, r, s, id, name, secret);
            var welcomed := Welcomed(told, Names(r - {id}), now, s, id, turn);
            s in welcomed && Looks(WithMe(welcomed, s, (room, id))) == EnteredLooks(Looks(socks), r, s, room, id, name)
  {
    var told := Announced(socks, r, s, id, name, secret);
    AnnouncedLooks(socks, r, s, id, name, secret);
    WelcomedLooks(told, Names(r - {id}), now, s, id, turn);
    LooksOfMe(Welcomed(told, Names(r - {id}), now, s, id, turn), s, (room, id));
    EnteredStages(Looks(socks), SocksOf(r, Some(id)), s, room, id, name, Names(r - {id}));
  }

  lemma EnteredLooksRight(srv: Server, s: SockId, room: string, id: Id, name: Name, secret: string)
    requires s in srv.socks
    ensures Looks(Entered(srv, s, room, id, name, secret).socks)
            == EnteredLooks(Looks(srv.socks), RoomOf(srv, room), s, room, id, name)
  {
    var r := RoomOf(srv, room);
    EntryLooks(srv.socks, r, (r - {id})[id := Handle(name, s, secret)], s, room, id, name, secret, srv.turn);
  }

  lemma SameSocks(r: Room, id: Id, h: Handle)
    ensures SocksOf((r - {id})[id := h], Some(id)) == SocksOf(r, Some(id))
  {
    var now := (r - {id})[id := h];
    forall k ensures k in SocksOf(now, Some(id)) <==> k in SocksOf(r, Some(id)) {
      if k in SocksOf(r, Some(id)) {
        var j :| j in r && Some(id) != Some(j) && r[j].sock == k;
        assert j in now && now[j].sock == k;
      }
      if k in SocksOf(now, Some(id)) {
        var j :| j in now && Some(id) != Some(j) && now[j].sock == k;
        assert j in r && r[j].sock == k;
      }
    }
  }

  lemma LooksOfMe(socks: map<SockId, Sock>, s: SockId, me: (string, Id))
    requires s in socks
    ensures Looks(WithMe(socks, s, me)) == Looks(socks)[s := Looks(socks)[s].(me := Some(me))]
  {}

  lemma EnteredStages(looks: map<SockId, Look>, to: set<SockId>, s: SockId, room: string, id: Id, name: Name,
                      peers: map<Id, Name>)
    requires s in looks
    ensures var l1 := LookAll(looks, to, PeerJoined(id, name));
            var l2 := l1[s := l1[s].(view := peers)];
            l2[s := l2[s].(me := Some((room, id)))] == l1[s := Look(looks[s].open, Some((room, id)), peers)]
  {}

  /** What entering makes of one connection that was there before. */
  lemma EnteredLook(looks: map<SockId, Look>, r: Room, s: SockId, room: string, id: Id, name: Name, k: SockId)
    requires s in looks && k in looks && k != s
    ensures k in EnteredLooks(looks, r, s, room, id, name)
    ensures EnteredLooks(looks, r, s, room, id, name)[k]
         == if k in SocksOf(r, Some(id)) then looks[k].(view := looks[k].view[id := name]) else looks[k]
  {}

  lemma EnterKeepsOther(rooms: map<string, Room>, looks: map<SockId, Look>, r: Room, s: SockId, room: string, id: Id,
                        name: Name, rm: string)
    requires Sound(rooms, looks) && s in looks && looks[s].me.None? && rm in rooms && rm != room
    requires r == if room in rooms then rooms[room] else map[]
    ensures Seated(rooms[rm], EnteredLooks(looks, r, s, room, id, name), rm)
  {
    forall i | i in rooms[rm] ensures Owned(EnteredLooks(looks, r, s, room, id, name), rm, i, rooms[rm][i])
                                      && EnteredLooks(looks, r, s, room, id, name)[rooms[rm][i].sock].view
                                          == Names(rooms[rm] - {i})
    {
      HandleOwned(rooms, looks, rm, i);
      EnteredLook(looks, r, s, room, id, name, rooms[rm][i].sock);
      if room in rooms {
        OtherRoomsSock(rooms, looks, room, rm, i);
      }
    }
  }

  lemma EnterKeepsRoom(rooms: map<string, Room>, looks: map<SockId, Look>, r: Room, s: SockId, room: string, id: Id,
                       h: Handle)
    requires Sound(rooms, looks) && s in looks && looks[s].open && looks[s].me.None? && h.sock == s
    requires r == if room in rooms then rooms[room] else map[]
    ensures Seated((r - {id})[id := h], EnteredLooks(looks, r, s, room, id, h.name), room)
  {
    var now := (r - {id})[id := h];
    assert now - {id} == r - {id};
    forall i | i in now ensures Owned(EnteredLooks(looks, r, s, room, id, h.name), room, i, now[i])
                                && EnteredLooks(looks, r, s, room, id, h.name)[now[i].sock].view == Names(now - {i})
    {
      if i != id {
        EnterKeepsMember(rooms, looks, r, s, room, id, h, i);
      }
    }
  }

  lemma EnterKeepsMember(rooms: map<string, Room>, looks: map<SockId, Look>, r: Room, s: SockId, room: string, id: Id,
                         h: Handle, i: Id)
    requires Sound(rooms, looks) && s in looks && looks[s].me.None? && room in rooms && r == rooms[room] && i in r
             && i != id
    ensures Owned(EnteredLooks(looks, r, s, room, id, h.name), room, i, r[i])
    ensures EnteredLooks(looks, r, s, room, id, h.name)[r[i].sock].view == Names((r - {id})[id := h] - {i})
  {
    HandleOwned(rooms, looks, room, i);
    EnteredLook(looks, r, s, room, id, h.name, r[i].sock);
    assert i in r && Some(id) != Some(i) && r[i].sock in SocksOf(r, Some(id));
    NamesWith(r, id, h, i);
  }

  lemma NamesWith(r: Room, id: Id, h: Handle, i: Id)
    requires i != id
    ensures Names((r - {id})[id := h] - {i}) == Names(r - {i})[id := h.name]
  {}

  lemma RoomGrows(r: Room, id: Id, h: Handle)
    requires MayEnter(r, id, h.secret) && |r| <= HARD_CAP
    ensures 1 <= |(r - {id})[id := h]| <= HARD_CAP
  {
    var now := (r - {id})[id := h];
    assert id in now;
    assert now.Keys == r.Keys + {id};
    assert |now| == |now.Keys| && |r| == |r.Keys|;
  }

  lemma EnterKeepsSound(rooms: map<string, Room>, looks: map<SockId, Look>, s: SockId, room: string, id: Id, h: Handle,
                        r: Room)
    requires Sound(rooms, looks) && s in looks && looks[s].open && looks[s].me.None? && h.sock == s
    requires r == if room in rooms then rooms[room] else map[]
    requires MayEnter(r, id, h.secret)
    ensures Sound(rooms[room := (r - {id})[id := h]], EnteredLooks(looks, r, s, room, id, h.name))
  {
    var rooms', looks' := rooms[room := (r - {id})[id := h]], EnteredLooks(looks, r, s, room, id, h.name);
    RoomGrows(r, id, h);
    EnterKeepsRoom(rooms, looks, r, s, room, id, h);
    forall rm | rm in rooms' ensures Seated(rooms'[rm], looks', rm) {
      if rm != room {
        EnterKeepsOther(rooms, looks, r, s, room, id, h.name, rm);
      }
    }
  }

  lemma EnterKeeps(srv: Server, s: SockId, room: string, id: Id, name: Name, secret: string)
    requires Inv(srv) && s in srv.socks && srv.socks[s].open && srv.socks[s].me.None?
    requires MayEnter(RoomOf(srv, room), id, secret)
    ensures Inv(Entered(srv, s, room, id, name, secret))
  {
    EnteredLooksRight(srv, s, room, id, name, secret);
    var r := RoomOf(srv, room);
    EnterKeepsSound(srv.rooms, Looks(srv.socks), s, room, id, Handle(name, s, secret), r);
  }

  /** After a supersede the old connection owns nothing, so its own close will change nothing. */
  lemma SupersededOwnsNothing(srv: Server, s: SockId, room: string, id: Id, name: Name, secret: string)
    requires Inv(srv) && s in srv.socks && srv.socks[s].me.None? && room in srv.rooms && id in srv.rooms[room]
    ensures var srv' := Entered(srv, s, room, id, name, secret);
            var stale := srv.rooms[room][id].sock;
            stale in srv'.socks && Closed(srv', stale)
                == srv'.(socks := srv'.socks[stale := srv'.socks[stale].(open := false)])
  {
    var srv' := Entered(srv, s, room, id, name, secret);
    var stale := srv.rooms[room][id].sock;
    HandleOwned(srv.rooms, Looks(srv.socks), room, id);
    EnteredShape(srv, s, room, id, name, secret);
    NoHandleLeft(srv.rooms, Looks(srv.socks), s, room, id, Handle(name, s, secret));
    StaleCloseChangesNothing(srv', stale);
  }

  lemma EnteredShape(srv: Server, s: SockId, room: string, id: Id, name: Name, secret: string)
    requires s in srv.socks
    ensures var srv' := Entered(srv, s, room, id, name, secret);
            && srv'.rooms == srv.rooms[room := (RoomOf(srv, room) - {id})[id := Handle(name, s, secret)]]
            && srv'.socks.Keys == srv.socks.Keys && srv'.rekeys == srv.rekeys
  {}

  lemma NoHandleLeft(rooms: map<string, Room>, looks: map<SockId, Look>, s: SockId, room: string, id: Id, h: Handle)
    requires Sound(rooms, looks) && room in rooms && id in rooms[room] && s in looks && looks[s].me.None? && h.sock == s
    ensures var rooms' := rooms[room := (rooms[room] - {id})[id := h]];
            forall r: string, i: Id :: r in rooms' && i in rooms'[r] ==> rooms'[r][i].sock != rooms[room][id].sock
  {
    var rooms': map<string, Room> := rooms[room := (rooms[room] - {id})[id := h]];
    HandleOwned(rooms, looks, room, id);
    forall r: string, i: Id | r in rooms' && i in rooms'[r] ensures rooms'[r][i].sock != rooms[room][id].sock {
      if r != room || i != id {
        assert rooms'[r][i] == rooms[r][i];
        HandlesDiffer(rooms, looks, r, i, room, id);
      }
    }
  }

  lemma JoinKeeps(srv: Server, s: SockId, m: ClientMsg)
    requires Inv(srv) && s in srv.socks && srv.socks[s].open && m.Join?
    ensures Inv(Joined(srv, s, m))
  {
    var r := RoomOf(srv, m.room);
    if srv.socks[s].me.Some? {
      SendNeutral(srv.socks, s, Error("already_joined"));
    } else if m.proto != PROTOCOL_VERSION {
      RefuseKeeps(srv, s, Error("protocol_mismatch"));
    } else if !JoinWellFormed(m) {
      RefuseKeeps(srv, s, Error("bad_input"));
    } else if !m.authOk {
      RefuseKeeps(srv, s, Error("bad_token"));
    } else if MayEnter(r, m.id, m.secret) {
      EnterKeeps(srv, s, m.room, m.id, m.name, m.secret);
    } else {
      RefuseKeeps(srv, s, if m.id !in r then RoomFull else Error("id_in_use"));
    }
  }

  lemma RelayLooks(srv: Server, s: SockId, to: Id, kind: RelayKind, payload: string)
    requires s in srv.socks
    ensures Looks(RelayedTo(srv, s, to, kind, payload).socks) == Looks(srv.socks)
  {
    var me := srv.socks[s].me;
    if me.Some? && to in RoomOf(srv, me.value.0) {
      SendNeutral(srv.socks, RoomOf(srv, me.value.0)[to].sock, Relayed(kind, me.value.1, payload));
    }
  }

  lemma RekeyLooks(srv: Server, s: SockId, now: nat)
    requires s in srv.socks
    ensures Looks(RekeyAsked(srv, s, now).socks) == Looks(srv.socks)
  {
    var me := srv.socks[s].me;
    if me.Some? {
      var r := RoomOf(srv, me.value.0);
      SendAllNeutral(srv.socks, SocksOf(r, None), Rekeyed(if me.value.1 in r then r[me.value.1].name else ""));
    }
  }

  lemma PttLooks(srv: Server, s: SockId, active: bool, now: nat)
    requires s in srv.socks
    ensures Looks(Handled(srv, s, Ptt(active), now).socks) == Looks(srv.socks)
  {
    var me := srv.socks[s].me;
    if me.Some? {
      SendAllNeutral(srv.socks, SocksOf(RoomOf(srv, me.value.0), Some(me.value.1)), PttFrom(me.value.1, active));
    }
  }

  lemma RelayKeeps(srv: Server, s: SockId, m: ClientMsg, now: nat)
    requires Inv(srv) && s in srv.socks && (m.Relay? || m.Ptt? || m.Rekey?)
    ensures Inv(Handled(srv, s, m, now))
  {
    match m
    case Relay(kind, to, payload) => RelayLooks(srv, s, to, kind, payload);
    case Ptt(active) => PttLooks(srv, s, active, now);
    case Rekey => RekeyLooks(srv, s, now);
  }

  lemma HandleKeeps(srv: Server, s: SockId, m: ClientMsg, now: nat)
    requires Inv(srv) && s in srv.socks && srv.socks[s].open
    ensures Inv(Handled(srv, s, m, now))
  {
    match m
    case Leave => CloseKeeps(srv, s);
    case Join(_, _, _, _, _, _, _) => JoinKeeps(srv, s, m);
    case _ => RelayKeeps(srv, s, m, now);
  }

  lemma CountingLooks(srv: Server, s: SockId, now: nat)
    requires s in srv.socks
    ensures Looks(srv.socks[s := Counted(srv.socks[s], now)]) == Looks(srv.socks)
  {}

  lemma ReceiveKeeps(srv: Server, s: SockId, m: Option<ClientMsg>, joinFrame: bool, now: nat)
    requires Inv(srv) && s in srv.socks && srv.socks[s].open
    ensures Inv(Received(srv, s, m, joinFrame, now))
  {
    var counted := srv.(socks := srv.socks[s := Counted(srv.socks[s], now)]);
    CountingLooks(srv, s, now);
    if counted.socks[s].winCount <= MSG_RATE_MAX {
      if m.Some? {
        HandleKeeps(counted, s, m.value, now);
      } else if srv.socks[s].me.None? && joinFrame {
        RefuseKeeps(counted, s, Error("protocol_mismatch"));
      } else {
        SendNeutral(counted.socks, s, Error("bad_json"));
      }
    }
  }

  lemma ConnectKeeps(rooms: map<string, Room>, looks: map<SockId, Look>, s: SockId, l: Look)
    requires Sound(rooms, looks) && s !in looks
    ensures Sound(rooms, looks[s := l])
  {
    forall rm | rm in rooms ensures Seated(rooms[rm], looks[s := l], rm) {
      assert Seated(rooms[rm], looks, rm);
    }
  }

  lemma ConnectsKeeps(srv: Server, s: SockId, k: Sock)
    requires Inv(srv) && s !in srv.socks
    ensures Inv(srv.(socks := srv.socks[s := k]))
  {
    ConnectKeeps(srv.rooms, Looks(srv.socks), s, LookOf(k));
    assert Looks(srv.socks[s := k]) == Looks(srv.socks)[s := LookOf(k)];
  }

  lemma NextKeeps(srv: Server, e: Event)
    requires Inv(srv)
    ensures Inv(Next(srv, e))
  {
    match e
    case Connect(s, now) =>
      if s !in srv.socks {
        ConnectsKeeps(srv, s, Sock(true, None, [], now, 0));
      }
    case Hangup(s) =>
      if s in srv.socks && srv.socks[s].open {
        CloseKeeps(srv, s);
      }
    case Text(s, m, joinFrame, now) =>
      if s in srv.socks && srv.socks[s].open {
        ReceiveKeeps(srv, s, m, joinFrame, now);
      }
  }

  /** Handle ownership, room sizes and roster agreement hold in every reachable state. */
  lemma {:induction false} EveryRunKeepsRooms(turn: bool, es: seq<Event>)
    ensures Inv(Run(Started(turn), es))
  {
    if es != [] {
      EveryRunKeepsRooms(turn, es[..|es| - 1]);
      NextKeeps(Run(Started(turn), es[..|es| - 1]), es[|es| - 1]);
    }
  }

  /**
   * Spelled out for one handle of a reachable state: its connection is live, joined as this member,
   * owns no other handle, and the frames sent to it fold to the room's id-to-name map minus itself.
   */
  lemma RosterAgreement(turn: bool, es: seq<Event>, room: string, id: Id)
    requires var srv := Run(Started(turn), es); room in srv.rooms && id in srv.rooms[room]
    ensures var srv := Run(Started(turn), es);
            var s := srv.rooms[room][id].sock;
            && s in srv.socks && srv.socks[s].open && srv.socks[s].me == Some((room, id))
            && View(srv.socks[s].sent) == Names(srv.rooms[room] - {id})
            && 1 <= |srv.rooms[room]| <= HARD_CAP
            && forall rm, i :: rm in srv.rooms && i in srv.rooms[rm] && srv.rooms[rm][i].sock == s ==>
                rm == room && i == id
  {
    var srv := Run(Started(turn), es);
    EveryRunKeepsRooms(turn, es);
    HandleOwned(srv.rooms, Looks(srv.socks), room, id);
    forall rm, i | rm in srv.rooms && i in srv.rooms[rm] && srv.rooms[rm][i].sock == srv.rooms[room][id].sock
      ensures rm == room && i == id
    {
      if rm != room || i != id {
        HandlesDiffer(srv.rooms, Looks(srv.socks), rm, i, room, id);
      }
    }
  }

  /** Every room has a live connection. */
  lemma RoomsAreInhabited(srv: Server, room: string) returns (s: SockId)
    requires Inv(srv) && room in srv.rooms
    ensures s in srv.socks && srv.socks[s].open
  {
    var r := srv.rooms[room];
    assert |r| >= 1;
    var id :| id in r;
    HandleOwned(srv.rooms, Looks(srv.socks), room, id);
    s := r[id].sock;
  }

  /** No room outlives its connections. */
  lemma AllClosedMeansNoRooms(turn: bool, es: seq<Event>)
    requires forall s :: s in Run(Started(turn), es).socks ==> !Run(Started(turn), es).socks[s].open
    ensures Run(Started(turn), es).rooms == map[]
  {
    EveryRunKeepsRooms(turn, es);
    forall room | room in Run(Started(turn), es).rooms ensures false {
      var _ := RoomsAreInhabited(Run(Started(turn), es), room);
    }
  }

  // ---- the rekey cooldown ----

  /** Times do not run backwards, and `room` never empties. */
  ghost predicate Occupied(srv: Server, es: seq<Event>, room: string, from: nat) {
    && (forall i :: 0 <= i <= |es| ==> room in Run(srv, es[..i]).rooms)
    && (forall i :: 0 <= i < |es| && es[i].Text? ==> es[i].now >= from)
  }

  /** The cooldown of `room` stands at `t` or later, unless the room is gone. */
  predicate Cooling(srv: Server, room: string, t: nat) {
    room in srv.rooms ==> room in srv.rekeys && srv.rekeys[room] >= t
  }

  lemma CloseKeepsCooldown(srv: Server, s: SockId, room: string, t: nat)
    requires s in srv.socks && room in srv.rekeys && srv.rekeys[room] >= t
    ensures Cooling(Closed(srv, s), room, t)
  {}

  lemma RefusalKeepsCooldown(srv: Server, s: SockId, m: ServerMsg, room: string, t: nat)
    requires s in srv.socks && room in srv.rekeys && srv.rekeys[room] >= t
    ensures Cooling(Refused(srv, s, m), room, t)
  {
    CloseKeepsCooldown(srv.(socks := Send(srv.socks, s, m)), s, room, t);
  }

  lemma JoinKeepsCooldown(srv: Server, s: SockId, m: ClientMsg, room: string, t: nat)
    requires s in srv.socks && m.Join? && room in srv.rekeys && srv.rekeys[room] >= t
    ensures Cooling(Joined(srv, s, m), room, t)
  {
    if srv.socks[s].me.Some? {
    } else if m.proto != PROTOCOL_VERSION {
      RefusalKeepsCooldown(srv, s, Error("protocol_mismatch"), room, t);
    } else if !JoinWellFormed(m) {
      RefusalKeepsCooldown(srv, s, Error("bad_input"), room, t);
    } else if !m.authOk {
      RefusalKeepsCooldown(srv, s, Error("bad_token"), room, t);
    } else if MayEnter(RoomOf(srv, m.room), m.id, m.secret) {
      EnteredShape(srv, s, m.room, m.id, m.name, m.secret);
    } else {
      RefusalKeepsCooldown(srv, s, if m.id !in RoomOf(srv, m.room) then RoomFull else Error("id_in_use"), room, t);
    }
  }

  lemma HandlingKeepsCooldown(srv: Server, s: SockId, m: ClientMsg, now: nat, room: string, t: nat)
    requires s in srv.socks && room in srv.rekeys && srv.rekeys[room] >= t && now >= t
    ensures Cooling(Handled(srv, s, m, now), room, t)
  {
    if m.Join? {
      JoinKeepsCooldown(srv, s, m, room, t);
    } else if m.Leave? {
      CloseKeepsCooldown(srv, s, room, t);
    }
  }

  lemma ReceiptKeepsCooldown(srv: Server, s: SockId, m: Option<ClientMsg>, joinFrame: bool, now: nat, room: string,
                             t: nat)
    requires s in srv.socks && room in srv.rekeys && srv.rekeys[room] >= t && now >= t
    ensures Cooling(Received(srv, s, m, joinFrame, now), room, t)
  {
    var counted := srv.(socks := srv.socks[s := Counted(srv.socks[s], now)]);
    if m.Some? {
      HandlingKeepsCooldown(counted, s, m.value, now, room, t);
    } else {
      RefusalKeepsCooldown(counted, s, Error("protocol_mismatch"), room, t);
    }
  }

  lemma CooldownKept(srv: Server, e: Event, room: string, t: nat)
    requires room in srv.rekeys && srv.rekeys[room] >= t && room in Next(srv, e).rooms && (e.Text? ==> e.now >= t)
    ensures room in Next(srv, e).rekeys && Next(srv, e).rekeys[room] >= t
  {
    if e.Text? && e.s in srv.socks && srv.socks[e.s].open {
      ReceiptKeepsCooldown(srv, e.s, e.m, e.joinFrame, e.now, room, t);
    }
  }

  /**
   * Once a rekey of a room has gone out at time `t`, none goes out before `t` plus the cooldown as
   * long as the room is not emptied in between, whoever asks and over whatever sockets.
   */
  lemma {:induction false} RekeysAreSpaced(srv: Server, es: seq<Event>, room: string, t: nat)
    requires room in srv.rekeys && srv.rekeys[room] >= t && Occupied(srv, es, room, t)
    ensures room in Run(srv, es).rekeys && Run(srv, es).rekeys[room] >= t
    ensures forall now :: t <= now < t + REKEY_COOLDOWN ==> !RekeyAllowed(Run(srv, es), room, now)
  {
    if es != [] {
      var before := es[..|es| - 1];
      OccupiedBefore(srv, es, room, t);
      RekeysAreSpaced(srv, before, room, t);
      assert es[..|es|] == es;
      CooldownKept(Run(srv, before), es[|es| - 1], room, t);
    }
  }

  lemma OccupiedBefore(srv: Server, es: seq<Event>, room: string, t: nat)
    requires es != [] && Occupied(srv, es, room, t)
    ensures Occupied(srv, es[..|es| - 1], room, t)
  {
    var before := es[..|es| - 1];
    forall i | 0 <= i <= |before| ensures room in Run(srv, before[..i]).rooms {
      assert before[..i] == es[..i];
    }
  }

  // ---- the server object ----

  ghost predicate SocksDiffer(r: Room) {
    forall i, j :: i in r && j in r && i != j ==> r[i].sock != r[j].sock
  }

  lemma RoomSocksDiffer(srv: Server, room: string)
    requires Inv(srv)
    ensures SocksDiffer(RoomOf(srv, room))
  {
    forall i, j | i in RoomOf(srv, room) && j in RoomOf(srv, room) && i != j
      ensures RoomOf(srv, room)[i].sock != RoomOf(srv, room)[j].sock
    {
      HandlesDiffer(srv.rooms, Looks(srv.socks), room, i, room, j);
    }
  }

  lemma NewRoomSocksDiffer(srv: Server, s: SockId, room: string, id: Id, h: Handle)
    requires Inv(srv) && s in srv.socks && srv.socks[s].me.None? && h.sock == s
    ensures SocksDiffer((RoomOf(srv, room) - {id})[id := h])
  {
    RoomSocksDiffer(srv, room);
    NotInRoom(srv, s, room);
    OneMore(RoomOf(srv, room), id, h);
  }

  lemma AllSocksDiffer(srv: Server)
    requires Inv(srv)
    ensures forall room :: room in srv.rooms ==> SocksDiffer(srv.rooms[room])
  {
    forall room | room in srv.rooms ensures SocksDiffer(srv.rooms[room]) {
      RoomSocksDiffer(srv, room);
    }
  }

  lemma NotInRoom(srv: Server, s: SockId, room: string)
    requires Inv(srv) && s in srv.socks && srv.socks[s].me.None?
    ensures forall i :: i in RoomOf(srv, room) ==> RoomOf(srv, room)[i].sock != s
  {
    forall i | i in RoomOf(srv, room) ensures RoomOf(srv, room)[i].sock != s {
      HandleOwned(srv.rooms, Looks(srv.socks), room, i);
    }
  }

  lemma OneMore(r: Room, id: Id, h: Handle)
    requires SocksDiffer(r) && forall i :: i in r ==> r[i].sock != h.sock
    ensures SocksDiffer((r - {id})[id := h])
  {}

  /** The connections of `r` already served when `todo` is left. */
  function Told(r: Room, todo: set<Id>, except: Option<Id>): set<SockId> {
    set id | id in r && id !in todo && except != Some(id) :: r[id].sock
  }

  lemma ToldGrows(r: Room, todo: set<Id>, except: Option<Id>, id: Id)
    requires SocksDiffer(r) && id in r && id in todo
    ensures Told(r, todo - {id}, except) == if except != Some(id) then Told(r, todo, except) + {r[id].sock}
            else Told(r, todo, except)
    ensures r[id].sock !in Told(r, todo, except)
  {}

  lemma SendOneMore(socks: map<SockId, Sock>, told: set<SockId>, s: SockId, m: ServerMsg)
    requires s !in told
    ensures SendAll(socks, told + {s}, m) == Send(SendAll(socks, told, m), s, m)
  {}

  /** The shared state; each method is one critical section. */
  class SignalServer {
    var rooms: map<string, Room>
    var socks: map<SockId, Sock>
    var rekeys: map<string, nat>
    const turn: bool

    constructor (turn: bool)
      ensures Value() == Started(turn)
    {
      this.turn := turn;
      rooms, socks, rekeys := map[], map[], map[];
    }

    function Value(): Server
      reads this
    {
      Server(rooms, socks, rekeys, turn)
    }

    method SendTo(s: SockId, m: ServerMsg)
      modifies this`socks
      ensures socks == Send(old(socks), s, m)
    {
      if s in socks {
        socks := socks[s := socks[s].(sent := socks[s].sent + [m])];
      }
    }

    method Broadcast(r: Room, except: Option<Id>, m: ServerMsg)
      requires SocksDiffer(r)
      modifies this`socks
      ensures socks == SendAll(old(socks), SocksOf(r, except), m)
    {
      var todo := r.Keys;
      ghost var told: set<SockId> := {};
      while todo != {}
        invariant todo <= r.Keys
        invariant told == Told(r, todo, except)
        invariant socks == SendAll(old(socks), told, m)
      {
        var id :| id in todo;
        ToldGrows(r, todo, except, id);
        if except != Some(id) {
          SendOneMore(old(socks), told, r[id].sock, m);
          SendTo(r[id].sock, m);
          told := told + {r[id].sock};
        }
        todo := todo - {id};
      }
    }

    /** Take a member out of its room and tell the rest. */
    method Drop(room: string, id: Id)
      requires room in rooms && SocksDiffer(rooms[room] - {id})
      modifies this
      ensures var r := old(rooms)[room] - {id};
              && rooms == (if r == map[] then old(rooms) - {room} else old(rooms)[room := r])
              && rekeys == (if r == map[] then old(rekeys) - {room} else old(rekeys))
              && socks == SendAll(old(socks), SocksOf(r, None), PeerLeft(id))
    {
      var r := rooms[room] - {id};
      rooms := rooms[room := r];
      Broadcast(r, None, PeerLeft(id));
      if r == map[] {
        rooms := rooms - {room};
        rekeys := rekeys - {room};
        assert old(rooms)[room := r] - {room} == old(rooms) - {room};
      }
    }

    /** Only if the room still holds this socket's handle is anything but the socket touched. */
    method Cleanup(s: SockId)
      requires s in socks && forall room :: room in rooms ==> SocksDiffer(rooms[room])
      modifies this
      ensures Value() == Closed(old(Value()), s)
    {
      var me := socks[s].me;
      socks := socks[s := socks[s].(open := false)];
      if me.Some? {
        var (room, id) := me.value;
        if room in rooms {
          var mine := id in rooms[room] && rooms[room][id].sock == s;
          if mine {
            Drop(room, id);
          }
        }
      }
    }

    method Refuse(s: SockId, m: ServerMsg)
      requires Inv(Value()) && s in socks && Neutral(m)
      modifies this
      ensures Value() == Refused(old(Value()), s, m)
      ensures Inv(Value())
    {
      RefuseKeeps(Value(), s, m);
      AllSocksDiffer(Value());
      SendTo(s, m);
      Cleanup(s);
    }

    method Join(s: SockId, m: ClientMsg)
      requires Inv(Value()) && s in socks && socks[s].open && m.Join?
      modifies this
      ensures Value() == Joined(old(Value()), s, m)
      ensures Inv(Value())
    {
      JoinKeeps(Value(), s, m);
      if socks[s].me.Some? {
        SendTo(s, Error("already_joined"));
      } else if m.proto != PROTOCOL_VERSION {
        Refuse(s, Error("protocol_mismatch"));
      } else if !JoinWellFormed(m) {
        Refuse(s, Error("bad_input"));
      } else if !m.authOk {
        Refuse(s, Error("bad_token"));
      } else {
        Admit(s, m);
      }
    }

    /** The join's critical section: full, taken by somebody else, or entered. */
    method Admit(s: SockId, m: ClientMsg)
      requires Inv(Value()) && s in socks && m.Join? && socks[s].me.None?
      requires m.proto == PROTOCOL_VERSION && JoinWellFormed(m) && m.authOk
      modifies this
      ensures Value() == Joined(old(Value()), s, m)
    {
      var r := if m.room in rooms then rooms[m.room] else map[];
      if |r| >= HARD_CAP && m.id !in r {
        Refuse(s, RoomFull);
      } else if m.id in r && r[m.id].secret != m.secret {
        Refuse(s, Error("id_in_use"));
      } else {
        NewRoomSocksDiffer(Value(), s, m.room, m.id, Handle(m.name, s, m.secret));
        Enter(s, m.room, m.id, m.name, m.secret, r);
      }
    }

    method Enter(s: SockId, room: string, id: Id, name: Name, secret: string, r: Room)
      requires s in socks && r == RoomOf(Value(), room) && SocksDiffer((r - {id})[id := Handle(name, s, secret)])
      modifies this`rooms, this`socks
      ensures Value() == Entered(old(Value()), s, room, id, name, secret)
    {
      var now := (r - {id})[id := Handle(name, s, secret)];
      var roster := Names(r - {id});
      rooms := rooms[room := now];
      Announce(r, s, id, name, secret);
      Welcome(s, roster, now, id);
      socks := WithMe(socks, s, (room, id));
    }

    method Announce(r: Room, s: SockId, id: Id, name: Name, secret: string)
      requires SocksDiffer((r - {id})[id := Handle(name, s, secret)])
      modifies this`socks
      ensures socks == Announced(old(socks), r, s, id, name, secret)
    {
      if id in r {
        SendTo(r[id].sock, Error("superseded"));
      }
      Broadcast((r - {id})[id := Handle(name, s, secret)], Some(id), PeerJoined(id, name));
    }

    /** The roster comes first, whatever else the newcomer is sent. */
    method Welcome(s: SockId, roster: map<Id, Name>, now: Room, id: Id)
      requires SocksDiffer(now)
      modifies this`socks
      ensures socks == Welcomed(old(socks), roster, now, s, id, turn)
    {
      SendTo(s, Roster(roster));
      if |now| >= WARN_CAP {
        Broadcast(now, None, Warn(|now|));
      }
      if turn {
        SendTo(s, Credentials(id));
      }
    }

    method RelayTo(s: SockId, to: Id, kind: RelayKind, payload: string)
      requires s in socks
      modifies this`socks
      ensures Value() == RelayedTo(old(Value()), s, to, kind, payload)
    {
      var me := socks[s].me;
      if me.Some? {
        var (room, from) := me.value;
        if room in rooms && to in rooms[room] {
          SendTo(rooms[room][to].sock, Relayed(kind, from, payload));
        }
      }
    }

    method AskRekey(s: SockId, now: nat)
      requires s in socks && forall room :: room in rooms ==> SocksDiffer(rooms[room])
      modifies this`socks, this`rekeys
      ensures Value() == RekeyAsked(old(Value()), s, now)
    {
      var me := socks[s].me;
      if me.Some? {
        var (room, from) := me.value;
        if room in rekeys && now - rekeys[room] < REKEY_COOLDOWN {
          return;
        }
        rekeys := rekeys[room := now];
        if room in rooms {
          var who := if from in rooms[room] then rooms[room][from].name else "";
          Broadcast(rooms[room], None, Rekeyed(who));
        } else {
          assert SendAll(socks, SocksOf(map[], None), Rekeyed("")) == socks;
        }
      }
    }

    method SendPtt(s: SockId, active: bool)
      requires s in socks && forall room :: room in rooms ==> SocksDiffer(rooms[room])
      modifies this`socks
      ensures Value() == Handled(old(Value()), s, Ptt(active), 0)
    {
      var me := socks[s].me;
      if me.Some? {
        var (room, from) := me.value;
        if room in rooms {
          Broadcast(rooms[room], Some(from), PttFrom(from, active));
        } else {
          assert SendAll(socks, SocksOf(map[], Some(from)), PttFrom(from, active)) == socks;
        }
      }
    }

    method Dispatch(s: SockId, m: ClientMsg, now: nat)
      requires Inv(Value()) && s in socks && socks[s].open
      modifies this
      ensures Value() == Handled(old(Value()), s, m, now)
      ensures Inv(Value())
    {
      HandleKeeps(Value(), s, m, now);
      AllSocksDiffer(Value());
      match m {
        case Join(_, _, _, _, _, _, _) => Join(s, m);
        case Relay(kind, to, payload) =>
          if LenOk(to, MAX_ID) && |payload| <= (if kind.Ice? then MAX_ICE else MAX_SDP) {
            RelayTo(s, to, kind, payload);
          }
        case Ptt(active) => SendPtt(s, active);
        case Rekey => AskRekey(s, now);
        case Leave => Cleanup(s);
      }
    }

    /** One text frame of socket `s`. */
    method Receive(s: SockId, m: Option<ClientMsg>, joinFrame: bool, now: nat)
      requires Inv(Value()) && s in socks && socks[s].open
      modifies this
      ensures Value() == Received(old(Value()), s, m, joinFrame, now)
      ensures Inv(Value())
    {
      ReceiveKeeps(Value(), s, m, joinFrame, now);
      CountingLooks(Value(), s, now);
      var over := Count(s, now);
      if over {
        return;
      }
      if m.None? {
        if socks[s].me.None? && joinFrame {
          Refuse(s, Error("protocol_mismatch"));
        } else {
          SendTo(s, Error("bad_json"));
        }
      } else {
        Dispatch(s, m.value, now);
      }
    }

    method Count(s: SockId, now: nat) returns (over: bool)
      requires s in socks
      modifies this`socks
      ensures socks == old(socks)[s := Counted(old(socks)[s], now)] && over == (socks[s].winCount > MSG_RATE_MAX)
    {
      var k := socks[s];
      if now - k.winStart > MSG_RATE_WINDOW {
        k := k.(winStart := now, winCount := 0);
      }
      k := k.(winCount := k.winCount + 1);
      socks := socks[s := k];
      over := k.winCount > MSG_RATE_MAX;
    }
  }
}
