/** The shared channel directory and its tombstones, as the engine loop of lib.rs keeps them. */
module Directory {
  import opened Ids

  const MAX_CHANNELS: nat := 64
  const MAX_TOMBSTONES: nat := 256
  const MAX_CHANNEL_LEN: nat := 32
  const DEFAULT_CHANNEL: string := "Funk 1"

  // ---- names ----

  /** Unicode White_Space. */
  predicate White(c: char) {
    || '\U{9}' <= c <= '\U{D}' || c == '\U{20}' || c == '\U{85}' || c == '\U{A0}' || c == '\U{1680}'
    || '\U{2000}' <= c <= '\U{200A}' || c == '\U{2028}' || c == '\U{2029}' || c == '\U{202F}'
    || c == '\U{205F}' || c == '\U{3000}'
  }

  function Trimmed(s: string): string {
    if s == [] then s
    else if White(s[0]) then Trimmed(s[1..])
    else if White(s[|s| - 1]) then Trimmed(s[..|s| - 1])
    else s
  }

  /** Case folding is a parameter: nothing below depends on how `lower` works. */
  type Lower = string -> string

  function Canon(lower: Lower, s: string): string {
    lower(Trimmed(s))
  }

  function Clamped(s: string): string {
    if |s| > MAX_CHANNEL_LEN then s[..MAX_CHANNEL_LEN] else s
  }

  function ClampedAll(names: seq<string>): seq<string> {
    seq(if |names| > MAX_CHANNELS then MAX_CHANNELS else |names|, i requires 0 <= i < |names| => Clamped(names[i]))
  }

  /** The name a switch settles on. */
  function Chosen(typed: string): string {
    if Trimmed(typed) == [] then DEFAULT_CHANNEL else Clamped(Trimmed(typed))
  }

  // ---- directories ----

  function Canons(lower: Lower, dir: seq<string>): set<string> {
    set n | n in dir :: Canon(lower, n)
  }

  ghost predicate Distinct(lower: Lower, dir: seq<string>) {
    forall i, j :: 0 <= i < j < |dir| ==> Canon(lower, dir[i]) != Canon(lower, dir[j])
  }

  predicate Fresh(lower: Lower, dir: seq<string>, name: string) {
    Canon(lower, name) != [] && Canon(lower, name) !in Canons(lower, dir)
  }

  function Merged(lower: Lower, dir: seq<string>, add: seq<string>): seq<string>
    decreases |add|
  {
    if add == [] || |dir| >= MAX_CHANNELS then dir
    else Merged(lower, if Fresh(lower, dir, add[0]) then dir + [add[0]] else dir, add[1..])
  }

  function Without(lower: Lower, dir: seq<string>, canon: string): seq<string> {
    if dir == [] then []
    else
      var rest := Without(lower, dir[..|dir| - 1], canon);
      if Canon(lower, dir[|dir| - 1]) != canon then rest + [dir[|dir| - 1]] else rest
  }

  function Allowed(lower: Lower, names: seq<string>, removed: set<string>): seq<string> {
    if names == [] then []
    else
      var rest := Allowed(lower, names[..|names| - 1], removed);
      if Canon(lower, names[|names| - 1]) in removed then rest else rest + [names[|names| - 1]]
  }

  // ---- what the helpers mean ----

  lemma CanonsGrow(lower: Lower, dir: seq<string>, name: string)
    ensures Canons(lower, dir + [name]) == Canons(lower, dir) + {Canon(lower, name)}
  {
    assert forall n :: n in dir + [name] <==> n in dir || n == name;
  }

  /**
   * A merge only appends, keeps the directory duplicate-free and within the cap, and takes nothing but usable
   * offered names.
   */
  lemma {:induction false} MergeAppends(lower: Lower, dir: seq<string>, add: seq<string>)
    requires Distinct(lower, dir)
    ensures var out := Merged(lower, dir, add);
            && dir <= out && Distinct(lower, out) && (|dir| <= MAX_CHANNELS ==> |out| <= MAX_CHANNELS)
            && forall i :: |dir| <= i < |out| ==> out[i] in add && Canon(lower, out[i]) != []
    decreases |add|
  {
    if add != [] && |dir| < MAX_CHANNELS {
      if Fresh(lower, dir, add[0]) {
        DistinctGrows(lower, dir, add[0]);
        MergeAppends(lower, dir + [add[0]], add[1..]);
      } else {
        MergeAppends(lower, dir, add[1..]);
      }
    }
  }

  function Usable(lower: Lower, names: seq<string>): set<string> {
    Canons(lower, names) - {[]}
  }

  lemma UsableSplits(lower: Lower, names: seq<string>)
    requires names != []
    ensures Usable(lower, names) == Usable(lower, [names[0]]) + Usable(lower, names[1..])
  {
    assert forall n :: n in names <==> n == names[0] || n in names[1..];
  }

  /** It takes every usable offered name unless it ends full. */
  lemma {:induction false} MergeTakesAll(lower: Lower, dir: seq<string>, add: seq<string>)
    ensures Canons(lower, dir) <= Canons(lower, Merged(lower, dir, add)) <= Canons(lower, dir) + Usable(lower, add)
    ensures |Merged(lower, dir, add)| < MAX_CHANNELS ==>
            Canons(lower, Merged(lower, dir, add)) == Canons(lower, dir) + Usable(lower, add)
    decreases |add|
  {
    if add != [] && |dir| < MAX_CHANNELS {
      UsableSplits(lower, add);
      CanonsGrow(lower, dir, add[0]);
      MergeTakesAll(lower, if Fresh(lower, dir, add[0]) then dir + [add[0]] else dir, add[1..]);
    }
  }

  lemma DistinctGrows(lower: Lower, dir: seq<string>, name: string)
    requires Distinct(lower, dir) && Fresh(lower, dir, name)
    ensures Distinct(lower, dir + [name])
  {
    forall i | 0 <= i < |dir| ensures Canon(lower, dir[i]) != Canon(lower, name) {
      assert dir[i] in dir;
    }
  }

  /** The directory grows exactly when it has room and is offered a usable name it lacks. */
  lemma {:induction false} GrowsIff(lower: Lower, dir: seq<string>, add: seq<string>)
    ensures Merged(lower, dir, add) != dir <==> |dir| < MAX_CHANNELS && exists n :: n in add && Fresh(lower, dir, n)
    ensures |Merged(lower, dir, add)| >= |dir|
            && (|Merged(lower, dir, add)| == |dir| ==> Merged(lower, dir, add) == dir)
    decreases |add|
  {
    if add != [] && |dir| < MAX_CHANNELS {
      var next := if Fresh(lower, dir, add[0]) then dir + [add[0]] else dir;
      GrowsIff(lower, next, add[1..]);
      if next == dir {
        assert forall n :: n in add <==> n == add[0] || n in add[1..];
      } else {
        assert add[0] in add;
      }
    }
  }

  lemma {:induction false} WithoutKeeps(lower: Lower, dir: seq<string>, canon: string)
    ensures var out := Without(lower, dir, canon);
            |out| <= |dir| && forall n :: n in out <==> n in dir && Canon(lower, n) != canon
  {
    if dir != [] {
      var most, last := dir[..|dir| - 1], dir[|dir| - 1];
      WithoutKeeps(lower, most, canon);
      assert dir == most + [last];
    }
  }

  lemma {:induction false} WithoutIsDistinct(lower: Lower, dir: seq<string>, canon: string)
    requires Distinct(lower, dir)
    ensures Distinct(lower, Without(lower, dir, canon))
  {
    if dir != [] {
      var most, last := dir[..|dir| - 1], dir[|dir| - 1];
      WithoutIsDistinct(lower, most, canon);
      WithoutKeeps(lower, most, canon);
      var rest := Without(lower, most, canon);
      forall i | 0 <= i < |rest| ensures Canon(lower, rest[i]) != Canon(lower, last) {
        assert rest[i] in most;
        var j :| 0 <= j < |most| && most[j] == rest[i];
        assert dir[j] == rest[i];
      }
    }
  }

  lemma WithoutMeaning(lower: Lower, dir: seq<string>, canon: string)
    ensures Canons(lower, Without(lower, dir, canon)) == Canons(lower, dir) - {canon}
  {
    WithoutKeeps(lower, dir, canon);
  }

  lemma {:induction false} AllowedMeaning(lower: Lower, names: seq<string>, removed: set<string>)
    ensures forall n :: n in Allowed(lower, names, removed) <==> n in names && Canon(lower, n) !in removed
    ensures removed == {} ==> Allowed(lower, names, removed) == names
  {
    if names != [] {
      AllowedMeaning(lower, names[..|names| - 1], removed);
      assert names == names[..|names| - 1] + [names[|names| - 1]];
    }
  }

  // ---- one client's channel state ----

  datatype Channels = Channels(known: seq<string>, removed: set<string>, mine: string, tuned: map<Id, string>)

  datatype Event =
    | MemberSeen(id: Id, name: string)    // a member entered, with the channel last heard of
    | MemberGone(id: Id)
    | PeerChannel(peer: Id, name: string)
    | PeerChannels(names: seq<string>)
    | PeerChannelRemoved(name: string)
    | SetChannel(typed: string)
    | RemoveChannel(name: string)

  datatype Broadcast = Tuned(name: string) | Shared(names: seq<string>) | Deleted(canon: string)

  predicate InUse(lower: Lower, canon: string, c: Channels) {
    || Canon(lower, c.mine) == canon
    || exists id :: id in c.tuned && Canon(lower, c.tuned[id]) == canon
  }

  /** What a local deletion asks for. */
  predicate Deletable(lower: Lower, canon: string, c: Channels) {
    canon != [] && canon != Canon(lower, DEFAULT_CHANNEL) && !InUse(lower, canon, c)
  }

  /** What a peer's deletion asks for besides. */
  predicate Honoured(lower: Lower, canon: string, c: Channels) {
    && Deletable(lower, canon, c)
    && canon in Canons(lower, c.known) && |c.removed| < MAX_TOMBSTONES
    && canon !in c.removed
  }

  function Deleting(lower: Lower, c: Channels, canon: string): Channels {
    c.(removed := c.removed + {canon}, known := Without(lower, c.known, canon))
  }

  function Offered(lower: Lower, c: Channels, names: seq<string>): seq<string> {
    Allowed(lower, ClampedAll(names), c.removed)
  }

  function Next(lower: Lower, c: Channels, e: Event): Channels {
    match e
    case MemberSeen(id, name) => c.(tuned := c.tuned[id := name])
    case MemberGone(id) => c.(tuned := c.tuned - {id})
    case PeerChannel(peer, name) => if peer in c.tuned then c.(tuned := c.tuned[peer := Clamped(name)]) else c
    case PeerChannels(names) => c.(known := Merged(lower, c.known, Offered(lower, c, names)))
    case PeerChannelRemoved(name) =>
      if Honoured(lower, Canon(lower, Clamped(name)), c) then Deleting(lower, c, Canon(lower, Clamped(name))) else c
    case SetChannel(typed) =>
      c.(mine := Chosen(typed), removed := c.removed - {Canon(lower, Chosen(typed))},
          known := Merged(lower, c.known, [Chosen(typed)]))
    case RemoveChannel(name) =>
      if Deletable(lower, Canon(lower, name), c) then Deleting(lower, c, Canon(lower, name)) else c
  }

  function Sent(lower: Lower, c: Channels, e: Event): seq<Broadcast> {
    var n := Next(lower, c, e);
    var growth := if |n.known| > |c.known| then [Shared(n.known)] else [];
    match e
    case MemberSeen(_, _) => []
    case MemberGone(_) => []
    case PeerChannel(_, _) => []
    case PeerChannels(_) => growth
    case PeerChannelRemoved(name) =>
      if Honoured(lower, Canon(lower, Clamped(name)), c) then [Deleted(Canon(lower, Clamped(name)))] else []
    case SetChannel(typed) => [Tuned(Chosen(typed))] + growth
    case RemoveChannel(name) =>
      if Deletable(lower, Canon(lower, name), c) then [Deleted(Canon(lower, name))] else []
  }

  // ---- the engine's fields ----

  class ChannelBook {
    const lower: Lower
    var known_channels: seq<string>
    var removed_channels: set<string>
    var my_channel: string
    var tuned: map<Id, string> // the channel of each member
    var out: seq<Broadcast>

    constructor (lower: Lower)
      ensures this.lower == lower && State() == Start() && out == []
    {
      this.lower := lower;
      known_channels, removed_channels, my_channel, tuned, out := [DEFAULT_CHANNEL], {}, DEFAULT_CHANNEL, map[], [];
    }

    function State(): Channels
      reads this
    {
      Channels(known_channels, removed_channels, my_channel, tuned)
    }

    method MergeChannels(add: seq<string>) returns (grew: bool)
      modifies this`known_channels
      ensures known_channels == Merged(lower, old(known_channels), add)
      ensures grew <==> |known_channels| > |old(known_channels)|
    {
      grew := false;
      var i := 0;
      while i < |add| && |known_channels| < MAX_CHANNELS
        invariant 0 <= i <= |add|
        invariant Merged(lower, known_channels, add[i..]) == Merged(lower, old(known_channels), add)
        invariant |known_channels| >= |old(known_channels)|
        invariant grew <==> |known_channels| > |old(known_channels)|
      {
        assert add[i..][1..] == add[i + 1..];
        if Fresh(lower, known_channels, add[i]) {
          known_channels := known_channels + [add[i]];
          grew := true;
        }
        i := i + 1;
      }
    }

    method TakePeerChannels(names: seq<string>)
      modifies this`known_channels, this`out
      ensures State() == Next(lower, old(State()), PeerChannels(names))
      ensures out == old(out) + Sent(lower, old(State()), PeerChannels(names))
    {
      var grew := MergeChannels(Allowed(lower, ClampedAll(names), removed_channels));
      if grew {
        out := out + [Shared(known_channels)];
      }
    }

    method TakePeerChannelRemoved(name: string)
      modifies this`known_channels, this`removed_channels, this`out
      ensures State() == Next(lower, old(State()), PeerChannelRemoved(name))
      ensures out == old(out) + Sent(lower, old(State()), PeerChannelRemoved(name))
    {
      var canon := Canon(lower, Clamped(name));
      if Honoured(lower, canon, State()) {
        removed_channels := removed_channels + {canon};
        known_channels := Without(lower, known_channels, canon);
        out := out + [Deleted(canon)];
      }
    }

    method Switch(typed: string)
      modifies this`known_channels, this`removed_channels, this`my_channel, this`out
      ensures State() == Next(lower, old(State()), SetChannel(typed))
      ensures out == old(out) + Sent(lower, old(State()), SetChannel(typed))
    {
      my_channel := Chosen(typed);
      removed_channels := removed_channels - {Canon(lower, my_channel)};
      out := out + [Tuned(my_channel)];
      var grew := MergeChannels([my_channel]);
      if grew {
        out := out + [Shared(known_channels)];
      }
    }

    method Remove(name: string)
      modifies this`known_channels, this`removed_channels, this`out
      ensures State() == Next(lower, old(State()), RemoveChannel(name))
      ensures out == old(out) + Sent(lower, old(State()), RemoveChannel(name))
    {
      var canon := Canon(lower, name);
      if Deletable(lower, canon, State()) {
        removed_channels := removed_channels + {canon};
        known_channels := Without(lower, known_channels, canon);
        out := out + [Deleted(canon)];
      }
    }

    method SeeMember(id: Id, name: string)
      modifies this`tuned
      ensures State() == Next(lower, old(State()), MemberSeen(id, name))
    {
      tuned := tuned[id := name];
    }

    method LoseMember(id: Id)
      modifies this`tuned
      ensures State() == Next(lower, old(State()), MemberGone(id))
    {
      tuned := tuned - {id};
    }

    method TakePeerChannel(peer: Id, name: string)
      modifies this`tuned
      ensures State() == Next(lower, old(State()), PeerChannel(peer, name))
      ensures peer in old(tuned) ==> tuned == old(tuned)[peer := if |name| > 32 then name[..32] else name]
      ensures peer !in old(tuned) ==> tuned == old(tuned)
    {
      if peer in tuned {
        tuned := tuned[peer := Clamped(name)];
      }
    }
  }

  // ---- whole runs ----

  function Start(): Channels {
    Channels([DEFAULT_CHANNEL], {}, DEFAULT_CHANNEL, map[])
  }

  function Run(lower: Lower, c: Channels, es: seq<Event>): Channels {
    if es == [] then c else Next(lower, Run(lower, c, es[..|es| - 1]), es[|es| - 1])
  }

  /**
   * Duplicate-free, bounded, with the base channel, and apart from the tombstones; my channel and the base
   * are never tombstoned.
   */
  ghost predicate Good(lower: Lower, c: Channels) {
    && Distinct(lower, c.known) && |c.known| <= MAX_CHANNELS
    && (forall n :: n in c.known ==> |n| <= MAX_CHANNEL_LEN)
    && Canon(lower, DEFAULT_CHANNEL) in Canons(lower, c.known)
    && Canons(lower, c.known) !! c.removed
    && Canon(lower, c.mine) !in c.removed
  }

  lemma ClampKeeps(names: seq<string>)
    requires |names| <= MAX_CHANNELS && forall n :: n in names ==> |n| <= MAX_CHANNEL_LEN
    ensures ClampedAll(names) == names
  {
    assert forall i :: 0 <= i < |names| ==> names[i] in names;
  }

  lemma MergeKeepsGood(lower: Lower, c: Channels, add: seq<string>)
    requires Good(lower, c)
    requires forall n :: n in add ==> |n| <= MAX_CHANNEL_LEN && Canon(lower, n) !in c.removed
    ensures Good(lower, c.(known := Merged(lower, c.known, add)))
  {
    MergeAppends(lower, c.known, add);
    MergeTakesAll(lower, c.known, add);
    var out := Merged(lower, c.known, add);
    forall n | n in out ensures |n| <= MAX_CHANNEL_LEN && Canon(lower, n) !in c.removed {
      var i :| 0 <= i < |out| && out[i] == n;
      if i < |c.known| {
        assert n == c.known[i];
        assert Canon(lower, n) in Canons(lower, c.known);
      }
    }
  }

  lemma DeletingKeepsGood(lower: Lower, c: Channels, canon: string)
    requires Good(lower, c) && Deletable(lower, canon, c)
    ensures Good(lower, Deleting(lower, c, canon))
  {
    WithoutKeeps(lower, c.known, canon);
    WithoutIsDistinct(lower, c.known, canon);
    WithoutMeaning(lower, c.known, canon);
  }

  lemma NextKeepsGood(lower: Lower, c: Channels, e: Event)
    requires Good(lower, c)
    ensures Good(lower, Next(lower, c, e))
  {
    match e
    case PeerChannels(names) =>
      AllowedMeaning(lower, ClampedAll(names), c.removed);
      MergeKeepsGood(lower, c, Offered(lower, c, names));
    case PeerChannelRemoved(name) =>
      if Honoured(lower, Canon(lower, Clamped(name)), c) {
        DeletingKeepsGood(lower, c, Canon(lower, Clamped(name)));
      }
    case SetChannel(typed) =>
      var name := Chosen(typed);
      MergeKeepsGood(lower, c.(mine := name, removed := c.removed - {Canon(lower, name)}), [name]);
    case RemoveChannel(name) =>
      if Deletable(lower, Canon(lower, name), c) {
        DeletingKeepsGood(lower, c, Canon(lower, name));
      }
    case _ =>
  }

  lemma {:induction false} EveryRunKeepsGood(lower: Lower, es: seq<Event>)
    ensures Good(lower, Run(lower, Start(), es))
  {
    if es == [] {
      assert DEFAULT_CHANNEL in Start().known;
    } else {
      EveryRunKeepsGood(lower, es[..|es| - 1]);
      NextKeepsGood(lower, Run(lower, Start(), es[..|es| - 1]), es[|es| - 1]);
    }
  }

  lemma NextKeepsDeleted(lower: Lower, c: Channels, e: Event, canon: string)
    requires canon in c.removed && (e.SetChannel? ==> Canon(lower, Chosen(e.typed)) != canon)
    ensures canon in Next(lower, c, e).removed
  {
  }

  /** A deleted channel stays deleted, whatever directories peers send, until this client itself switches to it. */
  lemma {:induction false} DeletedStaysDeleted(lower: Lower, c: Channels, es: seq<Event>, canon: string)
    requires Good(lower, c) && canon in c.removed
    requires forall e :: e in es && e.SetChannel? ==> Canon(lower, Chosen(e.typed)) != canon
    ensures var d := Run(lower, c, es); Good(lower, d) && canon in d.removed && canon !in Canons(lower, d.known)
  {
    if es != [] {
      var most, last := es[..|es| - 1], es[|es| - 1];
      assert last in es;
      DeletedStaysDeleted(lower, c, most, canon);
      NextKeepsGood(lower, Run(lower, c, most), last);
      NextKeepsDeleted(lower, Run(lower, c, most), last, canon);
    }
  }

  function CountSwitches(es: seq<Event>): nat {
    if es == [] then 0 else CountSwitches(es[..|es| - 1]) + if es[|es| - 1].SetChannel? then 1 else 0
  }

  function CountLocalRemovals(es: seq<Event>): nat {
    if es == [] then 0 else CountLocalRemovals(es[..|es| - 1]) + if es[|es| - 1].RemoveChannel? then 1 else 0
  }

  /** Deletions by peers that were honoured, and so passed on. */
  function CountHonoured(lower: Lower, c: Channels, es: seq<Event>): nat {
    if es == [] then 0
    else
      var e, d := es[|es| - 1], Run(lower, c, es[..|es| - 1]);
      CountHonoured(lower, c, es[..|es| - 1]) + PassedOn(lower, d, e)
  }

  function AtMostCap(n: nat): nat {
    if n < MAX_TOMBSTONES then n else MAX_TOMBSTONES
  }

  lemma SizeAfter(removed: set<string>, canon: string)
    ensures |removed + {canon}| == |removed| + (if canon in removed then 0 else 1)
    ensures |removed - {canon}| == |removed| - (if canon in removed then 1 else 0)
  {
    if canon in removed {
      assert removed + {canon} == removed;
    } else {
      assert removed - {canon} == removed;
    }
  }

  function PassedOn(lower: Lower, c: Channels, e: Event): nat {
    if e.PeerChannelRemoved? && Sent(lower, c, e) != [] then 1 else 0
  }

  /** How far one event can move the number of tombstones. */
  ghost predicate TombstonesMove(lower: Lower, c: Channels, e: Event) {
    var was, n := |c.removed|, |Next(lower, c, e).removed|;
    && (n > was ==> n == was + 1 && (e.RemoveChannel? || was < MAX_TOMBSTONES))
    && (e.SetChannel? ==> n + 1 >= was) && (!e.SetChannel? ==> n >= was)
    && (PassedOn(lower, c, e) == 1 ==> was < MAX_TOMBSTONES && n == was + 1)
  }

  lemma RemovedMoves(lower: Lower, c: Channels, name: string)
    ensures TombstonesMove(lower, c, PeerChannelRemoved(name))
  {
    SizeAfter(c.removed, Canon(lower, Clamped(name)));
  }

  lemma RemoveMoves(lower: Lower, c: Channels, name: string)
    ensures TombstonesMove(lower, c, RemoveChannel(name))
  {
    SizeAfter(c.removed, Canon(lower, name));
  }

  lemma SwitchMoves(lower: Lower, c: Channels, typed: string)
    ensures TombstonesMove(lower, c, SetChannel(typed))
  {
    SizeAfter(c.removed, Canon(lower, Chosen(typed)));
  }

  lemma TombstoneStep(lower: Lower, c: Channels, e: Event)
    ensures TombstonesMove(lower, c, e)
  {
    match e
    case PeerChannelRemoved(name) => RemovedMoves(lower, c, name);
    case RemoveChannel(name) => RemoveMoves(lower, c, name);
    case SetChannel(typed) => SwitchMoves(lower, c, typed);
    case _ =>
  }

  /**
   * Peers alone never push the tombstones past the cap, and a client passes on at most 256 deletions
   * plus one for every switch of its own, so no flood of deletions circulates for ever.
   */
  lemma {:induction false} TombstonesAreBounded(lower: Lower, es: seq<Event>)
    ensures |Run(lower, Start(), es).removed| <= MAX_TOMBSTONES + CountLocalRemovals(es)
    ensures CountHonoured(lower, Start(), es) <= AtMostCap(|Run(lower, Start(), es).removed|) + CountSwitches(es)
  {
    if es != [] {
      var most, last := es[..|es| - 1], es[|es| - 1];
      TombstonesAreBounded(lower, most);
      TombstoneStep(lower, Run(lower, Start(), most), last);
    }
  }

  // ---- what a deletion may touch, and who hears of it ----

  /** Somebody is tuned to the channel. */
  ghost predicate Occupied(lower: Lower, canon: string, c: Channels) {
    Canon(lower, c.mine) == canon || exists id :: id in c.tuned && Canon(lower, c.tuned[id]) == canon
  }

  /** No event takes a channel off the list that somebody is tuned to, me included. */
  lemma OccupiedChannelsStay(lower: Lower, c: Channels, e: Event, canon: string)
    requires Distinct(lower, c.known) && canon in Canons(lower, c.known) && Occupied(lower, canon, c)
    ensures canon in Canons(lower, Next(lower, c, e).known)
    ensures canon !in c.removed ==> canon !in Next(lower, c, e).removed
  {
    match e
    case PeerChannels(names) => MergeTakesAll(lower, c.known, Offered(lower, c, names));
    case PeerChannelRemoved(name) => WithoutMeaning(lower, c.known, Canon(lower, Clamped(name)));
    case SetChannel(typed) => MergeTakesAll(lower, c.known, [Chosen(typed)]);
    case RemoveChannel(name) => WithoutMeaning(lower, c.known, Canon(lower, name));
    case _ =>
  }

  /** Tuned to by somebody in every state along the way. */
  ghost predicate OccupiedThroughout(lower: Lower, c: Channels, es: seq<Event>, canon: string) {
    && (es == [] || OccupiedThroughout(lower, c, es[..|es| - 1], canon))
    && Occupied(lower, canon, Run(lower, c, es))
  }

  /** So a listed channel stays listed, over any run, for as long as somebody is tuned to it. */
  lemma {:induction false} ListedWhileOccupied(lower: Lower, c: Channels, es: seq<Event>, canon: string)
    requires Good(lower, c) && canon in Canons(lower, c.known) && OccupiedThroughout(lower, c, es, canon)
    ensures canon in Canons(lower, Run(lower, c, es).known) && canon !in Run(lower, c, es).removed
    ensures Good(lower, Run(lower, c, es))
  {
    if es != [] {
      var before := Run(lower, c, es[..|es| - 1]);
      ListedWhileOccupied(lower, c, es[..|es| - 1], canon);
      OccupiedChannelsStay(lower, before, es[|es| - 1], canon);
      NextKeepsGood(lower, before, es[|es| - 1]);
    }
  }

  /**
   * Every change is announced: a channel gone from the list or newly tombstoned as deleted, a longer list
   * as a whole, and a switch with the name switched to; and a peer's word tombstones only what was listed.
   */
  lemma ChangesAreAnnounced(lower: Lower, c: Channels, e: Event, canon: string)
    requires Distinct(lower, c.known)
    ensures var d, sent := Next(lower, c, e), Sent(lower, c, e);
            && (canon in Canons(lower, c.known) - Canons(lower, d.known) ==> Deleted(canon) in sent)
            && (canon in d.removed - c.removed ==> Deleted(canon) in sent)
            && (canon in d.removed - c.removed && e.PeerChannelRemoved? ==> canon in Canons(lower, c.known))
            && (d.known != c.known && !e.PeerChannelRemoved? && !e.RemoveChannel? ==> Shared(d.known) in sent)
            && (e.SetChannel? ==> Tuned(d.mine) in sent)
  {
    match e
    case PeerChannels(names) =>
      MergeTakesAll(lower, c.known, Offered(lower, c, names));
      GrowsIff(lower, c.known, Offered(lower, c, names));
    case PeerChannelRemoved(name) => WithoutMeaning(lower, c.known, Canon(lower, Clamped(name)));
    case SetChannel(typed) =>
      MergeTakesAll(lower, c.known, [Chosen(typed)]);
      GrowsIff(lower, c.known, [Chosen(typed)]);
    case RemoveChannel(name) => WithoutMeaning(lower, c.known, Canon(lower, name));
    case _ =>
  }

  /** And nothing is announced that is not so. */
  lemma AnnouncementsAreTrue(lower: Lower, c: Channels, e: Event, b: Broadcast)
    requires Distinct(lower, c.known) && b in Sent(lower, c, e)
    ensures var d := Next(lower, c, e);
            match b
            case Deleted(canon) => canon in d.removed && canon !in Canons(lower, d.known) && !Occupied(lower, canon, c)
            case Shared(names) => names == d.known && |names| > |c.known|
            case Tuned(name) => name == d.mine && e.SetChannel?
  {
    match e
    case PeerChannelRemoved(name) => WithoutMeaning(lower, c.known, Canon(lower, Clamped(name)));
    case RemoveChannel(name) => WithoutMeaning(lower, c.known, Canon(lower, name));
    case _ =>
  }

  // ---- the name a switch settles on ----

  /** Trimming drops white space at both ends and nothing else. */
  lemma {:induction false} TrimmedMeaning(s: string) returns (i: nat, j: nat)
    ensures i <= j <= |s| && Trimmed(s) == s[i..j]
    ensures forall k :: 0 <= k < |s| && !(i <= k < j) ==> White(s[k])
    ensures i < j ==> !White(s[i]) && !White(s[j - 1])
    decreases |s|
  {
    if s == [] {
      return 0, 0;
    } else if White(s[0]) {
      i, j := TrimmedMeaning(s[1..]);
      i, j := i + 1, j + 1;
    } else if White(s[|s| - 1]) {
      i, j := TrimmedMeaning(s[..|s| - 1]);
    } else {
      return 0, |s|;
    }
  }

  /**
   * The name is what was typed without white space around it, cut to 32 characters, or the base channel if
   * nothing is left.
   */
  lemma ChosenMeaning(typed: string)
    ensures 0 < |Chosen(typed)| <= 32 && !White(Chosen(typed)[0])
    ensures (forall k :: 0 <= k < |typed| ==> White(typed[k])) ==> Chosen(typed) == "Funk 1"
    ensures (exists k :: 0 <= k < |typed| && !White(typed[k])) ==> Chosen(typed) <= Trimmed(typed)
    ensures 0 < |Trimmed(typed)| <= 32 ==> Chosen(typed) == Trimmed(typed)
  {
    var i, j := TrimmedMeaning(typed);
  }

  // ---- local deletions are not under the cap ----

  function Xs(n: nat): string {
    seq(n + 1, _ => 'x')
  }

  function Deletions(n: nat): seq<Event> {
    seq(n, i requires 0 <= i < n => RemoveChannel(Xs(i)))
  }

  function Same(s: string): string {
    s
  }

  lemma TrimmedAlready(s: string)
    requires s != [] && !White(s[0]) && !White(s[|s| - 1])
    ensures Canon(Same, s) == s
  {
  }

  lemma DeletingXs(c: Channels, i: nat)
    requires c.mine == DEFAULT_CHANNEL && c.tuned == map[]
    ensures Next(Same, c, RemoveChannel(Xs(i))) == Deleting(Same, c, Xs(i))
  {
    TrimmedAlready(Xs(i));
    TrimmedAlready(DEFAULT_CHANNEL);
    assert DEFAULT_CHANNEL[0] == 'F' && Xs(i)[0] == 'x';
  }

  /** Deleting names nobody uses adds one tombstone each, without limit. */
  lemma {:induction false} LocalDeletionsPassTheCap(n: nat)
    ensures var c := Run(Same, Start(), Deletions(n));
            && c.mine == DEFAULT_CHANNEL && c.tuned == map[]
            && |c.removed| == n && forall s :: s in c.removed ==> 0 < |s| <= n && s == Xs(|s| - 1)
  {
    if n > 0 {
      LocalDeletionsPassTheCap(n - 1);
      assert Deletions(n)[..n - 1] == Deletions(n - 1);
      var c := Run(Same, Start(), Deletions(n - 1));
      DeletingXs(c, n - 1);
      SizeAfter(c.removed, Xs(n - 1));
      assert Xs(n - 1) !in c.removed;
    }
  }

  // ---- the bound is attained ----

  /** A name of one character. */
  function One(i: nat): string
    requires i < MAX_TOMBSTONES
  {
    [(0x4E00 + i) as char]
  }

  /** `n` channels come from peers, and each is deleted by a peer at once. */
  function Fillers(n: nat): seq<Event>
    requires n <= MAX_TOMBSTONES
  {
    if n == 0 then [] else Fillers(n - 1) + [PeerChannels([One(n - 1)])] + [PeerChannelRemoved(One(n - 1))]
  }

  lemma RunAppend(lower: Lower, c: Channels, es: seq<Event>, e: Event)
    ensures Run(lower, c, es + [e]) == Next(lower, Run(lower, c, es), e)
  {
    assert (es + [e])[..|es|] == es;
  }

  lemma OneIsPlain(i: nat)
    requires i < MAX_TOMBSTONES
    ensures Canon(Same, One(i)) == One(i) == Clamped(One(i)) && One(i) != [] && One(i) != DEFAULT_CHANNEL
    ensures Canon(Same, DEFAULT_CHANNEL) == DEFAULT_CHANNEL
  {
    assert !White(One(i)[0]);
    TrimmedAlready(One(i));
    TrimmedAlready(DEFAULT_CHANNEL);
  }

  /** Nobody is tuned anywhere special, and the list is as at the start. */
  predicate Plain(c: Channels) {
    c.known == [DEFAULT_CHANNEL] && c.mine == DEFAULT_CHANNEL && c.tuned == map[]
  }

  lemma Heard(c: Channels, i: nat)
    requires Plain(c) && i < MAX_TOMBSTONES && One(i) !in c.removed
    ensures Next(Same, c, PeerChannels([One(i)])) == c.(known := [DEFAULT_CHANNEL, One(i)])
  {
    var name := One(i);
    OneIsPlain(i);
    assert ClampedAll([name]) == [name];
    assert Allowed(Same, [name], c.removed) == [name] by {
      assert [name][..0] == [];
      assert Allowed(Same, [], c.removed) == [];
    }
    assert Canons(Same, c.known) == {DEFAULT_CHANNEL};
    assert Fresh(Same, c.known, name);
    assert [name][1..] == [];
    assert Merged(Same, c.known + [name], []) == c.known + [name];
  }

  lemma Forgotten(c: Channels, i: nat)
    requires i < MAX_TOMBSTONES && One(i) !in c.removed && |c.removed| < MAX_TOMBSTONES
    requires c.known == [DEFAULT_CHANNEL, One(i)] && c.mine == DEFAULT_CHANNEL && c.tuned == map[]
    ensures Next(Same, c, PeerChannelRemoved(One(i))) == c.(known := [DEFAULT_CHANNEL], removed := c.removed + {One(i)})
  {
    var name := One(i);
    OneIsPlain(i);
    assert c.known[1] == name;
    assert name in c.known;
    assert Canon(Same, name) in Canons(Same, c.known);
    assert Honoured(Same, name, c);
    assert c.known[..1] == [DEFAULT_CHANNEL] && [DEFAULT_CHANNEL][..0] == [];
    assert Without(Same, [], name) == [];
    assert Without(Same, [DEFAULT_CHANNEL], name) == [DEFAULT_CHANNEL];
    assert Without(Same, c.known, name) == [DEFAULT_CHANNEL];
  }

  lemma FillerStep(es: seq<Event>, i: nat)
    requires i < MAX_TOMBSTONES
    requires var c := Run(Same, Start(), es); Plain(c) && One(i) !in c.removed && |c.removed| < MAX_TOMBSTONES
    ensures var more := es + [PeerChannels([One(i)])] + [PeerChannelRemoved(One(i))];
            var c := Run(Same, Start(), es);
            && Run(Same, Start(), more) == c.(removed := c.removed + {One(i)})
            && CountLocalRemovals(more) == CountLocalRemovals(es)
  {
    var c, name := Run(Same, Start(), es), One(i);
    Heard(c, i);
    Forgotten(c.(known := [DEFAULT_CHANNEL, name]), i);
    RunAppend(Same, Start(), es, PeerChannels([name]));
    RunAppend(Same, Start(), es + [PeerChannels([name])], PeerChannelRemoved(name));
    CountAppend(es, PeerChannels([name]));
    CountAppend(es + [PeerChannels([name])], PeerChannelRemoved(name));
  }

  lemma {:induction false} PeersFillTheCap(n: nat)
    requires n <= MAX_TOMBSTONES
    ensures CountLocalRemovals(Fillers(n)) == 0
    ensures var c := Run(Same, Start(), Fillers(n));
            Plain(c) && |c.removed| == n && forall s :: s in c.removed ==> |s| == 1 && s[0] as int < 0x4E00 + n
  {
    if n > 0 {
      PeersFillTheCap(n - 1);
      var c := Run(Same, Start(), Fillers(n - 1));
      assert One(n - 1)[0] as int == 0x4E00 + n - 1;
      FillerStep(Fillers(n - 1), n - 1);
      SizeAfter(c.removed, One(n - 1));
    }
  }

  lemma CountAppend(es: seq<Event>, e: Event)
    ensures CountLocalRemovals(es + [e]) == CountLocalRemovals(es) + if e.RemoveChannel? then 1 else 0
  {
    assert (es + [e])[..|es|] == es;
  }

  /** Peers fill the cap, then `k` names of other lengths are deleted here. */
  function Overfilling(k: nat): seq<Event> {
    if k == 0 then Fillers(MAX_TOMBSTONES) else Overfilling(k - 1) + [RemoveChannel(Xs(k))]
  }

  /** The bound of `TombstonesAreBounded` is attained for every number of local deletions. */
  lemma {:induction false} TombstoneBoundIsAttained(k: nat)
    ensures CountLocalRemovals(Overfilling(k)) == k
    ensures var c := Run(Same, Start(), Overfilling(k));
            && |c.removed| == MAX_TOMBSTONES + k && c.mine == DEFAULT_CHANNEL && c.tuned == map[]
            && forall s :: s in c.removed ==> |s| <= k + 1
  {
    if k == 0 {
      PeersFillTheCap(MAX_TOMBSTONES);
    } else {
      TombstoneBoundIsAttained(k - 1);
      var c := Run(Same, Start(), Overfilling(k - 1));
      RunAppend(Same, Start(), Overfilling(k - 1), RemoveChannel(Xs(k)));
      CountAppend(Overfilling(k - 1), RemoveChannel(Xs(k)));
      DeletingXs(c, k);
      assert |Xs(k)| == k + 1;
      SizeAfter(c.removed, Xs(k));
    }
  }

  /** The cap holds on every run with at most `k` local deletions if and only if `k` is 0. */
  lemma CapHoldsIff(k: nat)
    ensures (forall lower: Lower, es: seq<Event> ::
               CountLocalRemovals(es) <= k ==> |Run(lower, Start(), es).removed| <= MAX_TOMBSTONES)
            <==> k == 0
  {
    if k == 0 {
      forall lower: Lower, es: seq<Event> | CountLocalRemovals(es) <= 0
        ensures |Run(lower, Start(), es).removed| <= MAX_TOMBSTONES
      {
        TombstonesAreBounded(lower, es);
      }
    } else {
      TombstoneBoundIsAttained(k);
    }
  }
}
