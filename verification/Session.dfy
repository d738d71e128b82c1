/** The pairwise AEAD session of crypto.rs: counter nonces and a 64-frame anti-replay window. */
module PairSession {
  import opened Wrappers
  import opened Words
  import opened Aead

  datatype Kind = Audio | Chat

  function Tag(k: Kind): int {
    if k.Audio? then 1 else 2
  }

  /** The key of one direction, as derived by the handshake. */
  type Key = Bytes

  datatype State = State(sendKey: Key, recvKey: Key, sendPrefix: Bytes, recvPrefix: Bytes,
                         sendCtr: U64, recvMax: U64, recvWindow: U64)

  function Nonce(prefix: Bytes, ctr: U64): Bytes {
    prefix + ToBE(ctr, 8)
  }

  /** `wrapping_add(1)`. */
  function Wrapped(ctr: U64): U64 {
    if ctr == U64_MAX then 0 else ctr + 1
  }

  function SealingOf(key: Key, prefix: Bytes, ctr: U64, kind: Kind, plaintext: Bytes, ct: Bytes): Sealing<Key> {
    Sealing(key, Nonce(prefix, ctr), [Tag(kind)], plaintext, ct)
  }

  function Wire(ctr: U64, ct: Bytes): Bytes {
    ToBE(ctr, 8) + ct
  }

  /** Not before the window, and not already seen. */
  predicate ReplayOk(s: State, ctr: U64) {
    if ctr > s.recvMax then true
    else if s.recvMax - ctr >= 64 then false
    else !Bit(s.recvWindow, s.recvMax - ctr)
  }

  function Marked(s: State, ctr: U64): State {
    if ctr > s.recvMax then
      var shift := ctr - s.recvMax;
      var shifted := if shift >= 64 then 0 else Shl(s.recvWindow, shift);
      FitsU64(shifted, 0);
      s.(recvWindow := WithBit(shifted, 0), recvMax := ctr)
    else if s.recvMax - ctr < 64 then
      FitsU64(s.recvWindow, s.recvMax - ctr);
      s.(recvWindow := WithBit(s.recvWindow, s.recvMax - ctr))
    else s
  }

  lemma FitsU64(w: U64, d: nat)
    requires d < 64
    ensures WithBit(w, d) <= U64_MAX
  {
    Pow2Of64();
    WithBitFits(w, d, 64);
  }

  function CounterOf(wire: Bytes): (c: U64)
    requires |wire| >= 8
  {
    FromBEBound(wire[..8]);
    Pow256Widths();
    FromBE(wire[..8])
  }

  function Opened(log: seq<Sealing<Key>>, s: State, kind: Kind, wire: Bytes): Option<Bytes> {
    if |wire| < 8 || !ReplayOk(s, CounterOf(wire)) then None
    else Decrypt(log, s.recvKey, Nonce(s.recvPrefix, CounterOf(wire)), [Tag(kind)], wire[8..])
  }

  class Session {
    const sendKey: Key
    const recvKey: Key
    const sendPrefix: Bytes
    const recvPrefix: Bytes
    var sendCtr: U64
    var recvMax: U64
    var recvWindow: U64

    constructor (sendKey: Key, sendPrefix: Bytes, recvKey: Key, recvPrefix: Bytes)
      ensures Value() == State(sendKey, recvKey, sendPrefix, recvPrefix, 0, 0, 0)
    {
      this.sendKey, this.recvKey, this.sendPrefix, this.recvPrefix := sendKey, recvKey, sendPrefix, recvPrefix;
      sendCtr, recvMax, recvWindow := 0, 0, 0;
    }

    function Value(): State
      reads this
    {
      State(sendKey, recvKey, sendPrefix, recvPrefix, sendCtr, recvMax, recvWindow)
    }

    /** `ct` is what the cipher produces; `entry` records the sealing. */
    method Seal(kind: Kind, plaintext: Bytes, ct: Bytes) returns (wire: Bytes, entry: Sealing<Key>)
      modifies this`sendCtr
      ensures Value() == old(Value()).(sendCtr := Wrapped(old(sendCtr)))
      ensures wire == Wire(old(sendCtr), ct)
      ensures entry == SealingOf(sendKey, sendPrefix, old(sendCtr), kind, plaintext, ct)
    {
      var ctr := sendCtr;
      sendCtr := Wrapped(sendCtr);
      entry := SealingOf(sendKey, sendPrefix, ctr, kind, plaintext, ct);
      wire := ToBE(ctr, 8) + ct;
    }

    /** A failed open changes nothing. */
    method Open(log: seq<Sealing<Key>>, kind: Kind, wire: Bytes) returns (plaintext: Option<Bytes>)
      modifies this`recvMax, this`recvWindow
      ensures plaintext == Opened(log, old(Value()), kind, wire)
      ensures Value() == if plaintext.Some? then Marked(old(Value()), CounterOf(wire)) else old(Value())
    {
      if |wire| < 8 {
        return None;
      }
      var ctr := CounterOf(wire);
      if !ReplayOk(Value(), ctr) {
        return None;
      }
      plaintext := Decrypt(log, recvKey, Nonce(recvPrefix, ctr), [Tag(kind)], wire[8..]);
      if plaintext.Some? {
        Mark(ctr);
      }
    }

    method Mark(ctr: U64)
      modifies this`recvMax, this`recvWindow
      ensures Value() == Marked(old(Value()), ctr)
    {
      if ctr > recvMax {
        var shift := ctr - recvMax;
        recvWindow := if shift >= 64 then 0 else Shl(recvWindow, shift);
        FitsU64(recvWindow, 0);
        recvWindow := WithBit(recvWindow, 0);
        recvMax := ctr;
      } else {
        var diff := recvMax - ctr;
        if diff < 64 {
          FitsU64(recvWindow, diff);
          recvWindow := WithBit(recvWindow, diff);
        }
      }
    }
  }

  // ---- the bitmap stands for the set of accepted counters ----

  /** Bit `d` says whether `recvMax - d` was accepted; there are no bits past counter 0. */
  ghost predicate Tracks(s: State, seen: set<U64>) {
    && (forall c :: c in seen ==> c <= s.recvMax)
    && (if seen == {} then s.recvMax == 0 else s.recvMax in seen)
    && (forall d :: 0 <= d < 64 ==> (Bit(s.recvWindow, d) <==> d <= s.recvMax && s.recvMax - d in seen))
  }

  lemma FreshTracks(s: State)
    requires s.recvMax == 0 && s.recvWindow == 0
    ensures Tracks(s, {})
  {
    forall d | 0 <= d < 64 ensures !Bit(0, d) {
      BitOfZero(d);
    }
  }

  /** A counter passes exactly if it is unseen and less than 64 behind the largest seen. */
  lemma ReplayOkIff(s: State, seen: set<U64>, ctr: U64)
    requires Tracks(s, seen)
    ensures ReplayOk(s, ctr) <==> ctr !in seen && s.recvMax - ctr < 64
  {
    if ctr <= s.recvMax && s.recvMax - ctr < 64 {
      var d := s.recvMax - ctr;
      assert Bit(s.recvWindow, d) <==> d <= s.recvMax && s.recvMax - d in seen;
    }
  }

  /** Marking adds the counter to the set, whatever the shift. */
  lemma MarkTracks(s: State, seen: set<U64>, ctr: U64)
    requires Tracks(s, seen) && s.recvMax - ctr < 64
    ensures Tracks(Marked(s, ctr), seen + {ctr})
  {
    var s', seen' := Marked(s, ctr), seen + {ctr};
    forall d | 0 <= d < 64
      ensures Bit(s'.recvWindow, d) <==> d <= s'.recvMax && s'.recvMax - d in seen'
    {
      if ctr > s.recvMax {
        var shift := ctr - s.recvMax;
        if shift >= 64 {
          BitOfWithBit(0, 0, d);
          BitOfZero(d);
        } else {
          BitOfWithBit(Shl(s.recvWindow, shift), 0, d);
          BitOfShl(s.recvWindow, shift, d);
          if d >= shift {
            assert Bit(s.recvWindow, d - shift) <==> d - shift <= s.recvMax && s.recvMax - (d - shift) in seen;
          }
        }
      } else {
        BitOfWithBit(s.recvWindow, s.recvMax - ctr, d);
        assert Bit(s.recvWindow, d) <==> d <= s.recvMax && s.recvMax - d in seen;
      }
    }
  }

  // ---- one direction of a session, under an adversary ----

  datatype Frame = Frame(kind: Kind, plaintext: Bytes, ctr: U64, ct: Bytes)

  datatype Receipt = Receipt(kind: Kind, plaintext: Bytes, ctr: U64)

  /** The sender seals; anyone delivers any bytes as any kind; other keys seal whatever they like. */
  datatype Event =
    | Seals(kind: Kind, plaintext: Bytes, ct: Bytes)
    | Delivers(kind: Kind, wire: Bytes)
    | Elsewhere(entry: Sealing<Key>)

  datatype Channel = Channel(key: Key, prefix: Bytes, sendCtr: U64, rcv: State,
                             sent: seq<Frame>, other: seq<Sealing<Key>>, got: seq<Receipt>)

  function Entry(c: Channel, f: Frame): Sealing<Key> {
    SealingOf(c.key, c.prefix, f.ctr, f.kind, f.plaintext, f.ct)
  }

  function Log(c: Channel): seq<Sealing<Key>> {
    seq(|c.sent|, i requires 0 <= i < |c.sent| => Entry(c, c.sent[i])) + c.other
  }

  function Next(c: Channel, e: Event): Channel {
    match e
    case Seals(kind, plaintext, ct) =>
      c.(sendCtr := Wrapped(c.sendCtr), sent := c.sent + [Frame(kind, plaintext, c.sendCtr, ct)])
    case Delivers(kind, wire) =>
      var r := Opened(Log(c), c.rcv, kind, wire);
      if r.None? then c
      else c.(rcv := Marked(c.rcv, CounterOf(wire)), got := c.got + [Receipt(kind, r.value, CounterOf(wire))])
    case Elsewhere(entry) => if entry.key == c.key then c else c.(other := c.other + [entry])
  }

  function Run(c: Channel, es: seq<Event>): Channel {
    if es == [] then c else Next(Run(c, es[..|es| - 1]), es[|es| - 1])
  }

  ghost predicate Opening(c: Channel) {
    && c.rcv.recvKey == c.key && c.rcv.recvPrefix == c.prefix && |c.prefix| == 4
    && c.sendCtr == 0 && c.rcv.recvMax == 0 && c.rcv.recvWindow == 0
    && c.sent == [] && c.other == [] && c.got == []
  }

  function Counters(got: seq<Receipt>): set<U64> {
    set r | r in got :: r.ctr
  }

  lemma CountersGrow(got: seq<Receipt>, r: Receipt)
    ensures Counters(got + [r]) == Counters(got) + {r.ctr}
  {
    assert forall t :: t in got + [r] <==> t in got || t == r;
  }

  /** Frame `f` of the sender is the one receipt `r` stands for. */
  predicate Delivered(f: Frame, r: Receipt) {
    f.kind == r.kind && f.plaintext == r.plaintext && f.ctr == r.ctr
  }

  /** The counter of the `n`th frame. */
  function CounterAt(n: nat): U64 {
    n % (U64_MAX + 1)
  }

  ghost predicate Inv(c: Channel) {
    && c.rcv.recvKey == c.key && c.rcv.recvPrefix == c.prefix && |c.prefix| == 4
    && (forall i :: 0 <= i < |c.other| ==> c.other[i].key != c.key)
    && c.sendCtr == CounterAt(|c.sent|)
    && (forall i :: 0 <= i < |c.sent| ==> c.sent[i].ctr == CounterAt(i))
    && Tracks(c.rcv, Counters(c.got))
    && (forall i, j :: 0 <= i < j < |c.got| ==> c.got[i].ctr != c.got[j].ctr)
    && (forall i :: 0 <= i < |c.got| ==> exists k :: 0 <= k < |c.sent| && Delivered(c.sent[k], c.got[i]))
  }

  lemma NonceInjective(prefix: Bytes, a: U64, b: U64)
    requires Nonce(prefix, a) == Nonce(prefix, b)
    ensures a == b
  {
    Pow256Widths();
    BERoundTrip(a, 8);
    BERoundTrip(b, 8);
    assert Nonce(prefix, a)[|prefix|..] == ToBE(a, 8);
    assert Nonce(prefix, b)[|prefix|..] == ToBE(b, 8);
  }

  /** What opens was sealed by the sender, as the same kind and under the same counter. */
  lemma OpenedWasSent(c: Channel, kind: Kind, wire: Bytes) returns (k: nat)
    requires Inv(c) && Opened(Log(c), c.rcv, kind, wire).Some?
    ensures k < |c.sent| && Delivered(c.sent[k],
            Receipt(kind, Opened(Log(c), c.rcv, kind, wire).value, CounterOf(wire)))
  {
    var ctr := CounterOf(wire);
    var log := Log(c);
    assert forall i :: |c.sent| <= i < |log| ==> log[i] == c.other[i - |c.sent|] && log[i].key != c.key;
    k :| 0 <= k < |log| && Matches(log[k], c.key, Nonce(c.prefix, ctr), [Tag(kind)], wire[8..])
         && log[k].plaintext == Opened(log, c.rcv, kind, wire).value;
    assert log[k] == Entry(c, c.sent[k]);
    NonceInjective(c.prefix, c.sent[k].ctr, ctr);
    assert [Tag(c.sent[k].kind)][0] == [Tag(kind)][0];
  }

  lemma CounterWraps(n: nat)
    ensures Wrapped(CounterAt(n)) == CounterAt(n + 1)
  {}

  lemma SealKeeps(c: Channel, kind: Kind, plaintext: Bytes, ct: Bytes)
    requires Inv(c)
    ensures Inv(Next(c, Seals(kind, plaintext, ct)))
  {
    var c' := Next(c, Seals(kind, plaintext, ct));
    CounterWraps(|c.sent|);
    forall i | 0 <= i < |c'.got| ensures exists k :: 0 <= k < |c'.sent| && Delivered(c'.sent[k], c'.got[i]) {
      var k :| 0 <= k < |c.sent| && Delivered(c.sent[k], c.got[i]);
      assert c'.sent[k] == c.sent[k];
    }
  }

  lemma DeliveryKeeps(c: Channel, kind: Kind, wire: Bytes)
    requires Inv(c) && Opened(Log(c), c.rcv, kind, wire).Some?
    ensures Inv(Next(c, Delivers(kind, wire)))
  {
    var c' := Next(c, Delivers(kind, wire));
    var k := OpenedWasSent(c, kind, wire);
    DeliveryTracks(c, kind, wire);
    DistinctGrow(c.got, c'.got[|c.got|]);
    SentGrow(c.sent, c.got, c'.got[|c.got|], k);
  }

  /** What is accepted was not accepted before, and the window follows. */
  lemma DeliveryTracks(c: Channel, kind: Kind, wire: Bytes)
    requires Tracks(c.rcv, Counters(c.got)) && Opened(Log(c), c.rcv, kind, wire).Some?
    ensures CounterOf(wire) !in Counters(c.got)
    ensures var c' := Next(c, Delivers(kind, wire)); Tracks(c'.rcv, Counters(c'.got))
  {
    var ctr := CounterOf(wire);
    ReplayOkIff(c.rcv, Counters(c.got), ctr);
    MarkTracks(c.rcv, Counters(c.got), ctr);
    CountersGrow(c.got, Next(c, Delivers(kind, wire)).got[|c.got|]);
  }

  lemma SentGrow(sent: seq<Frame>, got: seq<Receipt>, r: Receipt, k: nat)
    requires forall i :: 0 <= i < |got| ==> exists k :: 0 <= k < |sent| && Delivered(sent[k], got[i])
    requires k < |sent| && Delivered(sent[k], r)
    ensures forall i :: 0 <= i < |got + [r]| ==> exists k :: 0 <= k < |sent| && Delivered(sent[k], (got + [r])[i])
  {}

  lemma DistinctGrow(got: seq<Receipt>, r: Receipt)
    requires r.ctr !in Counters(got) && forall i, j :: 0 <= i < j < |got| ==> got[i].ctr != got[j].ctr
    ensures forall i, j :: 0 <= i < j < |got + [r]| ==> (got + [r])[i].ctr != (got + [r])[j].ctr
  {
    forall i | 0 <= i < |got| ensures got[i].ctr != r.ctr {
      assert got[i] in got;
    }
  }

  lemma StepKeeps(c: Channel, e: Event)
    requires Inv(c)
    ensures Inv(Next(c, e)) && Next(c, e).key == c.key && Next(c, e).prefix == c.prefix
  {
    match e
    case Elsewhere(_) =>
    case Seals(kind, plaintext, ct) => SealKeeps(c, kind, plaintext, ct);
    case Delivers(kind, wire) =>
      if Opened(Log(c), c.rcv, kind, wire).Some? {
        DeliveryKeeps(c, kind, wire);
      }
  }

  lemma {:induction false} RunKeeps(c: Channel, es: seq<Event>)
    requires Opening(c)
    ensures Inv(Run(c, es)) && Run(c, es).key == c.key && Run(c, es).prefix == c.prefix
  {
    if es == [] {
      FreshTracks(c.rcv);
    } else {
      RunKeeps(c, es[..|es| - 1]);
      StepKeeps(Run(c, es[..|es| - 1]), es[|es| - 1]);
    }
  }

  /**
   * At-most-once authenticated delivery: whatever is delivered, in whatever order, what one side
   * has opened maps injectively to frames the other side sealed, of the same kind.
   */
  lemma AtMostOnceDelivery(c: Channel, es: seq<Event>) returns (from: seq<nat>)
    requires Opening(c)
    ensures var c' := Run(c, es);
            && |from| == |c'.got|
            && (forall i :: 0 <= i < |from| ==> from[i] < |c'.sent| && Delivered(c'.sent[from[i]], c'.got[i]))
            && (forall i, j :: 0 <= i < j < |from| ==> from[i] != from[j])
  {
    RunKeeps(c, es);
    ghost var c' := Run(c, es);
    GotIsDistinct(c');
    GotWasSent(c');
    from := Origins(c'.sent, c'.got);
  }

  lemma GotIsDistinct(c: Channel)
    requires Inv(c)
    ensures forall i, j :: 0 <= i < j < |c.got| ==> c.got[i].ctr != c.got[j].ctr
  {}

  lemma GotWasSent(c: Channel)
    requires Inv(c)
    ensures forall i :: 0 <= i < |c.got| ==> exists k :: 0 <= k < |c.sent| && Delivered(c.sent[k], c.got[i])
  {}

  lemma {:induction false} Origins(sent: seq<Frame>, got: seq<Receipt>) returns (from: seq<nat>)
    requires forall i, j :: 0 <= i < j < |got| ==> got[i].ctr != got[j].ctr
    requires forall i :: 0 <= i < |got| ==> exists k :: 0 <= k < |sent| && Delivered(sent[k], got[i])
    ensures |from| == |got|
    ensures forall i :: 0 <= i < |from| ==> from[i] < |sent| && Delivered(sent[from[i]], got[i])
    ensures forall i, j :: 0 <= i < j < |from| ==> from[i] != from[j]
  {
    if got == [] {
      return [];
    }
    var most, last := got[..|got| - 1], got[|got| - 1];
    from := Origins(sent, most);
    var k :| 0 <= k < |sent| && Delivered(sent[k], last);
    forall i | 0 <= i < |from| ensures from[i] != k {
      assert Delivered(sent[from[i]], most[i]) && most[i] == got[i];
    }
    from := from + [k];
  }

  /** In every reachable state the bitmap is the set of accepted counters, and decides by it. */
  lemma WindowRefinesAcceptedSet(c: Channel, es: seq<Event>, ctr: U64)
    requires Opening(c)
    ensures var c' := Run(c, es);
            && Tracks(c'.rcv, Counters(c'.got))
            && (ReplayOk(c'.rcv, ctr) <==> ctr !in Counters(c'.got) && c'.rcv.recvMax - ctr < 64)
  {
    RunKeeps(c, es);
    ReplayOkIff(Run(c, es).rcv, Counters(Run(c, es).got), ctr);
  }

  /** An authentic frame is accepted exactly if it is unseen and less than 64 behind; then it is intact. */
  lemma AuthenticFrameAcceptedIff(c: Channel, es: seq<Event>, k: nat)
    requires Opening(c) && k < |Run(c, es).sent| && Ideal(Log(Run(c, es)))
    ensures var c' := Run(c, es);
            var f := c'.sent[k];
            var r := Opened(Log(c'), c'.rcv, f.kind, Wire(f.ctr, f.ct));
            && (r.Some? <==> f.ctr !in Counters(c'.got) && c'.rcv.recvMax - f.ctr < 64)
            && (r.Some? ==> r.value == f.plaintext)
  {
    WindowRefinesAcceptedSet(c, es, Run(c, es).sent[k].ctr);
    RunKeeps(c, es);
    var c' := Run(c, es);
    var f := c'.sent[k];
    var w := Wire(f.ctr, f.ct);
    Pow256Widths();
    BERoundTrip(f.ctr, 8);
    assert w[..8] == ToBE(f.ctr, 8) && w[8..] == f.ct;
    assert Log(c')[k] == Entry(c', f);
    DecryptSealed(Log(c'), k);
  }

  ghost predicate NoncesDistinct(c: Channel) {
    forall i, j :: 0 <= i < j < |c.sent| ==> Entry(c, c.sent[i]).nonce != Entry(c, c.sent[j]).nonce
  }

  /** A run reuses a nonce exactly if it seals more than 2^64 frames. */
  lemma NoncesDistinctIff(c: Channel, es: seq<Event>)
    requires Opening(c)
    ensures NoncesDistinct(Run(c, es)) <==> |Run(c, es).sent| <= U64_MAX + 1
  {
    RunKeeps(c, es);
    NoncesDistinctWhen(Run(c, es));
  }

  lemma NoncesDistinctWhen(c: Channel)
    requires forall i :: 0 <= i < |c.sent| ==> c.sent[i].ctr == CounterAt(i)
    ensures NoncesDistinct(c) <==> |c.sent| <= U64_MAX + 1
  {
    if |c.sent| <= U64_MAX + 1 {
      forall i, j | 0 <= i < j < |c.sent| ensures Entry(c, c.sent[i]).nonce != Entry(c, c.sent[j]).nonce {
        assert c.sent[i].ctr == i && c.sent[j].ctr == j;
        if Nonce(c.prefix, i) == Nonce(c.prefix, j) {
          NonceInjective(c.prefix, i, j);
        }
      }
    } else {
      var last := U64_MAX + 1;
      assert c.sent[0].ctr == CounterAt(0) == 0 && c.sent[last].ctr == CounterAt(last) == 0;
      assert Entry(c, c.sent[0]).nonce == Entry(c, c.sent[last]).nonce;
    }
  }

  // ---- what one end sealed itself ----

  /** No two sealings produced the same ciphertext. */
  ghost predicate Unrepeated(log: seq<Sealing<Key>>) {
    forall i, j :: 0 <= i < j < |log| ==> log[i].ct != log[j].ct
  }

  /**
   * With different keys for its two directions, an end never opens a frame of its own, sent back to it
   * under whatever kind.
   */
  lemma ReflectedFrameNeverOpens(log: seq<Sealing<Key>>, s: State, i: nat, ctr: U64, sealedAs: Kind, plaintext: Bytes,
                                 ct: Bytes, claimed: Kind)
    requires s.sendKey != s.recvKey && Unrepeated(log) && i < |log|
    requires log[i] == SealingOf(s.sendKey, s.sendPrefix, ctr, sealedAs, plaintext, ct)
    ensures Opened(log, s, claimed, Wire(ctr, ct)).None?
  {
    var wire := Wire(ctr, ct);
    assert wire[8..] == ct;
    forall j, nonce | 0 <= j < |log| ensures !Matches(log[j], s.recvKey, nonce, [Tag(claimed)], ct) {
      if log[j].ct == ct {
        assert j == i;
      }
    }
  }

  /** A session's two ends before the first frame, seen as the channel from `s` to `t`. */
  function ChannelFrom(s: State, t: State): Channel {
    Channel(s.sendKey, s.sendPrefix, s.sendCtr, t, [], [], [])
  }

  /** Mirrored keys and prefixes make a channel of each direction. */
  lemma MirroredEndsAreChannels(s: State, t: State)
    requires s.sendKey == t.recvKey && s.sendPrefix == t.recvPrefix && s.recvKey == t.sendKey
             && s.recvPrefix == t.sendPrefix
    requires |s.sendPrefix| == 4 && |t.sendPrefix| == 4
    requires s.sendCtr == 0 && s.recvMax == 0 && s.recvWindow == 0 && t.sendCtr == 0 && t.recvMax == 0
             && t.recvWindow == 0
    ensures Opening(ChannelFrom(s, t)) && Opening(ChannelFrom(t, s))
  {}
}
