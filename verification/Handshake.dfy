/** The pairwise handshake of crypto.rs: its transcript, the derived session keys and each node's store of sessions. */
module Handshake {
  import opened Wrappers
  import opened Ids
  import opened Words
  import PairSession
  import Aead

  const KEM_PK_LEN: nat := 1184 // ML-KEM-768, section 8 of FIPS 203
  const KEM_CT_LEN: nat := 1088
  const X_LEN: nat := 32
  const PREFIX_LEN: nat := 4

  datatype Hello = Hello(kemPk: Bytes, xPk: Bytes)
  datatype Reply = Reply(xPk: Bytes, kemCt: Bytes)

  /** Secret keys are named by numbers; `Encap` takes the responder's randomness. */
  datatype Primitives = Primitives(
    XPub: nat -> Bytes, DH: (nat, Bytes) -> Bytes,
    KemPub: nat -> Bytes, EncapCt: (Bytes, nat) -> Bytes, EncapSecret: (Bytes, nat) -> Bytes,
    Decap: (nat, Bytes) -> Bytes,
    Hash: seq<int> -> Bytes, KdfKey: (Bytes, Bytes, string) -> Bytes, KdfPrefix: (Bytes, Bytes, string) -> Bytes)

  /**
   * The primitives agree at both ends and have their lengths; the hash has no collisions, and the key
   * derivation gives different keys for different salts, keying material or labels.
   */
  ghost predicate Ideal(p: Primitives) {
    && (forall x :: |p.XPub(x)| == X_LEN)
    && (forall x, y :: p.DH(x, p.XPub(y)) == p.DH(y, p.XPub(x)))
    && (forall k :: |p.KemPub(k)| == KEM_PK_LEN)
    && (forall pk, r :: |p.EncapCt(pk, r)| == KEM_CT_LEN)
    && (forall k, r :: p.Decap(k, p.EncapCt(p.KemPub(k), r)) == p.EncapSecret(p.KemPub(k), r))
    && (forall m, n :: p.Hash(m) == p.Hash(n) ==> m == n)
    && (forall x, y :: |p.DH(x, y)| == X_LEN)
    && (forall s, m, l, s', m', l' :: p.KdfKey(s, m, l) == p.KdfKey(s', m', l') ==> s == s' && m == m' && l == l')
    && (forall s, m, l :: |p.KdfPrefix(s, m, l)| == PREFIX_LEN)
  }

  // ---- the transcript ----

  const KDF_LABEL: string := "rdoc-squadlink-pqc-v1"

  function Units(s: string): (b: seq<int>)
    ensures |b| == |s|
  {
    seq(|s|, i requires 0 <= i < |s| => s[i] as int)
  }

  /** `len() as u32`, big-endian. */
  function Length(s: string): Bytes {
    ToBE(|s| % (U32_MAX + 1), 4)
  }

  /** A string behind its length. */
  function Framed(s: string, rest: seq<int>): seq<int> {
    Length(s) + (Units(s) + rest)
  }

  function Material(h: Hello, r: Reply): seq<int> {
    h.kemPk + (h.xPk + (r.xPk + r.kemCt))
  }

  /** What is hashed, piece after piece. */
  function Transcript(a: Id, b: Id, h: Hello, r: Reply): seq<int> {
    Units(KDF_LABEL) + Framed(a, Framed(b, Material(h, r)))
  }

  lemma UnitsInjective(a: string, b: string)
    requires Units(a) == Units(b)
    ensures a == b
  {
    assert |a| == |b|;
    forall i | 0 <= i < |a| ensures a[i] == b[i] {
      assert Units(a)[i] == Units(b)[i];
    }
  }

  lemma SplitAt(p: seq<int>, x: seq<int>, q: seq<int>, y: seq<int>)
    requires p + x == q + y && |p| == |q|
    ensures p == q && x == y
  {
    assert p == (p + x)[..|p|] && x == (p + x)[|p|..];
    assert q == (q + y)[..|q|] && y == (q + y)[|q|..];
  }

  lemma LengthInjective(a: string, b: string)
    requires |a| <= U32_MAX && |b| <= U32_MAX && Length(a) == Length(b)
    ensures |a| == |b|
  {
    Pow256Widths();
    SmallMod(|a|, U32_MAX + 1);
    SmallMod(|b|, U32_MAX + 1);
    BEInjective(|a|, |b|, 4);
  }

  lemma SmallMod(n: nat, m: nat)
    requires n < m
    ensures n % m == n
  {
  }

  lemma BEInjective(x: nat, y: nat, len: nat)
    requires x < Pow256(len) && y < Pow256(len) && ToBE(x, len) == ToBE(y, len)
    ensures x == y
  {
    BERoundTrip(x, len);
    BERoundTrip(y, len);
  }

  lemma FramedInjective(a: string, x: seq<int>, b: string, y: seq<int>)
    requires |a| <= U32_MAX && |b| <= U32_MAX
    requires Framed(a, x) == Framed(b, y)
    ensures a == b && x == y
  {
    SplitAt(Length(a), Units(a) + x, Length(b), Units(b) + y);
    LengthInjective(a, b);
    SplitAt(Units(a), x, Units(b), y);
    UnitsInjective(a, b);
  }

  lemma MaterialInjective(h: Hello, r: Reply, h': Hello, r': Reply)
    requires |h.kemPk| == |h'.kemPk| && |h.xPk| == |h'.xPk| && |r.xPk| == |r'.xPk|
    requires Material(h, r) == Material(h', r')
    ensures h == h' && r == r'
  {
    SplitAt(h.kemPk, h.xPk + (r.xPk + r.kemCt), h'.kemPk, h'.xPk + (r'.xPk + r'.kemCt));
    SplitAt(h.xPk, r.xPk + r.kemCt, h'.xPk, r'.xPk + r'.kemCt);
    SplitAt(r.xPk, r.kemCt, r'.xPk, r'.kemCt);
  }

  /** With the encapsulation keys of one length, the transcript names both ids and both messages. */
  lemma TranscriptInjective(a: Id, b: Id, h: Hello, r: Reply, a': Id, b': Id, h': Hello, r': Reply)
    requires |a| <= U32_MAX && |b| <= U32_MAX && |a'| <= U32_MAX && |b'| <= U32_MAX
    requires |h.kemPk| == |h'.kemPk| && |h.xPk| == |h'.xPk| && |r.xPk| == |r'.xPk|
    requires Transcript(a, b, h, r) == Transcript(a', b', h', r')
    ensures a == a' && b == b' && h == h' && r == r'
  {
    var tail, tail' := Framed(b, Material(h, r)), Framed(b', Material(h', r'));
    SplitAt(Units(KDF_LABEL), Framed(a, tail), Units(KDF_LABEL), Framed(a', tail'));
    FramedInjective(a, tail, a', tail');
    FramedInjective(b, Material(h, r), b', Material(h', r'));
    MaterialInjective(h, r, h', r');
  }

  /** The key's own length is not in the transcript: every exchange shares it with one whose key is a byte longer. */
  lemma TranscriptsCollideAcrossLengths(a: Id, b: Id, h: Hello, r: Reply)
    requires |h.xPk| == X_LEN && |r.xPk| == X_LEN && |r.kemCt| > 0
    ensures exists h': Hello, r': Reply ::
              && |h'.kemPk| == |h.kemPk| + 1 && |h'.xPk| == X_LEN && |r'.xPk| == X_LEN
              && Transcript(a, b, h', r') == Transcript(a, b, h, r)
  {
    var h' := Hello(h.kemPk + h.xPk[..1], h.xPk[1..] + r.xPk[..1]);
    var r' := Reply(r.xPk[1..] + r.kemCt[..1], r.kemCt[1..]);
    assert Material(h', r') == Material(h, r);
  }

  // ---- derived sessions ----

  datatype Keys = Keys(sendKey: Bytes, sendPrefix: Bytes, recvKey: Bytes, recvPrefix: Bytes, fp: Bytes)

  function Derive(p: Primitives, initiator: bool, ssX: Bytes, ssKem: Bytes, a: Id, b: Id, h: Hello, r: Reply): Keys {
    var salt := p.Hash(Transcript(a, b, h, r));
    var ikm := ssX + ssKem;
    if initiator then
      Keys(p.KdfKey(salt, ikm, "A->B"), p.KdfPrefix(salt, ikm, "A->B"), p.KdfKey(salt, ikm, "B->A"),
          p.KdfPrefix(salt, ikm, "B->A"), salt)
    else
      Keys(p.KdfKey(salt, ikm, "B->A"), p.KdfPrefix(salt, ikm, "B->A"), p.KdfKey(salt, ikm, "A->B"),
          p.KdfPrefix(salt, ikm, "A->B"), salt)
  }

  /** Each end sends with what the other receives with. */
  predicate Mirrored(s: Keys, t: Keys) {
    s.sendKey == t.recvKey && s.sendPrefix == t.recvPrefix && s.recvKey == t.sendKey && s.recvPrefix == t.sendPrefix
  }

  // ---- one node's store ----

  datatype Initiator = Initiator(dk: nat, x: nat)

  datatype Store = Store(sessions: map<Id, Keys>, pending: map<Id, Initiator>)

  datatype Event =
    | Begin(peer: Id, dk: nat, x: nat)              // with fresh secrets
    | OnHello(peer: Id, hello: Hello, r: nat, x: nat)
    | OnReply(peer: Id, reply: Reply)
    | Remove(peer: Id)

  function HelloOf(p: Primitives, i: Initiator): Hello {
    Hello(p.KemPub(i.dk), p.XPub(i.x))
  }

  function ReplyTo(p: Primitives, h: Hello, r: nat, x: nat): Reply {
    Reply(p.XPub(x), p.EncapCt(h.kemPk, r))
  }

  function Finished(p: Primitives, me: Id, peer: Id, i: Initiator, reply: Reply): Keys {
    Derive(p, true, p.DH(i.x, reply.xPk), p.Decap(i.dk, reply.kemCt), me, peer, HelloOf(p, i), reply)
  }

  function Responded(p: Primitives, me: Id, peer: Id, h: Hello, r: nat, x: nat): Keys {
    Derive(p, false, p.DH(x, h.xPk), p.EncapSecret(h.kemPk, r), peer, me, h, ReplyTo(p, h, r, x))
  }

  function Next(p: Primitives, me: Id, s: Store, e: Event): Store {
    match e
    case Begin(peer, dk, x) =>
      if Less(me, peer) then Store(s.sessions - {peer}, s.pending[peer := Initiator(dk, x)]) else s
    case OnHello(peer, h, r, x) =>
      if !Less(me, peer) && |h.kemPk| == KEM_PK_LEN
      then s.(sessions := s.sessions[peer := Responded(p, me, peer, h, r, x)])
      else s
    case OnReply(peer, reply) =>
      if peer !in s.pending then s
      else if |reply.kemCt| != KEM_CT_LEN then s.(pending := s.pending - {peer})
      else Store(s.sessions[peer := Finished(p, me, peer, s.pending[peer], reply)], s.pending - {peer})
    case Remove(peer) => Store(s.sessions - {peer}, s.pending - {peer})
  }

  class PeerCrypto {
    const p: Primitives
    const me: Id
    var sessions: map<Id, Keys>
    var pending: map<Id, Initiator>

    constructor (p: Primitives, me: Id)
      ensures this.p == p && this.me == me && State() == Store(map[], map[])
    {
      this.p, this.me, sessions, pending := p, me, map[], map[];
    }

    function State(): Store
      reads this
    {
      Store(sessions, pending)
    }

    method Start(peer: Id, dk: nat, x: nat) returns (hello: Option<Hello>)
      modifies this
      ensures State() == Next(p, me, old(State()), Begin(peer, dk, x))
      ensures Less(me, peer) ==> peer !in sessions && peer in pending && pending[peer] == Initiator(dk, x)
      ensures hello == if Less(me, peer) then Some(HelloOf(p, Initiator(dk, x))) else None
    {
      if !Less(me, peer) {
        return None;
      }
      pending := pending[peer := Initiator(dk, x)];
      sessions := sessions - {peer};
      return Some(HelloOf(p, Initiator(dk, x)));
    }

    method TakeHello(peer: Id, h: Hello, r: nat, x: nat) returns (reply: Option<Reply>)
      modifies this
      ensures State() == Next(p, me, old(State()), OnHello(peer, h, r, x))
      ensures reply == if !Less(me, peer) && |h.kemPk| == KEM_PK_LEN then Some(ReplyTo(p, h, r, x)) else None
    {
      if Less(me, peer) || |h.kemPk| != KEM_PK_LEN {
        return None;
      }
      sessions := sessions[peer := Responded(p, me, peer, h, r, x)];
      return Some(ReplyTo(p, h, r, x));
    }

    method TakeReply(peer: Id, reply: Reply) returns (secure: bool)
      modifies this
      ensures State() == Next(p, me, old(State()), OnReply(peer, reply))
      ensures peer !in pending && (!secure ==> sessions == old(sessions))
      ensures secure <==> peer in old(pending) && |reply.kemCt| == KEM_CT_LEN
    {
      if peer !in pending {
        return false;
      }
      var i := pending[peer];
      pending := pending - {peer};
      if |reply.kemCt| != KEM_CT_LEN {
        return false;
      }
      sessions := sessions[peer := Finished(p, me, peer, i, reply)];
      return true;
    }

    method Drop(peer: Id)
      modifies this
      ensures State() == Next(p, me, old(State()), Remove(peer))
      ensures peer !in sessions && peer !in pending
    {
      sessions := sessions - {peer};
      pending := pending - {peer};
    }
  }

  // ---- whatever the network delivers ----

  /** X25519 keys arrive as 32-byte arrays. */
  predicate WellFormed(e: Event) {
    match e
    case OnHello(_, h, _, _) => |h.xPk| == X_LEN
    case OnReply(_, reply) => |reply.xPk| == X_LEN
    case _ => true
  }

  function Run(p: Primitives, me: Id, es: seq<Event>): Store {
    if es == [] then Store(map[], map[]) else Next(p, me, Run(p, me, es[..|es| - 1]), es[|es| - 1])
  }

  ghost predicate ByFinishing(p: Primitives, me: Id, peer: Id, k: Keys) {
    exists i: Initiator, reply: Reply ::
        |reply.kemCt| == KEM_CT_LEN && |reply.xPk| == X_LEN && k == Finished(p, me, peer, i, reply)
  }

  ghost predicate ByResponding(p: Primitives, me: Id, peer: Id, k: Keys) {
    exists h: Hello, r: nat, x: nat ::
        |h.kemPk| == KEM_PK_LEN && |h.xPk| == X_LEN && k == Responded(p, me, peer, h, r, x)
  }

  ghost predicate Inv(p: Primitives, me: Id, s: Store) {
    && (forall peer :: peer in s.pending ==> Less(me, peer))
    && forall peer :: peer in s.sessions ==>
         if Less(me, peer) then ByFinishing(p, me, peer, s.sessions[peer])
             else ByResponding(p, me, peer, s.sessions[peer])
  }

  lemma {:induction false} RunKeeps(p: Primitives, me: Id, es: seq<Event>)
    requires forall e :: e in es ==> WellFormed(e)
    ensures Inv(p, me, Run(p, me, es))
  {
    if es != [] {
      RunKeeps(p, me, es[..|es| - 1]);
      assert es[|es| - 1] in es;
    }
  }

  /**
   * However the network drops, forges or reorders messages: once both ends of a pair show the same
   * fingerprint, each sends with exactly the key and prefix the other receives with.
   */
  lemma SameFingerprintMeansMirrored(p: Primitives, a: Id, b: Id, atA: seq<Event>, atB: seq<Event>)
    requires Ideal(p) && Less(a, b) && |a| <= U32_MAX && |b| <= U32_MAX
    requires (forall e :: e in atA ==> WellFormed(e)) && forall e :: e in atB ==> WellFormed(e)
    requires b in Run(p, a, atA).sessions && a in Run(p, b, atB).sessions
    requires Run(p, a, atA).sessions[b].fp == Run(p, b, atB).sessions[a].fp
    ensures Mirrored(Run(p, a, atA).sessions[b], Run(p, b, atB).sessions[a])
  {
    RunKeeps(p, a, atA);
    RunKeeps(p, b, atB);
    LessAsymmetric(a, b);
    FinishedMeetsResponded(p, a, b, Run(p, a, atA).sessions[b], Run(p, b, atB).sessions[a]);
  }

  lemma FinishedMeetsResponded(p: Primitives, a: Id, b: Id, s: Keys, t: Keys)
    requires Ideal(p) && |a| <= U32_MAX && |b| <= U32_MAX
    requires ByFinishing(p, a, b, s) && ByResponding(p, b, a, t) && s.fp == t.fp
    ensures Mirrored(s, t)
  {
    var i: Initiator, reply: Reply :| |reply.kemCt| == KEM_CT_LEN && |reply.xPk| == X_LEN
        && s == Finished(p, a, b, i, reply);
    var h: Hello, r: nat, x: nat :| |h.kemPk| == KEM_PK_LEN && |h.xPk| == X_LEN && t == Responded(p, b, a, h, r, x);
    TranscriptInjective(a, b, HelloOf(p, i), reply, a, b, h, ReplyTo(p, h, r, x));
  }

  /** The fingerprint belongs to one pair: sessions of different pairs never show the same. */
  lemma FingerprintsNameThePair(p: Primitives, me: Id, peer: Id, me': Id, peer': Id, i: Initiator, reply: Reply,
                                h: Hello, r: nat, x: nat)
    requires Ideal(p) && |me| <= U32_MAX && |peer| <= U32_MAX && |me'| <= U32_MAX && |peer'| <= U32_MAX
    requires |reply.xPk| == X_LEN && |h.kemPk| == KEM_PK_LEN && |h.xPk| == X_LEN
    requires Finished(p, me, peer, i, reply).fp == Responded(p, me', peer', h, r, x).fp
    ensures me == peer' && peer == me' && h == HelloOf(p, i) && reply == ReplyTo(p, h, r, x)
  {
    TranscriptInjective(me, peer, HelloOf(p, i), reply, peer', me', h, ReplyTo(p, h, r, x));
  }

  /**
   * Undisturbed, one exchange leaves both ends secure, mirrored and showing one fingerprint, whatever either
   * held before.
   */
  lemma HonestExchangeSecures(p: Primitives, a: Id, b: Id, sa: Store, sb: Store, dk: nat, xa: nat, r: nat, xb: nat)
    requires Ideal(p) && Less(a, b)
    ensures var hello := HelloOf(p, Initiator(dk, xa));
            var reply := ReplyTo(p, hello, r, xb);
            var doneA := Next(p, a, Next(p, a, sa, Begin(b, dk, xa)), OnReply(b, reply));
            var doneB := Next(p, b, sb, OnHello(a, hello, r, xb));
            && b in doneA.sessions && a in doneB.sessions
            && Mirrored(doneA.sessions[b], doneB.sessions[a]) && doneA.sessions[b].fp == doneB.sessions[a].fp
  {
    LessAsymmetric(a, b);
  }

  // ---- the keys of one session ----

  /** The two directions never share a key. */
  lemma DirectionsDiffer(p: Primitives, initiator: bool, ssX: Bytes, ssKem: Bytes, a: Id, b: Id, h: Hello, r: Reply)
    requires Ideal(p)
    ensures var k := Derive(p, initiator, ssX, ssKem, a, b, h, r); k.sendKey != k.recvKey
  {
    assert "A->B"[0] != "B->A"[0];
  }

  /**
   * A shared secret that differs, from X25519 or from ML-KEM, or a different exchange, gives different keys
   * in every direction.
   */
  lemma SecretsSeparateKeys(p: Primitives, initiator: bool, x: Bytes, kem: Bytes, a: Id, b: Id, h: Hello, r: Reply,
                            initiator': bool, x': Bytes, kem': Bytes, a': Id, b': Id, h': Hello, r': Reply)
    requires Ideal(p) && |x| == X_LEN && |x'| == X_LEN
    requires x != x' || kem != kem' || Transcript(a, b, h, r) != Transcript(a', b', h', r')
    ensures var k, k' := Derive(p, initiator, x, kem, a, b, h, r), Derive(p, initiator', x', kem', a', b', h', r');
            {k.sendKey, k.recvKey} !! {k'.sendKey, k'.recvKey}
  {
    if x + kem == x' + kem' {
      SplitAt(x, kem, x', kem');
    }
  }

  /** Different keys for the two directions, and prefixes of the nonce's length. */
  predicate Separate(k: Keys) {
    k.sendKey != k.recvKey && |k.sendPrefix| == PREFIX_LEN && |k.recvPrefix| == PREFIX_LEN
  }

  lemma DerivedIsSeparate(p: Primitives, initiator: bool, ssX: Bytes, ssKem: Bytes, a: Id, b: Id, h: Hello, r: Reply)
    requires Ideal(p)
    ensures Separate(Derive(p, initiator, ssX, ssKem, a, b, h, r))
  {
    DirectionsDiffer(p, initiator, ssX, ssKem, a, b, h, r);
  }

  lemma FinishedIsSeparate(p: Primitives, me: Id, peer: Id, k: Keys)
    requires Ideal(p) && ByFinishing(p, me, peer, k)
    ensures Separate(k)
  {
    var i: Initiator, reply: Reply :| |reply.kemCt| == KEM_CT_LEN && |reply.xPk| == X_LEN
      && k == Finished(p, me, peer, i, reply);
    DerivedIsSeparate(p, true, p.DH(i.x, reply.xPk), p.Decap(i.dk, reply.kemCt), me, peer, HelloOf(p, i), reply);
  }

  lemma RespondedIsSeparate(p: Primitives, me: Id, peer: Id, k: Keys)
    requires Ideal(p) && ByResponding(p, me, peer, k)
    ensures Separate(k)
  {
    var h: Hello, r: nat, x: nat :| |h.kemPk| == KEM_PK_LEN && |h.xPk| == X_LEN && k == Responded(p, me, peer, h, r, x);
    DerivedIsSeparate(p, false, p.DH(x, h.xPk), p.EncapSecret(h.kemPk, r), peer, me, h, ReplyTo(p, h, r, x));
  }

  /** Whatever the network did, a node's session has different keys for its two directions. */
  lemma SessionKeysDiffer(p: Primitives, me: Id, peer: Id, es: seq<Event>)
    requires Ideal(p) && (forall e :: e in es ==> WellFormed(e)) && peer in Run(p, me, es).sessions
    ensures Separate(Run(p, me, es).sessions[peer])
  {
    RunKeeps(p, me, es);
    var k := Run(p, me, es).sessions[peer];
    if Less(me, peer) {
      FinishedIsSeparate(p, me, peer, k);
    } else {
      RespondedIsSeparate(p, me, peer, k);
    }
  }

  /** The frame state a fresh session starts from. */
  function Fresh(k: Keys): PairSession.State {
    PairSession.State(k.sendKey, k.recvKey, k.sendPrefix, k.recvPrefix, 0, 0, 0)
  }

  /**
   * Two ends that show one fingerprint, whatever the network did, have a channel in each direction, to
   * which everything proved of channels applies; and what an end sealed never opens at that end.
   */
  lemma FingerprintOpensTwoChannels(p: Primitives, a: Id, b: Id, atA: seq<Event>, atB: seq<Event>,
                                    log: seq<Aead.Sealing<Bytes>>, i: nat, ctr: U64, sealedAs: PairSession.Kind,
                                    plaintext: Bytes, ct: Bytes, claimed: PairSession.Kind)
    requires Ideal(p) && Less(a, b) && |a| <= U32_MAX && |b| <= U32_MAX
    requires (forall e :: e in atA ==> WellFormed(e)) && forall e :: e in atB ==> WellFormed(e)
    requires b in Run(p, a, atA).sessions && a in Run(p, b, atB).sessions
    requires Run(p, a, atA).sessions[b].fp == Run(p, b, atB).sessions[a].fp
    ensures var s, t := Fresh(Run(p, a, atA).sessions[b]), Fresh(Run(p, b, atB).sessions[a]);
            && PairSession.Opening(PairSession.ChannelFrom(s, t)) && PairSession.Opening(PairSession.ChannelFrom(t, s))
            && (PairSession.Unrepeated(log) && i < |log|
                && log[i] == PairSession.SealingOf(s.sendKey, s.sendPrefix, ctr, sealedAs, plaintext, ct)
                ==> PairSession.Opened(log, s, claimed, PairSession.Wire(ctr, ct)).None?)
  {
    var s, t := Fresh(Run(p, a, atA).sessions[b]), Fresh(Run(p, b, atB).sessions[a]);
    SameFingerprintMeansMirrored(p, a, b, atA, atB);
    SessionKeysDiffer(p, a, b, atA);
    SessionKeysDiffer(p, b, a, atB);
    PairSession.MirroredEndsAreChannels(s, t);
    if PairSession.Unrepeated(log) && i < |log|
       && log[i] == PairSession.SealingOf(s.sendKey, s.sendPrefix, ctr, sealedAs, plaintext, ct)
    {
      PairSession.ReflectedFrameNeverOpens(log, s, i, ctr, sealedAs, plaintext, ct, claimed);
    }
  }
}
