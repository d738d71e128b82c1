/** Room-wide group-audio keying: `RoomKey` and `RoomAudio` of crypto.rs. */
module GroupAudio {
  import opened Wrappers
  import opened Ids
  import opened Words
  import opened Aead

  /** 32 random key bytes. Two draws never coincide: a value names its draw. */
  datatype KeyBytes = KeyBytes(origin: Id, serial: nat)

  datatype RoomKey = RoomKey(gen: U32, auth: Id, key: KeyBytes)

  const ROOM_KEY_PREV_SLOTS: nat := 2
  const AUDIO_RAW: Byte := 0
  const AUDIO_SEALED: Byte := 1
  const AUDIO_KIND: int := 1

  /** Newer generation, or the same generation from a smaller authority id. */
  predicate Better(k: RoomKey, than: RoomKey) {
    k.gen > than.gen || (k.gen == than.gen && Less(k.auth, than.auth))
  }

  /** The keys a node holds: the one it seals with, the newest it can open with, and the ones before. */
  datatype Ring = Ring(send: Option<RoomKey>, cur: Option<RoomKey>, prev: seq<RoomKey>) {
    /** Open-capable keys, newest first. */
    function Keys(): seq<RoomKey> {
      (if cur.Some? then [cur.value] else []) + prev
    }
  }

  const NO_KEYS := Ring(None, None, [])

  predicate Accepts(r: Ring, k: RoomKey) {
    r.cur.Some? ==> Better(k, r.cur.value)
  }

  function Truncated(s: seq<RoomKey>): seq<RoomKey> {
    if |s| > ROOM_KEY_PREV_SLOTS then s[..ROOM_KEY_PREV_SLOTS] else s
  }

  function Staged(r: Ring, k: RoomKey): Ring {
    if !Accepts(r, k) then r
    else if r.cur.Some? then r.(cur := Some(k), prev := Truncated([r.cur.value] + r.prev))
    else r.(cur := Some(k))
  }

  /** The first key of generation `gen` in `ks`. */
  function FindGen(ks: seq<RoomKey>, gen: U32): (r: Option<RoomKey>)
    ensures r.None? <==> forall k :: k in ks ==> k.gen != gen
    ensures r.Some? ==> r.value in ks && r.value.gen == gen
    ensures r.Some? ==> exists i :: 0 <= i < |ks| && ks[i] == r.value && forall j :: 0 <= j < i ==> ks[j].gen != gen
  {
    if ks == [] then None
    else if ks[0].gen == gen then Some(ks[0])
    else
      var r := FindGen(ks[1..], gen);
      assert forall i :: 0 <= i < |ks| - 1 ==> ks[1..][i] == ks[i + 1];
      assert forall k :: k in ks <==> k == ks[0] || k in ks[1..];
      assert r.Some? ==>
          exists i :: 0 <= i < |ks| && ks[i] == r.value && forall j :: 0 <= j < i ==> ks[j].gen != gen by {
        if r.Some? {
          var i :| 0 <= i < |ks| - 1 && ks[1..][i] == r.value && forall j :: 0 <= j < i ==> ks[1..][j].gen != gen;
          assert ks[i + 1] == r.value;
          forall j | 0 <= j < i + 1 ensures ks[j].gen != gen {
            if j > 0 {
              assert ks[j] == ks[1..][j - 1];
            }
          }
        }
      }
      r
  }

  function Promoted(r: Ring, gen: U32): Ring {
    var found := FindGen(r.Keys(), gen);
    if found.Some? then r.(send := found) else r
  }

  /** The associated data of a room-audio frame: kind tag, then the sender. */
  function RoomAad(sender: Id): Aad {
    [AUDIO_KIND] + seq(|sender|, i requires 0 <= i < |sender| => sender[i] as int)
  }

  lemma RoomAadInjective(a: Id, b: Id)
    requires RoomAad(a) == RoomAad(b)
    ensures a == b
  {
    assert |a| == |b|;
    forall i | 0 <= i < |a| ensures a[i] == b[i] {
      assert RoomAad(a)[i + 1] == a[i] as int;
      assert RoomAad(b)[i + 1] == b[i] as int;
    }
  }

  /** What sealing with `k` adds to the AEAD log; `nonce` and `ct` are the cipher's own choice. */
  function AudioSealing(k: RoomKey, sender: Id, opus: Bytes, nonce: Bytes, ct: Bytes): Sealing<KeyBytes> {
    Sealing(k.key, nonce, RoomAad(sender), opus, ct)
  }

  function SealedWire(gen: U32, nonce: Bytes, ct: Bytes): Bytes {
    [AUDIO_SEALED] + ToBE(gen, 4) + nonce + ct
  }

  function SealOutbound(r: Ring, opus: Bytes, nonce: Bytes, ct: Bytes): Option<Bytes> {
    if r.send.Some? then Some(SealedWire(r.send.value.gen, nonce, ct))
    else if r.cur.Some? then None
    else Some([AUDIO_RAW] + opus)
  }

  function OpenAudio(log: seq<Sealing<KeyBytes>>, k: RoomKey, sender: Id, body: Bytes): Option<Bytes> {
    if |body| < 12 then None else Decrypt(log, k.key, body[..12], RoomAad(sender), body[12..])
  }

  /** The first key of generation `gen` that authenticates `body`. */
  function OpenWith(log: seq<Sealing<KeyBytes>>, ks: seq<RoomKey>, gen: U32, sender: Id, body: Bytes): Option<Bytes> {
    if ks == [] then None
    else if ks[0].gen == gen && OpenAudio(log, ks[0], sender, body).Some? then OpenAudio(log, ks[0], sender, body)
    else OpenWith(log, ks[1..], gen, sender, body)
  }

  function OpenInbound(log: seq<Sealing<KeyBytes>>, r: Ring, sender: Id, wire: Bytes): Option<Bytes> {
    if wire == [] then None
    else if wire[0] == AUDIO_RAW then
      if r.cur.Some? then None else Some(wire[1..])
    else if wire[0] == AUDIO_SEALED && |wire| >= 5 then
      FromBEBound(wire[1..5]);
      Pow256Widths();
      OpenWith(log, r.Keys(), FromBE(wire[1..5]), sender, wire[5..])
    else None
  }

  // ---- the order on keys ----

  lemma BetterIrreflexive(k: RoomKey)
    ensures !Better(k, k)
  {
    LessIrreflexive(k.auth);
  }

  lemma BetterTransitive(a: RoomKey, b: RoomKey, c: RoomKey)
    requires Better(a, b) && Better(b, c)
    ensures Better(a, c)
  {
    if a.gen == b.gen == c.gen {
      LessTransitive(a.auth, b.auth, c.auth);
    }
  }

  /** Equal generation and authority never stand for different bytes. */
  ghost predicate Consistent(ks: seq<RoomKey>) {
    forall j, k :: j in ks && k in ks && j.gen == k.gen && j.auth == k.auth ==> j == k
  }

  ghost predicate Descending(ks: seq<RoomKey>) {
    forall i, j :: 0 <= i < j < |ks| ==> Better(ks[i], ks[j])
  }

  // ---- staging whole sequences of keys ----

  function StageAll(r: Ring, ks: seq<RoomKey>): Ring {
    if ks == [] then r else Staged(StageAll(r, ks[..|ks| - 1]), ks[|ks| - 1])
  }

  /** The keys of `ks` that are better than every key before them, in order. */
  function Records(ks: seq<RoomKey>): seq<RoomKey> {
    if ks == [] then []
    else
      var before := ks[..|ks| - 1];
      var k := ks[|ks| - 1];
      Records(before) + (if forall j :: j in before ==> Better(k, j) then [k] else [])
  }

  function LastThreeReversed(h: seq<RoomKey>): seq<RoomKey> {
    if |h| == 0 then []
    else if |h| == 1 then [h[0]]
    else if |h| == 2 then [h[1], h[0]]
    else [h[|h| - 1], h[|h| - 2], h[|h| - 3]]
  }

  /** `cur` after any staging sequence is the maximum of what was staged. */
  lemma {:induction false} StagingKeepsTheMaximum(ks: seq<RoomKey>)
    requires ks != []
    ensures StageAll(NO_KEYS, ks).cur.Some?
    ensures StageAll(NO_KEYS, ks).cur.value in ks
    ensures forall k :: k in ks ==> !Better(k, StageAll(NO_KEYS, ks).cur.value)
    ensures forall k :: k in ks ==> k.gen <= StageAll(NO_KEYS, ks).cur.value.gen
    ensures forall k :: k in ks && k.gen == StageAll(NO_KEYS, ks).cur.value.gen ==>
              !Less(k.auth, StageAll(NO_KEYS, ks).cur.value.auth)
  {
    var before := ks[..|ks| - 1];
    var k := ks[|ks| - 1];
    assert ks == before + [k];
    BetterIrreflexive(k);
    if before != [] {
      StagingKeepsTheMaximum(before);
      var top := StageAll(NO_KEYS, before).cur.value;
      if Better(k, top) {
        forall j | j in before ensures !Better(j, k) {
          if Better(j, k) {
            BetterTransitive(j, k, top);
          }
        }
      }
    }
  }

  /** Order and duplication do not matter: the same keys staged in any way leave the same `cur`. */
  lemma StagingIsConfluent(ks: seq<RoomKey>, ls: seq<RoomKey>)
    requires Consistent(ks) && forall k :: k in ks <==> k in ls
    ensures StageAll(NO_KEYS, ks).cur == StageAll(NO_KEYS, ls).cur
  {
    assert ls == [] || ls[0] in ls;
    if ks != [] {
      assert ks[0] in ls;
      StagingKeepsTheMaximum(ks);
      StagingKeepsTheMaximum(ls);
      var a, b := StageAll(NO_KEYS, ks).cur.value, StageAll(NO_KEYS, ls).cur.value;
      LessTrichotomy(a.auth, b.auth);
    }
  }

  /** `cur` and `prev` are exactly the last three record keys, newest first and strictly descending. */
  lemma {:induction false} RingIsLastThreeRecords(ks: seq<RoomKey>)
    ensures StageAll(NO_KEYS, ks).Keys() == LastThreeReversed(Records(ks))
    ensures Descending(StageAll(NO_KEYS, ks).Keys())
    ensures Records(ks) == [] <==> ks == []
    ensures ks != [] ==> StageAll(NO_KEYS, ks).cur == Some(Records(ks)[|Records(ks)| - 1])
  {
    if ks != [] {
      var before := ks[..|ks| - 1];
      var k := ks[|ks| - 1];
      RingIsLastThreeRecords(before);
      if before != [] {
        StagingKeepsTheMaximum(before);
        var top := StageAll(NO_KEYS, before).cur.value;
        if Better(k, top) {
          forall j | j in before ensures Better(k, j) {
            BetterThanMax(k, top, j);
          }
          RecordStep(StageAll(NO_KEYS, before), k, Records(before));
        }
      }
    }
  }

  /** An accepted key goes in front, the oldest falls out, and the order stays strict. */
  lemma StagingPushes(r: Ring, k: RoomKey)
    requires r.cur.Some? && Accepts(r, k) && Descending(r.Keys())
    ensures Staged(r, k).Keys() == [k] + Truncated(r.Keys()) && Descending(Staged(r, k).Keys())
  {
    var was, now := r.Keys(), Staged(r, k).Keys();
    assert was[0] == r.cur.value;
    assert now == [k] + Truncated(was);
    forall i, j | 0 <= i < j < |now| ensures Better(now[i], now[j]) {
      if i == 0 {
        assert now[j] == was[j - 1];
        if j > 1 {
          BetterTransitive(k, was[0], was[j - 1]);
        }
      } else {
        assert now[i] == was[i - 1] && now[j] == was[j - 1];
      }
    }
  }

  /** One accepted key pushes the ring and its history alike. */
  lemma RecordStep(r: Ring, k: RoomKey, h: seq<RoomKey>)
    requires r.cur.Some? && Accepts(r, k) && h != [] && r.Keys() == LastThreeReversed(h) && Descending(r.Keys())
    ensures Staged(r, k).Keys() == LastThreeReversed(h + [k]) && Descending(Staged(r, k).Keys())
  {
    StagingPushes(r, k);
  }

  lemma BetterThanMax(k: RoomKey, top: RoomKey, j: RoomKey)
    requires Better(k, top) && !Better(j, top)
    ensures Better(k, j)
  {
    if j.gen == top.gen == k.gen {
      LessTrichotomy(j.auth, top.auth);
      if j.auth != top.auth {
        LessTransitive(k.auth, top.auth, j.auth);
      }
    }
  }

  // ---- which frames open ----

  lemma {:induction false} OpenWithIff(log: seq<Sealing<KeyBytes>>, ks: seq<RoomKey>, gen: U32, sender: Id, body: Bytes)
    ensures OpenWith(log, ks, gen, sender, body).Some?
       <==> exists k :: k in ks && k.gen == gen && OpenAudio(log, k, sender, body).Some?
    ensures OpenWith(log, ks, gen, sender, body).Some?
        ==> exists k ::
              k in ks && k.gen == gen && OpenAudio(log, k, sender, body) == OpenWith(log, ks, gen, sender, body)
  {
    if ks != [] {
      assert ks == [ks[0]] + ks[1..];
      OpenWithIff(log, ks[1..], gen, sender, body);
    }
  }

  lemma SealedWireParts(gen: U32, nonce: Bytes, ct: Bytes)
    requires |nonce| == 12
    ensures var w := SealedWire(gen, nonce, ct);
            |w| >= 17 && w[0] == AUDIO_SEALED && FromBE(w[1..5]) == gen && w[5..] == nonce + ct
  {
    Pow256Widths();
    BERoundTrip(gen, 4);
    assert SealedWire(gen, nonce, ct)[1..5] == ToBE(gen, 4);
  }

  /**
   * A frame that `s` sealed under `k` opens at a keyed ring, claimed to be from `claimed`, if and
   * only if the claim is true and a key with `k`'s generation and bytes is in the ring; and what
   * opens is what was sealed.
   */
  lemma SealedFrameOpensIff(log: seq<Sealing<KeyBytes>>, i: nat, k: RoomKey, s: Id, claimed: Id, opus: Bytes,
                            nonce: Bytes, ct: Bytes, r: Ring)
    requires Ideal(log) && i < |log| && |nonce| == 12
    requires log[i] == AudioSealing(k, s, opus, nonce, ct)
    ensures var got := OpenInbound(log, r, claimed, SealedWire(k.gen, nonce, ct));
            && (got.Some? <==> claimed == s && exists h :: h in r.Keys() && h.gen == k.gen && h.key == k.key)
            && (got.Some? ==> got.value == opus)
  {
    var w := SealedWire(k.gen, nonce, ct);
    var body := w[5..];
    SealedWireParts(k.gen, nonce, ct);
    assert body[..12] == nonce && body[12..] == ct;
    OpenWithIff(log, r.Keys(), k.gen, claimed, body);
    forall h: RoomKey
      ensures OpenAudio(log, h, claimed, body).Some? <==> claimed == s && h.key == k.key
      ensures OpenAudio(log, h, claimed, body).Some? ==> OpenAudio(log, h, claimed, body).value == opus
    {
      if OpenAudio(log, h, claimed, body).Some? {
        var j :| 0 <= j < |log| && Matches(log[j], h.key, nonce, RoomAad(claimed), ct)
                 && log[j].plaintext == OpenAudio(log, h, claimed, body).value;
        assert log[j] == log[i];
        RoomAadInjective(s, claimed);
      }
      if claimed == s && h.key == k.key {
        assert Matches(log[i], h.key, nonce, RoomAad(claimed), ct);
      }
    }
  }

  /** Before any key is staged a frame goes out raw and is taken as it came; raw frames are taken at no other time. */
  lemma RawOnlyBeforeAnyKey(log: seq<Sealing<KeyBytes>>, r: Ring, sender: Id, opus: Bytes, nonce: Bytes, ct: Bytes)
    requires r.send.Some? ==> r.cur.Some?
    ensures OpenInbound(log, r, sender, [AUDIO_RAW] + opus) == if r.cur.None? then Some(opus) else None
    ensures SealOutbound(r, opus, nonce, ct) == Some([AUDIO_RAW] + opus) <==> r.cur.None?
  {
    assert AUDIO_RAW != AUDIO_SEALED;
    if r.send.Some? {
      assert SealedWire(r.send.value.gen, nonce, ct)[0] == AUDIO_SEALED;
    }
  }

  /** The live keying object, shared by the outbound writer, the inbound tasks and the engine. */
  class RoomAudio {
    var send: Option<RoomKey>
    var cur: Option<RoomKey>
    var prev: seq<RoomKey>

    constructor ()
      ensures Value() == NO_KEYS
    {
      send, cur, prev := None, None, [];
    }

    function Value(): Ring
      reads this
    {
      Ring(send, cur, prev)
    }

    method Stage(k: RoomKey) returns (taken: bool)
      modifies this
      ensures Value() == Staged(old(Value()), k)
      ensures taken == Accepts(old(Value()), k)
    {
      if cur.Some? {
        if !Better(k, cur.value) {
          return false;
        }
        prev := [cur.value] + prev;
        if |prev| > ROOM_KEY_PREV_SLOTS {
          prev := prev[..ROOM_KEY_PREV_SLOTS];
        }
      }
      cur := Some(k);
      return true;
    }

    method Promote(gen: U32)
      modifies this
      ensures Value() == Promoted(old(Value()), gen)
    {
      var found := FindGen(Value().Keys(), gen);
      if found.Some? {
        send := found;
      }
    }

    /** Stage and seal with it at once. The key is then both the newest and the sealing one. */
    method Install(k: RoomKey)
      modifies this
      ensures !Accepts(old(Value()), k) ==> Value() == old(Value())
      ensures Accepts(old(Value()), k) ==> Value() == Staged(old(Value()), k).(send := Some(k))
    {
      var taken := Stage(k);
      if taken {
        assert Value().Keys()[0] == k;
        Promote(cur.value.gen);
      }
    }
  }
}
