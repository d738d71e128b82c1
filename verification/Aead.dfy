/**
 * The AEAD (section 2.8 of RFC 8439) idealised as the log of everything sealed so far: a
 * ciphertext opens under a key, nonce and associated data exactly if it was sealed under them.
 */
module Aead {
  import opened Wrappers
  import opened Words

  /** Associated data: a kind tag, for room audio followed by the sender's code points. */
  type Aad = seq<int>

  datatype Sealing<K> = Sealing(key: K, nonce: Bytes, aad: Aad, plaintext: Bytes, ct: Bytes)

  /** A ciphertext under a given nonce authenticates for one key, associated data and plaintext only. */
  ghost predicate Ideal<K>(log: seq<Sealing<K>>) {
    forall i, j :: 0 <= i < |log| && 0 <= j < |log| && log[i].nonce == log[j].nonce && log[i].ct == log[j].ct
      ==> log[i] == log[j]
  }

  predicate Matches<K(==)>(s: Sealing<K>, key: K, nonce: Bytes, aad: Aad, ct: Bytes) {
    s.key == key && s.nonce == nonce && s.aad == aad && s.ct == ct
  }

  /** Decryption of arbitrary bytes against the log. */
  function Decrypt<K(==)>(log: seq<Sealing<K>>, key: K, nonce: Bytes, aad: Aad, ct: Bytes): (r: Option<Bytes>)
    ensures r.Some? <==> exists i :: 0 <= i < |log| && Matches(log[i], key, nonce, aad, ct)
    ensures r.Some? ==> exists i ::
            0 <= i < |log| && Matches(log[i], key, nonce, aad, ct) && log[i].plaintext == r.value
  {
    if log == [] then None
    else if Matches(log[|log| - 1], key, nonce, aad, ct) then Some(log[|log| - 1].plaintext)
    else
      var r := Decrypt(log[..|log| - 1], key, nonce, aad, ct);
      assert forall i :: 0 <= i < |log| - 1 ==> log[..|log| - 1][i] == log[i];
      r
  }

  lemma DecryptSealed<K>(log: seq<Sealing<K>>, i: nat)
    requires Ideal(log) && i < |log|
    ensures Decrypt(log, log[i].key, log[i].nonce, log[i].aad, log[i].ct) == Some(log[i].plaintext)
  {
    var e := log[i];
    assert Matches(e, e.key, e.nonce, e.aad, e.ct);
    var j :| 0 <= j < |log| && Matches(log[j], e.key, e.nonce, e.aad, e.ct)
             && log[j].plaintext == Decrypt(log, e.key, e.nonce, e.aad, e.ct).value;
    assert Matches(log[j], e.key, e.nonce, e.aad, e.ct);
    assert log[j].ct == e.ct;
    assert log[j] == log[i];
  }
}
