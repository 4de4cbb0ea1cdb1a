/**
 * Filling a dictionary from a stream of lines, each of which may or may not
 * yield a (key, value) entry: `d[k] = v` for every entry, in order, so that
 * a later entry for a key replaces an earlier one.
 */
module Entries {
  import opened Wrappers

  /** `d` after `d[k] = v` for every `Some((k, v))` of `entries`, first to last. */
  function Absorb<K, V>(d: map<K, V>, entries: seq<Option<(K, V)>>): map<K, V>
    decreases |entries|
  {
    if entries == [] then d
    else
      var prior := Absorb(d, entries[..|entries| - 1]);
      match entries[|entries| - 1]
      case None => prior
      case Some((k, v)) => prior[k := v]
  }

  /** One more entry: the step a loop over the lines takes. */
  lemma AbsorbStep<K, V>(d: map<K, V>, entries: seq<Option<(K, V)>>, i: nat)
    requires i < |entries|
    ensures Absorb(d, entries[..i + 1]) ==
              match entries[i]
              case None => Absorb(d, entries[..i])
              case Some((k, v)) => Absorb(d, entries[..i])[k := v]
  {
    assert entries[..i + 1][..i] == entries[..i];
  }

  predicate HasKey<K(==), V>(e: Option<(K, V)>, k: K) {
    e.Some? && e.value.0 == k
  }

  /** A key is in the result exactly when it was already there or some entry
      names it. */
  lemma {:induction false} AbsorbKeys<K, V>(d: map<K, V>, entries: seq<Option<(K, V)>>, k: K)
    ensures k in Absorb(d, entries) <==> k in d || exists i :: 0 <= i < |entries| && HasKey(entries[i], k)
    decreases |entries|
  {
    if entries != [] {
      var n := |entries| - 1;
      AbsorbKeys(d, entries[..n], k);
      assert forall i :: 0 <= i < n ==> entries[..n][i] == entries[i];
    }
  }

  /** The value for a key is the one from the last entry that names it. */
  lemma {:induction false} AbsorbLastWins<K, V>(d: map<K, V>, entries: seq<Option<(K, V)>>, i: nat, k: K, v: V)
    requires i < |entries| && entries[i] == Some((k, v))
    requires forall j :: i < j < |entries| ==> !HasKey(entries[j], k)
    ensures k in Absorb(d, entries) && Absorb(d, entries)[k] == v
    decreases |entries|
  {
    var n := |entries| - 1;
    if i < n {
      assert entries[..n][i] == entries[i];
      AbsorbLastWins(d, entries[..n], i, k, v);
    }
  }

  /** A key that no entry names keeps its original presence and value. */
  lemma {:induction false} AbsorbUntouched<K, V>(d: map<K, V>, entries: seq<Option<(K, V)>>, k: K)
    requires forall j :: 0 <= j < |entries| ==> !HasKey(entries[j], k)
    ensures k in Absorb(d, entries) <==> k in d
    ensures k in d ==> Absorb(d, entries)[k] == d[k]
    decreases |entries|
  {
    if entries != [] {
      var n := |entries| - 1;
      assert forall j :: 0 <= j < n ==> entries[..n][j] == entries[j];
      AbsorbUntouched(d, entries[..n], k);
    }
  }

  /** Every key added by the entries is one that some entry names. */
  lemma AbsorbNewKeys<K, V>(d: map<K, V>, entries: seq<Option<(K, V)>>, P: K -> bool)
    requires forall j :: 0 <= j < |entries| && entries[j].Some? ==> P(entries[j].value.0)
    ensures forall k :: k in Absorb(d, entries) && k !in d ==> P(k)
  {
    forall k | k in Absorb(d, entries) && k !in d
      ensures P(k)
    {
      AbsorbKeys(d, entries, k);
    }
  }
}
