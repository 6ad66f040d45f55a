/**
  Abstract Web Audio handles shared by the synthesiser hooks, and the
  insertion-ordered `Map<string, …>` the hooks keep their live nodes in.
  A node records the calls made on it (started, stopped, connected), not the
  sound it would produce.
 */
module AudioNodes {
  import opened Common
  import Harmony

  datatype Waveform = Sine | Triangle | Sawtooth

  /** An oscillator together with the gain node it feeds. `connected` is the
      oscillator -> gain -> outputGain path; `direct` is an extra gain -> destination edge. */
  datatype Tone = Tone(waveform: Waveform, frequency: real, gain: real,
                       started: bool, stopped: bool, connected: bool, direct: bool)

  /** A freshly built and started tone routed to the output gain. */
  function StartedTone(waveform: Waveform, frequency: real, gain: real, direct: bool): Tone
  {
    Tone(waveform, frequency, gain, true, false, true, direct)
  }

  /** `oscillator.stop(); oscillator.disconnect()` and, when `gainToo`, `gain.disconnect()`:
      the tone is stopped; the gain keeps its edges unless it is disconnected too. */
  function Halted(t: Tone, gainToo: bool): (r: Tone)
    ensures r.stopped && !r.connected && r.frequency == t.frequency && r.waveform == t.waveform
    ensures gainToo ==> !r.direct
  {
    t.(stopped := true, connected := false, direct := if gainToo then false else t.direct)
  }

  // ---------------------------------------------------------------- hook settings

  /** The per-role volumes. */
  datatype Volumes = Volumes(soprano: real, alto: real, tenor: real, bass: real)

  function VolumeOf(v: Volumes, r: Role): real
  {
    match r
    case Soprano => v.soprano
    case Alto => v.alto
    case Tenor => v.tenor
    case Bass => v.bass
  }

  /** `{ ...prev, [voiceName]: volume }`: only that role's volume changes. */
  function WithVolume(v: Volumes, r: Role, x: real): (w: Volumes)
    ensures VolumeOf(w, r) == x
    ensures forall r' :: r' != r ==> VolumeOf(w, r') == VolumeOf(v, r')
  {
    match r
    case Soprano => v.(soprano := x)
    case Alto => v.(alto := x)
    case Tenor => v.(tenor := x)
    case Bass => v.(bass := x)
  }

  datatype Settings = Settings(useFormants: bool, vowel: string)

  // ---------------------------------------------------------------- insertion-ordered maps

  /** A JavaScript Map: entries in insertion order, keys distinct. */
  type Entries<K, V> = seq<(K, V)>

  predicate DistinctKeys<K(==), V>(m: Entries<K, V>)
  {
    m == [] || (m[0].0 !in Keys(m[1..]) && DistinctKeys(m[1..]))
  }

  function Keys<K(==), V>(m: Entries<K, V>): set<K>
  {
    if m == [] then {} else {m[0].0} + Keys(m[1..])
  }

  /** `map.get(k)`. */
  function Get<K(==), V>(m: Entries<K, V>, k: K): (r: Option<V>)
    ensures r.Some? <==> k in Keys(m)
    ensures r.Some? ==> exists i :: 0 <= i < |m| && m[i] == (k, r.value)
  {
    if m == [] then None
    else if m[0].0 == k then Some(m[0].1)
    else Get(m[1..], k)
  }

  /** `map.set(k, v)`: an existing key keeps its position and takes the new value; a new key
      is appended. */
  function Put<K(==), V>(m: Entries<K, V>, k: K, v: V): (r: Entries<K, V>)
    ensures Keys(r) == Keys(m) + {k}
    ensures DistinctKeys(m) ==> DistinctKeys(r)
    ensures |r| == if k in Keys(m) then |m| else |m| + 1
  {
    if m == [] then [(k, v)]
    else if m[0].0 == k then [(k, v)] + m[1..]
    else
      var rest := Put(m[1..], k, v);
      assert ([m[0]] + rest)[1..] == rest;
      [m[0]] + rest
  }

  /** After `map.set(k, v)`, k maps to v and every other key keeps its value. */
  lemma {:induction false} GetPut<K, V>(m: Entries<K, V>, k: K, v: V, j: K)
    requires DistinctKeys(m)
    ensures Get(Put(m, k, v), j) == if j == k then Some(v) else Get(m, j)
  {
    if m != [] && m[0].0 != k {
      GetPut(m[1..], k, v, j);
    }
  }

  /** `map.forEach` over the values, in insertion order. */
  function Values<K(==), V>(m: Entries<K, V>): (r: seq<V>)
    ensures |r| == |m|
    ensures forall i :: 0 <= i < |m| ==> r[i] == m[i].1
  {
    seq(|m|, i requires 0 <= i < |m| => m[i].1)
  }

  /** A forEach loop calling `map.set` for each pair in turn. */
  function PutAll<K(==), V>(m: Entries<K, V>, pairs: seq<(K, V)>): (r: Entries<K, V>)
    ensures DistinctKeys(m) ==> DistinctKeys(r)
    ensures Keys(r) == Keys(m) + Keys(pairs)
    decreases |pairs|
  {
    if pairs == [] then m else PutAll(Put(m, pairs[0].0, pairs[0].1), pairs[1..])
  }

  /** The value of the last pair with key k. */
  function LastWith<K(==), V>(pairs: seq<(K, V)>, k: K): Option<V>
  {
    if pairs == [] then None
    else if LastWith(pairs[1..], k).Some? then LastWith(pairs[1..], k)
    else if pairs[0].0 == k then Some(pairs[0].1)
    else None
  }

  /** After setting every pair in turn, a key maps to the value of its last pair, and a key
      no pair mentions keeps its old value: a later pair overwrites an earlier one. */
  lemma {:induction false} GetPutAll<K, V>(m: Entries<K, V>, pairs: seq<(K, V)>, k: K)
    requires DistinctKeys(m)
    ensures Get(PutAll(m, pairs), k) == if LastWith(pairs, k).Some? then LastWith(pairs, k) else Get(m, k)
    decreases |pairs|
  {
    if pairs != [] {
      var m' := Put(m, pairs[0].0, pairs[0].1);
      GetPut(m, pairs[0].0, pairs[0].1, k);
      GetPutAll(m', pairs[1..], k);
    }
  }

  /** The pair at index i is the last one with its key exactly when its value survives. */
  lemma {:induction false} LastWithIsLast<K, V>(pairs: seq<(K, V)>, i: nat)
    requires i < |pairs|
    requires forall j :: i < j < |pairs| ==> pairs[j].0 != pairs[i].0
    ensures LastWith(pairs, pairs[i].0) == Some(pairs[i].1)
  {
    if i > 0 {
      LastWithIsLast(pairs[1..], i - 1);
    } else {
      LastWithAbsent(pairs[1..], pairs[0].0);
    }
  }

  lemma {:induction false} LastWithAbsent<K, V>(pairs: seq<(K, V)>, k: K)
    requires forall j :: 0 <= j < |pairs| ==> pairs[j].0 != k
    ensures LastWith(pairs, k) == None
  {
    if pairs != [] {
      LastWithAbsent(pairs[1..], k);
    }
  }

  /** Setting pairs with distinct keys, none already present, appends them in order. */
  lemma {:induction false} PutAllFresh<K, V>(m: Entries<K, V>, pairs: seq<(K, V)>)
    requires DistinctKeys(pairs) && Keys(m) !! Keys(pairs)
    ensures PutAll(m, pairs) == m + pairs
    decreases |pairs|
  {
    if pairs != [] {
      var (k, v) := pairs[0];
      assert Keys(pairs) == {k} + Keys(pairs[1..]);
      PutAppends(m, k, v);
      assert Keys(m + [(k, v)]) !! Keys(pairs[1..]);
      PutAllFresh(m + [(k, v)], pairs[1..]);
      assert (m + [(k, v)]) + pairs[1..] == m + pairs;
    }
  }

  lemma {:induction false} PutAppends<K, V>(m: Entries<K, V>, k: K, v: V)
    requires k !in Keys(m)
    ensures Put(m, k, v) == m + [(k, v)]
    ensures Keys(m + [(k, v)]) == Keys(m) + {k}
  {
    if m != [] {
      PutAppends(m[1..], k, v);
      assert (m + [(k, v)])[1..] == m[1..] + [(k, v)];
    }
  }

  /** Pairs keyed bass, tenor, alto, soprano, as a generated harmony is, have distinct keys
      covering every role, so setting them into an empty map keeps them all, in order. */
  lemma {:induction false} HarmonyKeys<V>(pairs: seq<(Role, V)>)
    requires |pairs| == 4 && forall k :: 0 <= k < 4 ==> pairs[k].0 == Harmony.RoleOrder[k]
    ensures DistinctKeys(pairs) && Keys(pairs) == {Soprano, Alto, Tenor, Bass}
    ensures PutAll([], pairs) == pairs
  {
    var p1 := pairs[1..];
    var p2 := p1[1..];
    var p3 := p2[1..];
    assert p3[1..] == [];
    assert Harmony.RoleOrder == [Bass, Tenor, Alto, Soprano];
    assert p3[0].0 == Soprano && p2[0].0 == Alto && p1[0].0 == Tenor && pairs[0].0 == Bass;
    assert Keys(p3) == {Soprano};
    assert Keys(p2) == {Alto, Soprano};
    assert Keys(p1) == {Tenor, Alto, Soprano};
    assert DistinctKeys(p3);
    assert DistinctKeys(p2);
    assert DistinctKeys(p1);
    assert DistinctKeys(pairs);
    PutAllFresh([], pairs);
  }

  /** Every key of a list of pairs is in its key set. */
  lemma {:induction false} KeyMember<K, V>(pairs: seq<(K, V)>, j: nat)
    requires j < |pairs|
    ensures pairs[j].0 in Keys(pairs)
  {
    if j > 0 {
      KeyMember(pairs[1..], j - 1);
    }
  }

  lemma {:induction false} KeysBound<K, V>(pairs: seq<(K, V)>)
    ensures |Keys(pairs)| <= |pairs|
    ensures DistinctKeys(pairs) ==> |Keys(pairs)| == |pairs|
  {
    if pairs != [] {
      KeysBound(pairs[1..]);
    }
  }

  /** Two pairs with the same key leave fewer distinct keys than pairs. */
  lemma {:induction false} RepeatedKey<K, V>(pairs: seq<(K, V)>, i: nat, j: nat)
    requires i < j < |pairs| && pairs[i].0 == pairs[j].0
    ensures |Keys(pairs)| < |pairs|
  {
    KeysBound(pairs[1..]);
    if i == 0 {
      KeyMember(pairs[1..], j - 1);
      assert Keys(pairs) == Keys(pairs[1..]);
    } else {
      RepeatedKey(pairs[1..], i - 1, j - 1);
    }
  }

  /** A rebuild from pairs with a repeated key stores fewer entries than it was given:
      the earlier node under that key is overwritten and no longer in the map. */
  lemma OverwrittenEntry<K, V>(pairs: seq<(K, V)>, i: nat, j: nat)
    requires i < j < |pairs| && pairs[i].0 == pairs[j].0
    ensures |PutAll([], pairs)| < |pairs|
  {
    RepeatedKey(pairs, i, j);
    KeysBound(PutAll([], pairs));
  }
}
