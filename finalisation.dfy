/**
 * What the run hands to the datastore: every record of the table whose bucket
 * is closed (begins strictly before the cutoff), each exactly once, in the
 * unspecified order of Go's map iteration.
 */
module Finalisation {
  import opened Wrappers
  import opened Entities
  import opened Description
  import opened TimeBucket
  import opened Aggregation

  /** The keys whose bucket begins strictly before `cutoff`. */
  function ClosedKeys(t: Table, cutoff: int): set<Key> {
    set k | k in t && t[k].beginObservation < cutoff
  }

  /** `records` lists the closed records of `t`, `keys[i]` being the key of
      `records[i]`: no key twice and no closed key missing. */
  ghost predicate Enumerates(t: Table, cutoff: int, keys: seq<Key>, records: seq<GateCount>) {
    && |keys| == |records|
    && (forall i | 0 <= i < |keys| :: keys[i] in ClosedKeys(t, cutoff) && records[i] == t[keys[i]])
    && (forall i, j | 0 <= i < j < |keys| :: keys[i] != keys[j])
    && (forall k | k in ClosedKeys(t, cutoff) :: k in keys)
  }

  ghost predicate Lists(t: Table, cutoff: int, records: seq<GateCount>) {
    exists keys :: Enumerates(t, cutoff, keys, records)
  }

  /** What identifies a written row: its parking, gate and bucket start. */
  function NaturalKey(r: GateCount): (string, string, int) {
    (r.parking, r.gate, r.beginObservation)
  }

  lemma {:induction false} DistinctCardinality(keys: seq<Key>)
    requires forall i, j | 0 <= i < j < |keys| :: keys[i] != keys[j]
    ensures |set i | 0 <= i < |keys| :: keys[i]| == |keys|
    decreases |keys|
  {
    if keys != [] {
      var init := keys[..|keys| - 1];
      DistinctCardinality(init);
      var s := set i | 0 <= i < |init| :: init[i];
      assert (set i | 0 <= i < |keys| :: keys[i]) == s + {keys[|keys| - 1]};
    }
  }

  /** A listing is as long as there are closed buckets. */
  lemma ListingLength(t: Table, cutoff: int, keys: seq<Key>, records: seq<GateCount>)
    requires Enumerates(t, cutoff, keys, records)
    ensures |records| == |ClosedKeys(t, cutoff)|
  {
    DistinctCardinality(keys);
    assert (set i | 0 <= i < |keys| :: keys[i]) == ClosedKeys(t, cutoff);
  }

  /** In a well-formed table a record's natural key determines its table key. */
  lemma NaturalKeyDetermines(interval: int, t: Table, k1: Key, k2: Key)
    requires interval > 0 && WellFormed(interval, t) && k1 in t && k2 in t
    ensures NaturalKey(t[k1]) == NaturalKey(t[k2]) ==> k1 == k2
  {
    assert Consistent(interval, k1, t[k1]) && Consistent(interval, k2, t[k2]);
    if NaturalKey(t[k1]) == NaturalKey(t[k2]) {
      assert Parse(k1.0) == Parse(k2.0);
    }
  }

  /** In a well-formed table of the model no two listed records share a
      natural key. This rests on `Parse` matching the whole description. */
  lemma ListedNaturalKeysDistinct(interval: int, t: Table, cutoff: int, records: seq<GateCount>)
    requires interval > 0 && WellFormed(interval, t) && Lists(t, cutoff, records)
    ensures forall i, j | 0 <= i < j < |records| :: NaturalKey(records[i]) != NaturalKey(records[j])
  {
    var keys :| Enumerates(t, cutoff, keys, records);
    forall i, j | 0 <= i < j < |records|
      ensures NaturalKey(records[i]) != NaturalKey(records[j])
    {
      NaturalKeyDetermines(interval, t, keys[i], keys[j]);
    }
  }

  /** The listed records are the closed records of the table. */
  lemma ListingMembers(t: Table, cutoff: int, keys: seq<Key>, records: seq<GateCount>, x: GateCount)
    requires Enumerates(t, cutoff, keys, records)
    ensures x in records <==> exists k | k in ClosedKeys(t, cutoff) :: t[k] == x
  {
    if x in records {
      var i :| 0 <= i < |records| && records[i] == x;
      assert keys[i] in ClosedKeys(t, cutoff);
    }
    if exists k | k in ClosedKeys(t, cutoff) :: t[k] == x {
      var k :| k in ClosedKeys(t, cutoff) && t[k] == x;
      var i :| 0 <= i < |keys| && keys[i] == k;
      assert records[i] == x;
    }
  }

  lemma {:induction false} DistinctOccurrences(records: seq<GateCount>, x: GateCount)
    requires forall i, j | 0 <= i < j < |records| :: records[i] != records[j]
    ensures multiset(records)[x] == if x in records then 1 else 0
    decreases |records|
  {
    if records != [] {
      var init := records[..|records| - 1];
      DistinctOccurrences(init, x);
      assert records == init + [records[|records| - 1]];
    }
  }

  /** Repeating a run over the same table yields the same records, whatever
      the map iteration order: any two listings are permutations of each other. */
  lemma ListingsAgree(interval: int, t: Table, cutoff: int, r1: seq<GateCount>, r2: seq<GateCount>)
    requires interval > 0 && WellFormed(interval, t)
    requires Lists(t, cutoff, r1) && Lists(t, cutoff, r2)
    ensures multiset(r1) == multiset(r2)
  {
    ListedNaturalKeysDistinct(interval, t, cutoff, r1);
    ListedNaturalKeysDistinct(interval, t, cutoff, r2);
    var k1 :| Enumerates(t, cutoff, k1, r1);
    var k2 :| Enumerates(t, cutoff, k2, r2);
    forall x
      ensures multiset(r1)[x] == multiset(r2)[x]
    {
      DistinctOccurrences(r1, x);
      DistinctOccurrences(r2, x);
      ListingMembers(t, cutoff, k1, r1, x);
      ListingMembers(t, cutoff, k2, r2, x);
    }
  }

  /** With a single closed bucket the run writes exactly its record. */
  lemma SingleClosed(t: Table, cutoff: int, key: Key, records: seq<GateCount>)
    requires ClosedKeys(t, cutoff) == {key} && Lists(t, cutoff, records)
    ensures records == [t[key]]
  {
    var keys :| Enumerates(t, cutoff, keys, records);
    ListingLength(t, cutoff, keys, records);
    assert keys[0] in ClosedKeys(t, cutoff);
  }

  /** Finality at the boundary: a bucket starting exactly at the cutoff is
      still open and is not written, one starting a second earlier is closed;
      and a bucket is written exactly when its last second is before `now - 1`. */
  lemma ClosedBoundary(t: Table, now: int, interval: int, key: Key)
    requires interval > 0 && key in t
    ensures t[key].beginObservation == Cutoff(now, interval) ==> key !in ClosedKeys(t, Cutoff(now, interval))
    ensures t[key].beginObservation == Cutoff(now, interval) - 1 ==> key in ClosedKeys(t, Cutoff(now, interval))
    ensures key in ClosedKeys(t, Cutoff(now, interval)) <==> BucketEnd(t[key].beginObservation, interval) < now - 1
  {
  }
}
