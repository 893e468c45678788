/**
 * The aggregation table of one run and the fold of vehicle events into it,
 * as pure functions: the specification the imperative `Aggregate` is proved
 * against. The Go map of maps `description -> bucket start -> GateCount` is a
 * single map keyed by the pair.
 */
module Aggregation {
  import opened Wrappers
  import opened Entities
  import opened Description
  import opened TimeBucket

  /** (description, bucket start) */
  type Key = (string, int)
  type Table = map<Key, GateCount>

  /** The key an event is counted under, if its description parses. */
  function KeyOf(v: Vehicle, interval: int): Key
    requires interval > 0
  {
    (v.description, Truncate(v.observedAt, interval))
  }

  /** Whether the event adds one to the count stored under `key`. */
  predicate Counts(v: Vehicle, interval: int, key: Key)
    requires interval > 0
  {
    Parse(v.description).Some? && KeyOf(v, interval) == key
  }

  /** The record created when a key is first seen at `v`, before it is counted:
      the coordinates are stored swapped. */
  function FirstRecord(v: Vehicle, interval: int): GateCount
    requires interval > 0 && Parse(v.description).Some?
  {
    var begin := Truncate(v.observedAt, interval);
    var (parking, gate) := Parse(v.description).value;
    GateCount(parking, gate, v.coordinates[1], v.coordinates[0], begin, BucketEnd(begin, interval), 0)
  }

  /** One iteration of `Aggregate`'s loop: skip an unparseable event; otherwise
      look up or create the record for its key and increment its count. */
  function Step(interval: int, t: Table, v: Vehicle): Table
    requires interval > 0
  {
    if Parse(v.description).None? then t
    else
      var key := KeyOf(v, interval);
      var gc := if key in t then t[key] else FirstRecord(v, interval);
      t[key := gc.(count := gc.count + 1)]
  }

  /** The table after folding the events in order. */
  function Fold(interval: int, t: Table, vs: seq<Vehicle>): Table
    requires interval > 0
    decreases |vs|
  {
    if vs == [] then t
    else Step(interval, Fold(interval, t, vs[..|vs| - 1]), vs[|vs| - 1])
  }

  /** The number of events counted under `key`. */
  function CountOf(interval: int, vs: seq<Vehicle>, key: Key): nat
    requires interval > 0
    decreases |vs|
  {
    if vs == [] then 0
    else CountOf(interval, vs[..|vs| - 1], key) + (if Counts(vs[|vs| - 1], interval, key) then 1 else 0)
  }

  /** The count the table holds for `key`, zero when absent. */
  function CountIn(t: Table, key: Key): int {
    if key in t then t[key].count else 0
  }

  /** What every record of a table built by the fold satisfies: it is stored
      under its own description and bucket start, its end is the bucket's last
      second, and it has been counted at least once. */
  predicate Consistent(interval: int, key: Key, r: GateCount)
    requires interval > 0
  {
    && Parse(key.0) == Some((r.parking, r.gate))
    && r.beginObservation == key.1
    && key.1 % Width(interval) == 0
    && r.endObservation == BucketEnd(key.1, interval)
    && r.count >= 1
  }

  predicate WellFormed(interval: int, t: Table)
    requires interval > 0
  {
    forall key | key in t :: Consistent(interval, key, t[key])
  }

  /** The record a new key starts from names the event's parking and gate,
      spans the bucket holding the event, and stores the coordinates swapped
      with a count of zero. */
  lemma FirstRecordFields(v: Vehicle, interval: int)
    requires interval > 0 && Parse(v.description).Some?
    ensures var r := FirstRecord(v, interval);
      && v.description == Describe(r.parking, r.gate)
      && r.beginObservation <= v.observedAt <= r.endObservation
      && r.endObservation - r.beginObservation == Width(interval) - 1
      && r.coordinate1 == v.coordinates[1] && r.coordinate2 == v.coordinates[0] && r.count == 0
  {
  }

  /** One event: an unparseable one leaves the table as it is; a parseable one
      adds its key if new, counts one more under it and touches no other key. */
  lemma StepEffect(interval: int, t: Table, v: Vehicle, other: Key)
    requires interval > 0
    ensures Parse(v.description).None? ==> Step(interval, t, v) == t
    ensures Parse(v.description).Some? ==> Step(interval, t, v).Keys == t.Keys + {KeyOf(v, interval)}
    ensures Parse(v.description).Some? ==>
      CountIn(Step(interval, t, v), KeyOf(v, interval)) == CountIn(t, KeyOf(v, interval)) + 1
    ensures other != KeyOf(v, interval) && other in t ==> Step(interval, t, v)[other] == t[other]
  {
  }

  /** Folding never drops a key, and adds at most one key per event. */
  lemma {:induction false} FoldKeys(interval: int, t: Table, vs: seq<Vehicle>)
    requires interval > 0
    ensures t.Keys <= Fold(interval, t, vs).Keys
    ensures |Fold(interval, t, vs).Keys| <= |t.Keys| + |vs|
    decreases |vs|
  {
    if vs != [] {
      var n := |vs| - 1;
      FoldKeys(interval, t, vs[..n]);
      var before := Fold(interval, t, vs[..n]);
      if Parse(vs[n].description).Some? {
        assert Fold(interval, t, vs).Keys == before.Keys + {KeyOf(vs[n], interval)};
      }
    }
  }

  /** Folding pages one after another into the same table equals folding their
      concatenation. */
  lemma {:induction false} FoldConcat(interval: int, t: Table, a: seq<Vehicle>, b: seq<Vehicle>)
    requires interval > 0
    ensures Fold(interval, t, a + b) == Fold(interval, Fold(interval, t, a), b)
    decreases |b|
  {
    if b == [] {
      assert a + b == a;
    } else {
      var b' := b[..|b| - 1];
      FoldConcat(interval, t, a, b');
      assert (a + b)[..|a + b| - 1] == a + b';
      assert (a + b)[|a + b| - 1] == b[|b| - 1];
    }
  }

  /** Counting over a concatenation adds up. */
  lemma {:induction false} CountOfConcat(interval: int, a: seq<Vehicle>, b: seq<Vehicle>, key: Key)
    requires interval > 0
    ensures CountOf(interval, a + b, key) == CountOf(interval, a, key) + CountOf(interval, b, key)
    decreases |b|
  {
    if b == [] {
      assert a + b == a;
    } else {
      var b' := b[..|b| - 1];
      CountOfConcat(interval, a, b', key);
      assert (a + b)[..|a + b| - 1] == a + b';
      assert (a + b)[|a + b| - 1] == b[|b| - 1];
    }
  }

  /** The stored count of every key is what the table held before plus the
      number of folded events with a parseable description equal to the key's
      and a truncated observation time equal to the key's bucket start. */
  lemma {:induction false} FoldCount(interval: int, t: Table, vs: seq<Vehicle>, key: Key)
    requires interval > 0
    ensures CountIn(Fold(interval, t, vs), key) == CountIn(t, key) + CountOf(interval, vs, key)
    decreases |vs|
  {
    if vs != [] {
      FoldCount(interval, t, vs[..|vs| - 1], key);
    }
  }

  /** Folding keeps every record consistent with its key. */
  lemma {:induction false} FoldWellFormed(interval: int, t: Table, vs: seq<Vehicle>)
    requires interval > 0 && WellFormed(interval, t)
    ensures WellFormed(interval, Fold(interval, t, vs))
    decreases |vs|
  {
    if vs != [] {
      FoldWellFormed(interval, t, vs[..|vs| - 1]);
    }
  }

  /** A key that no folded event counts keeps its record, or stays absent. */
  lemma {:induction false} FoldUntouched(interval: int, t: Table, vs: seq<Vehicle>, key: Key)
    requires interval > 0 && CountOf(interval, vs, key) == 0
    ensures key in Fold(interval, t, vs) <==> key in t
    ensures key in t ==> Fold(interval, t, vs)[key] == t[key]
    decreases |vs|
  {
    if vs != [] {
      FoldUntouched(interval, t, vs[..|vs| - 1], key);
    }
  }

  /** A record already in the table changes only in its count. */
  lemma {:induction false} FoldSeen(interval: int, t: Table, vs: seq<Vehicle>, key: Key)
    requires interval > 0 && key in t
    ensures key in Fold(interval, t, vs)
    ensures Fold(interval, t, vs)[key] == t[key].(count := t[key].count + CountOf(interval, vs, key))
    decreases |vs|
  {
    if vs != [] {
      FoldSeen(interval, t, vs[..|vs| - 1], key);
    }
  }

  /** A key first counted by the event at index `i` gets the record built from
      that event: parking and gate from its description, its coordinates swapped,
      its bucket; later events for the key change only the count. */
  lemma {:induction false} FoldFirstSeen(interval: int, t: Table, vs: seq<Vehicle>, key: Key, i: nat)
    requires interval > 0 && key !in t
    requires i < |vs| && Counts(vs[i], interval, key)
    requires forall j | 0 <= j < i :: !Counts(vs[j], interval, key)
    ensures key in Fold(interval, t, vs)
    ensures Fold(interval, t, vs)[key] == FirstRecord(vs[i], interval).(count := CountOf(interval, vs, key))
    decreases |vs|
  {
    var n := |vs| - 1;
    var prefix := vs[..n];
    if i == n {
      NoneCounted(interval, prefix, key);
      FoldUntouched(interval, t, prefix, key);
    } else {
      FoldFirstSeen(interval, t, prefix, key, i);
    }
  }

  lemma {:induction false} NoneCounted(interval: int, vs: seq<Vehicle>, key: Key)
    requires interval > 0
    requires forall j | 0 <= j < |vs| :: !Counts(vs[j], interval, key)
    ensures CountOf(interval, vs, key) == 0
    decreases |vs|
  {
    if vs != [] {
      NoneCounted(interval, vs[..|vs| - 1], key);
    }
  }

  /** The events whose description follows the pattern. */
  function WellDescribed(vs: seq<Vehicle>): (r: seq<Vehicle>)
    ensures |r| <= |vs|
    ensures forall i | 0 <= i < |r| :: r[i] in vs && Parse(r[i].description).Some?
    decreases |vs|
  {
    if vs == [] then []
    else
      var rest := WellDescribed(vs[..|vs| - 1]);
      if Parse(vs[|vs| - 1].description).Some? then rest + [vs[|vs| - 1]] else rest
  }

  /** Events with a malformed description contribute nothing, wherever they
      appear: folding all events equals folding only the well-described ones. */
  lemma {:induction false} FoldSkipsMalformed(interval: int, t: Table, vs: seq<Vehicle>)
    requires interval > 0
    ensures Fold(interval, t, vs) == Fold(interval, t, WellDescribed(vs))
    decreases |vs|
  {
    if vs != [] {
      var n := |vs| - 1;
      FoldSkipsMalformed(interval, t, vs[..n]);
      var rest := WellDescribed(vs[..n]);
      if Parse(vs[n].description).Some? {
        assert (rest + [vs[n]])[..|rest|] == rest;
      }
    }
  }

  /** The table of a fresh run holds exactly the keys counted at least once,
      each with its number of events. */
  lemma FreshTable(interval: int, vs: seq<Vehicle>, key: Key)
    requires interval > 0
    ensures key in Fold(interval, map[], vs) <==> CountOf(interval, vs, key) > 0
    ensures key in Fold(interval, map[], vs) ==> Fold(interval, map[], vs)[key].count == CountOf(interval, vs, key)
  {
    FoldCount(interval, map[], vs, key);
    FoldWellFormed(interval, map[], vs);
  }
}
