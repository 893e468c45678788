/**
 * Whole runs of the use case on concrete collaborators: the end-to-end case
 * of a watermark followed by three events in two buckets, and a run over
 * 2400 matching vehicles.
 */
module Scenarios {
  import opened Wrappers
  import opened Entities
  import opened Description
  import opened TimeBucket
  import opened Aggregation
  import opened Ports
  import opened Pagination
  import opened Finalisation
  import opened Usecase

  /** The broker's events in the end-to-end case, with T0 = 899999. */
  function Events(): seq<Vehicle> {
    var desc := Describe("A", "1");
    [Vehicle(desc, [10.0, 45.0], 900000), Vehicle(desc, [10.0, 45.0], 900119),
     Vehicle(desc, [10.0, 45.0], 900959)]
  }

  /** The older bucket, begun at T0+1s, and its finished record. */
  function OlderKey(): Key { (Describe("A", "1"), 900000) }
  function OlderRecord(): GateCount { GateCount("A", "1", 45.0, 10.0, 900000, 900899, 2) }

  /** Folding three events is three steps. */
  lemma FoldThree(interval: int, t: Table, a: Vehicle, b: Vehicle, c: Vehicle)
    requires interval > 0
    ensures Fold(interval, t, [a, b, c]) == Step(interval, Step(interval, Step(interval, t, a), b), c)
  {
    assert [a, b, c][..2] == [a, b];
    assert [a, b][..1] == [a];
    assert [a][..0] == [];
    assert Fold(interval, t, [a]) == Step(interval, t, a);
    assert Fold(interval, t, [a, b]) == Step(interval, Fold(interval, t, [a]), b);
  }

  /** The first event creates the older bucket's record with count 1. */
  lemma FirstEvent()
    ensures Step(15, map[], Events()[0]) == map[OlderKey() := OlderRecord().(count := 1)]
  {
    ParseDescribe("A", "1");
    assert Truncate(900000, 15) == 900000;
  }

  /** The second event, two minutes later, counts in the same bucket. */
  lemma SecondEvent()
    ensures Step(15, map[OlderKey() := OlderRecord().(count := 1)], Events()[1]) == map[OlderKey() := OlderRecord()]
  {
    ParseDescribe("A", "1");
    assert Truncate(900119, 15) == 900000;
  }

  /** The third event, at T0+16min, opens the next bucket. */
  lemma ThirdEvent()
    ensures Step(15, map[OlderKey() := OlderRecord()], Events()[2])
         == map[OlderKey() := OlderRecord(), (Describe("A", "1"), 900900) := GateCount("A", "1", 45.0, 10.0, 900900, 901799, 1)]
  {
    ParseDescribe("A", "1");
    assert Truncate(900959, 15) == 900900;
  }

  /** The first two events share the bucket of T0+1s, the third starts the
      next one; only the first bucket is closed at T0 + 20 minutes. */
  lemma EventsTable()
    ensures ClosedKeys(Fold(15, map[], Events()), Cutoff(899999 + 1200, 15)) == {OlderKey()}
    ensures Fold(15, map[], Events())[OlderKey()] == OlderRecord()
  {
    var vs := Events();
    FoldThree(15, map[], vs[0], vs[1], vs[2]);
    FirstEvent();
    SecondEvent();
    ThirdEvent();
    assert vs == [vs[0], vs[1], vs[2]];
    OnlyOlderClosed();
  }

  /** At T0 + 20 minutes the cutoff is T0+5min: the bucket of T0+1s is closed,
      the one of T0+16min is not. */
  lemma OnlyOlderClosed()
    ensures ClosedKeys(map[OlderKey() := OlderRecord(), (Describe("A", "1"), 900900) := GateCount("A", "1", 45.0, 10.0, 900900, 901799, 1)],
                       Cutoff(899999 + 1200, 15)) == {OlderKey()}
  {
    assert Cutoff(899999 + 1200, 15) == 900299;
    assert OlderKey() != (Describe("A", "1"), 900900);
  }

  /**
   * Watermark T0, a 15-minute interval and now = T0 + 20 minutes; the broker
   * holds three events of "Parking: A, Gate: 1" at T0+1s, T0+2min and
   * T0+16min. One request is made, and the only record written is the older
   * bucket with count 2 and the coordinates swapped; the newer bucket is
   * still open.
   */
  method EndToEnd() returns (result: Outcome<RunError>, requests: seq<(int, nat)>, written: seq<seq<GateCount>>)
    ensures result == Pass
    ensures requests == [(900000, 0)]
    ensures written == [[OlderRecord()]]
  {
    var t0 := 899999;
    var fetcher := new DataFetcher(Events(), map[]);
    var persistor := new DataPersistor(Success(t0), None);
    var job := new FetchAndPush(fetcher, persistor, 15);
    result := job.Execute(t0 + 1200);
    requests, written := fetcher.calls, persistor.writes;
    ObservedFromAll(Events(), t0 + 1);
    assert LastPage(|Events()|) == 0;
    assert requests == [(900000, 0)];
    EventsTable();
    SingleClosed(Fold(15, map[], Events()), Cutoff(t0 + 1200, 15), OlderKey(), written[0]);
  }

  /**
   * 2400 vehicles the broker matches and no failure: exactly three requests,
   * at offsets 0, 1000 and 2000, and one write.
   */
  method ThreeRequests(vs: seq<Vehicle>) returns (requests: seq<(int, nat)>, writes: nat)
    requires |vs| == 2400 && forall i | 0 <= i < |vs| :: vs[i].observedAt >= 1
    ensures requests == [(1, 0), (1, 1000), (1, 2000)]
    ensures writes == 1
  {
    var fetcher := new DataFetcher(vs, map[]);
    var persistor := new DataPersistor(Success(0), None);
    var job := new FetchAndPush(fetcher, persistor, 15);
    var result := job.Execute(1000000);
    requests, writes := fetcher.calls, |persistor.writes|;
    ObservedFromAll(vs, 1);
    ThreePages(1, vs);
  }
}
