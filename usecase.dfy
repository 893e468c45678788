/**
 * The fetch-and-push use case: read the watermark, page through the broker's
 * vehicles folding each page into one run-wide table, and write the records
 * of the closed buckets to the datastore in one call.
 */
module Usecase {
  import opened Wrappers
  import opened Entities
  import opened Description
  import opened TimeBucket
  import opened Aggregation
  import opened Ports
  import opened Pagination
  import opened Finalisation

  /** Why a run failed, wrapping the collaborator's error. */
  datatype RunError =
    | CantGetLastUpdate(cause: Error)
    | CantFetchData(cause: Error)
    | CantWriteData(cause: Error)

  /** The run-wide aggregation table, shared by reference between `Execute`
      and `Aggregate` like the Go map. */
  class CountMap {
    var entries: Table

    constructor ()
      ensures entries == map[]
    {
      entries := map[];
    }
  }

  /** The records of `table` whose bucket begins strictly before `cutoff`, in
      the order the keys happen to be visited; `keys` are their keys. */
  method CollectClosed(table: Table, cutoff: int) returns (records: seq<GateCount>, ghost keys: seq<Key>)
    ensures Enumerates(table, cutoff, keys, records)
    ensures |records| == |ClosedKeys(table, cutoff)|
    ensures forall i | 0 <= i < |records| :: records[i] in table.Values && records[i].beginObservation < cutoff
  {
    records, keys := [], [];
    var remaining := table.Keys;
    while remaining != {}
      invariant remaining <= table.Keys
      invariant |keys| == |records|
      invariant forall i | 0 <= i < |keys| ::
        keys[i] in ClosedKeys(table, cutoff) && keys[i] !in remaining && records[i] == table[keys[i]]
      invariant forall i, j | 0 <= i < j < |keys| :: keys[i] != keys[j]
      invariant forall k | k in ClosedKeys(table, cutoff) && k !in remaining :: k in keys
      decreases remaining
    {
      var key :| key in remaining;
      var gateCount := table[key];
      if gateCount.beginObservation < cutoff {
        records := records + [gateCount];
        keys := keys + [key];
      }
      remaining := remaining - {key};
    }
    ListingLength(table, cutoff, keys, records);
  }

  class FetchAndPush {
    const fetcher: DataFetcher
    const persistor: DataPersistor
    /** Bucket width in minutes. */
    const aggregateInterval: int

    predicate Valid() {
      aggregateInterval > 0
    }

    constructor (fetcher: DataFetcher, persistor: DataPersistor, aggregateInterval: int)
      requires aggregateInterval > 0
      ensures this.fetcher == fetcher && this.persistor == persistor
      ensures this.aggregateInterval == aggregateInterval && Valid()
    {
      this.fetcher := fetcher;
      this.persistor := persistor;
      this.aggregateInterval := aggregateInterval;
    }

    /** Folds `vehicles` into `countMap` in place and hands the same table back;
        it never reports an error. */
    method Aggregate(vehicles: seq<Vehicle>, countMap: CountMap) returns (result: CountMap, err: Option<Error>)
      requires Valid()
      modifies countMap
      ensures result == countMap && err == None
      ensures countMap.entries == Fold(aggregateInterval, old(countMap.entries), vehicles)
    {
      for i := 0 to |vehicles|
        invariant countMap.entries == Fold(aggregateInterval, old(countMap.entries), vehicles[..i])
      {
        assert vehicles[..i + 1][..i] == vehicles[..i];
        var v := vehicles[i];
        var beginDate := Truncate(v.observedAt, aggregateInterval);
        var matches := Parse(v.description);
        if matches.None? {
          // logged and skipped
          continue;
        }
        var (parking, gate) := matches.value;
        var key := (v.description, beginDate);
        var gateCount: GateCount;
        if key in countMap.entries {
          gateCount := countMap.entries[key];
        } else {
          gateCount := GateCount(parking, gate, v.coordinates[1], v.coordinates[0],
                                 beginDate, BucketEnd(beginDate, aggregateInterval), 0);
        }
        gateCount := gateCount.(count := gateCount.count + 1);
        countMap.entries := countMap.entries[key := gateCount];
      }
      assert vehicles[..|vehicles|] == vehicles;
      result, err := countMap, None;
    }

    /**
     * The paging loop of a run: page k is requested at offset PageSize*k and
     * folded into one table until a page shorter than PageSize arrives; the
     * first failing call ends the loop with its error. Without a failure the
     * table is the fold of every vehicle the broker matches, each once and in
     * the broker's order.
     */
    method FetchAndAggregate(beginDate: int) returns (countMap: CountMap, failure: Option<Error>)
      requires Valid()
      modifies fetcher
      ensures fresh(countMap)
      ensures var vs := ObservedFrom(fetcher.vehicles, beginDate);
        var stop := FirstOutage(fetcher.outages, 0, LastPage(|vs|));
        && fetcher.calls == old(fetcher.calls) + Calls(beginDate, NumCalls(|vs|, fetcher.outages))
        && (stop.Some? ==> failure == Some(fetcher.outages[PageSize * stop.value]))
        && (stop.None? ==> failure == None && countMap.entries == Fold(aggregateInterval, map[], vs))
    {
      var offset: nat := 0;
      countMap := new CountMap();
      ghost var vs := ObservedFrom(fetcher.vehicles, beginDate);
      ghost var last := LastPage(|vs|);
      ghost var k: nat := 0;
      assert vs[..0] == [];
      while true
        invariant offset == PageSize * k && k <= last
        invariant FirstOutage(fetcher.outages, 0, last) == FirstOutage(fetcher.outages, k, last)
        invariant fetcher.calls == Log(old(fetcher.calls), beginDate, k)
        invariant fresh(countMap)
        invariant countMap.entries == Fold(aggregateInterval, map[], vs[..offset])
        decreases last - k
      {
        var fetchedData := fetcher.FetchData(beginDate, offset);
        if fetchedData.Failure? {
          assert FirstOutage(fetcher.outages, 0, last) == Some(k) && NumCalls(|vs|, fetcher.outages) == k + 1;
          assert fetcher.calls == old(fetcher.calls) + Calls(beginDate, k + 1) by {
            LogCalls(old(fetcher.calls), beginDate, k + 1);
          }
          return countMap, Some(fetchedData.error);
        }
        var page := fetchedData.value;
        var err;
        countMap, err := Aggregate(page, countMap);
        if err.Some? {
          assert false;
        }
        assert countMap.entries == Fold(aggregateInterval, map[], vs[..offset] + page) by {
          FoldConcat(aggregateInterval, map[], vs[..offset], page);
        }
        WindowsCover(vs, k);
        if |page| < PageSize {
          assert k == last;
          assert FirstOutage(fetcher.outages, 0, last) == None && NumCalls(|vs|, fetcher.outages) == k + 1;
          assert fetcher.calls == old(fetcher.calls) + Calls(beginDate, k + 1) by {
            LogCalls(old(fetcher.calls), beginDate, k + 1);
          }
          assert countMap.entries == Fold(aggregateInterval, map[], vs);
          break;
        }
        offset := offset + PageSize;
        k := k + 1;
      }
      failure := None;
    }

    /**
     * One run at instant `now`. A failing watermark read ends it; a watermark
     * whose next second is after the cutoff ends it successfully with nothing
     * fetched or written; otherwise it runs the paging loop and, if no call
     * failed, writes the closed records of the table of all fetched vehicles
     * in one call.
     */
    method Execute(now: int) returns (result: Outcome<RunError>)
      requires Valid()
      modifies fetcher, persistor
      ensures persistor.lastUpdate.Failure? ==>
        && result == Fail(CantGetLastUpdate(persistor.lastUpdate.error))
        && fetcher.calls == old(fetcher.calls)
        && persistor.writes == old(persistor.writes)
      ensures persistor.lastUpdate.Success? && NoClosedWindow(persistor.lastUpdate.value, now, aggregateInterval) ==>
        && result == Pass
        && fetcher.calls == old(fetcher.calls)
        && persistor.writes == old(persistor.writes)
      ensures persistor.lastUpdate.Success? && !NoClosedWindow(persistor.lastUpdate.value, now, aggregateInterval) ==>
        var vs := ObservedFrom(fetcher.vehicles, persistor.lastUpdate.value + 1);
        var stop := FirstOutage(fetcher.outages, 0, LastPage(|vs|));
        && fetcher.calls == old(fetcher.calls) + Calls(persistor.lastUpdate.value + 1, NumCalls(|vs|, fetcher.outages))
        && (stop.Some? ==>
              && result == Fail(CantFetchData(fetcher.outages[PageSize * stop.value]))
              && persistor.writes == old(persistor.writes))
        && (stop.None? ==>
              && |persistor.writes| == |old(persistor.writes)| + 1
              && persistor.writes[..|old(persistor.writes)|] == old(persistor.writes)
              && Lists(Fold(aggregateInterval, map[], vs), Cutoff(now, aggregateInterval),
                       persistor.writes[|old(persistor.writes)|])
              && result == if persistor.writeFailure.Some? then Fail(CantWriteData(persistor.writeFailure.value)) else Pass)
    {
      var lastUpdate := persistor.GetLastUpdate();
      if lastUpdate.Failure? {
        return Fail(CantGetLastUpdate(lastUpdate.error));
      }
      var beginDate := lastUpdate.value + 1;
      if beginDate > Cutoff(now, aggregateInterval) {
        // no new data
        return Pass;
      }

      var countMap, fetchErr := FetchAndAggregate(beginDate);
      if fetchErr.Some? {
        return Fail(CantFetchData(fetchErr.value));
      }

      // keep only the closed buckets
      var vehicleRecords, keys := CollectClosed(countMap.entries, Cutoff(now, aggregateInterval));

      var writeErr := persistor.WriteData(vehicleRecords);
      if writeErr.Some? {
        return Fail(CantWriteData(writeErr.value));
      }
      return Pass;
    }
  }

  /** The constructor's guard: a missing collaborator or a non-positive
      interval is refused. */
  method NewFetchAndPush(fetcher: DataFetcher?, persistor: DataPersistor?, aggregateInterval: int)
    returns (r: Result<FetchAndPush, string>)
    ensures r.Failure? <==> fetcher == null || persistor == null || aggregateInterval <= 0
    ensures r.Failure? ==> r.error == "all parameters must be non-nil"
    ensures r.Success? ==> && fresh(r.value) && r.value.Valid()
                           && r.value.fetcher == fetcher && r.value.persistor == persistor
                           && r.value.aggregateInterval == aggregateInterval
  {
    if fetcher == null || persistor == null || aggregateInterval <= 0 {
      return Failure("all parameters must be non-nil");
    }
    var fp := new FetchAndPush(fetcher, persistor, aggregateInterval);
    return Success(fp);
  }
}
