/**
 * The two collaborators the use case is wired to, `DataFetcher` and
 * `DataPersistor`. The fetcher is the context broker's entity query: it holds
 * the broker's vehicles and answers a page request the way the query built by
 * the NGSI-LD client asks (vehicles observed at or after a date, at most
 * `PageSize` of them from an offset). The persistor replays the datastore's
 * answers. Both log the calls made to them; nothing here talks to a network.
 */
module Ports {
  import opened Wrappers
  import opened Entities

  /** The `limit` of every page request. */
  const PageSize: int := 1000

  /** A transport or decode failure reported by a collaborator. */
  datatype Error = Error(message: string)

  /** The vehicles the `observedAt >= beginDate` filter lets through, in order. */
  function ObservedFrom(vs: seq<Vehicle>, beginDate: int): (r: seq<Vehicle>)
    ensures |r| <= |vs|
    ensures forall i | 0 <= i < |r| :: r[i].observedAt >= beginDate
    decreases |vs|
  {
    if vs == [] then []
    else
      var rest := ObservedFrom(vs[..|vs| - 1], beginDate);
      if vs[|vs| - 1].observedAt >= beginDate then rest + [vs[|vs| - 1]] else rest
  }

  /** The filter keeps exactly the vehicles observed at or after `beginDate`. */
  lemma {:induction false} ObservedFromMembers(vs: seq<Vehicle>, beginDate: int, v: Vehicle)
    ensures v in ObservedFrom(vs, beginDate) <==> v in vs && v.observedAt >= beginDate
    decreases |vs|
  {
    if vs != [] {
      var init := vs[..|vs| - 1];
      ObservedFromMembers(init, beginDate, v);
      assert vs == init + [vs[|vs| - 1]];
    }
  }

  /** When every vehicle is recent enough the filter lets all of them through,
      in order. */
  lemma {:induction false} ObservedFromAll(vs: seq<Vehicle>, beginDate: int)
    requires forall i | 0 <= i < |vs| :: vs[i].observedAt >= beginDate
    ensures ObservedFrom(vs, beginDate) == vs
    decreases |vs|
  {
    if vs != [] {
      var init := vs[..|vs| - 1];
      ObservedFromAll(init, beginDate);
      assert vs == init + [vs[|vs| - 1]];
    }
  }

  /** At most `PageSize` vehicles of `vs` starting at `offset`. */
  function Window(vs: seq<Vehicle>, offset: nat): (page: seq<Vehicle>)
    ensures |page| <= PageSize
    ensures offset + PageSize <= |vs| ==> |page| == PageSize
    ensures offset + PageSize > |vs| ==> offset + |page| == |vs| || (offset > |vs| && page == [])
  {
    if offset >= |vs| then []
    else if offset + PageSize <= |vs| then vs[offset..offset + PageSize]
    else vs[offset..]
  }

  /** The broker. `outages` maps the offsets at which a request fails to the
      error it reports. */
  class DataFetcher {
    const vehicles: seq<Vehicle>
    const outages: map<nat, Error>
    var calls: seq<(int, nat)>

    constructor (vehicles: seq<Vehicle>, outages: map<nat, Error>)
      ensures this.vehicles == vehicles && this.outages == outages && calls == []
    {
      this.vehicles := vehicles;
      this.outages := outages;
      calls := [];
    }

    /** The answer to a page request. */
    function Answer(beginDate: int, offset: nat): Result<seq<Vehicle>, Error> {
      if offset in outages then Failure(outages[offset])
      else Success(Window(ObservedFrom(vehicles, beginDate), offset))
    }

    /** The page of vehicles observed at or after `beginDate` from `offset` on. */
    method FetchData(beginDate: int, offset: nat) returns (r: Result<seq<Vehicle>, Error>)
      modifies this
      ensures calls == old(calls) + [(beginDate, offset)]
      ensures r == Answer(beginDate, offset)
    {
      calls := calls + [(beginDate, offset)];
      r := Answer(beginDate, offset);
    }
  }

  /** The datastore: reports the end of the newest stored bucket (or an error)
      and answers every write with `writeFailure`; `writes` logs the records
      handed to each `WriteData` call. */
  class DataPersistor {
    const lastUpdate: Result<int, Error>
    const writeFailure: Option<Error>
    var writes: seq<seq<GateCount>>

    constructor (lastUpdate: Result<int, Error>, writeFailure: Option<Error>)
      ensures this.lastUpdate == lastUpdate && this.writeFailure == writeFailure && writes == []
    {
      this.lastUpdate := lastUpdate;
      this.writeFailure := writeFailure;
      writes := [];
    }

    method GetLastUpdate() returns (r: Result<int, Error>)
      ensures r == lastUpdate
    {
      r := lastUpdate;
    }

    method WriteData(data: seq<GateCount>) returns (err: Option<Error>)
      modifies this
      ensures writes == old(writes) + [data]
      ensures err == writeFailure
    {
      writes := writes + [data];
      err := writeFailure;
    }
  }
}
