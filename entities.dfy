/**
 * The records exchanged by the fetch-and-push use case: the vehicle events
 * read from the context broker and the per-bucket gate counts written to the
 * datastore. Only the fields the use case reads are mirrored.
 */
module Entities {

  /** A coordinate component. The use case only copies coordinates, so no
      floating-point arithmetic is modelled. */
  type Coordinate = real

  /** `Location.Value.Coordinates`, longitude then latitude. The use case reads
      indices 0 and 1 without a guard when an event opens a new bucket, so
      every event of the model carries at least two. */
  type Coordinates = s: seq<Coordinate> | |s| >= 2 witness [0.0, 0.0]

  /** One element of `Vehicles`: `Description.Value`, `Location.Value.Coordinates`
      and `Location.ObservedAt`, the latter in seconds since Go's zero time. */
  datatype Vehicle = Vehicle(
    description: string,
    coordinates: Coordinates,
    observedAt: int)

  /** The aggregated record for one (parking, gate, bucket). Begin and end are
      seconds since Go's zero time. */
  datatype GateCount = GateCount(
    parking: string,
    gate: string,
    coordinate1: Coordinate,
    coordinate2: Coordinate,
    beginObservation: int,
    endObservation: int,
    count: int)
}
