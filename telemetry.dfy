/** The unit that flows through the ingestion pipeline, and the small helper
    types shared by every component. */
module Telemetry {

  /** A value that may be absent: a payload that did not decode, an empty read. */
  datatype Option<+T> = None | Some(value: T)

  /** One reading published by a vehicle. Instants are whole clock ticks and the
      measurements are exact reals: the model does not follow floating-point
      rounding, only which value goes where. */
  datatype Point = Point(
    timestamp: int,
    vehicleId: string,
    siteId: int,
    latitude: real,
    longitude: real,
    elevation: real,
    vibrationFrequency: real,
    compactionValue: real,
    speed: real)

  /** Number of elements of `s` that satisfy `keep`. */
  function CountWhere<T>(s: seq<T>, keep: T -> bool): (n: nat)
    ensures n <= |s|
  {
    if s == [] then 0
    else CountWhere(s[..|s| - 1], keep) + (if keep(s[|s| - 1]) then 1 else 0)
  }
}
