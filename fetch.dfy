// The values that cross the boundary between the subscription loop and a
// Fetcher (fetcher.go): instants, durations and the result of one fetch.
module Fetch {

  /** An instant, in nanoseconds after Go's zero `time.Time`. */
  type Time = int

  /** The zero `time.Time`, the value `refreshTime` starts from. */
  const ZeroTime: Time := 0

  /** The largest `time.Duration` (an int64 count of nanoseconds). */
  const MaxDuration: int := 0x7FFF_FFFF_FFFF_FFFF

  datatype Option<+T> = None | Some(value: T)

  /** What one `Fetch()` reports: the feed's items with the feed's next
      refresh instant, or the error the fetch failed with. */
  datatype FetchResult<Item, Error> =
    | Success(items: seq<Item>, refresh: Time)
    | Failure(err: Error)
}
