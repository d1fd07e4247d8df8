/** Shared vocabulary of the loader and extractor model: optional values,
    the exceptions the scripts can raise, the value a sender task ends with,
    and flattening of nested sequences. */
module Common {

  datatype Option<+T> = None | Some(value: T)

  /** The Python exceptions that end an operation of the scripts. */
  datatype Error =
    | ChunkSizeZero            // ValueError: range() with a step of 0
    | InvalidJson              // orjson.JSONDecodeError for a line that is not JSON
    | NotAnObject              // TypeError: indexing a JSON value that is not an object
    | MissingKey(key: string)  // KeyError on a JSON object
    | HttpStatus(status: int)  // ClientResponseError / HTTPError from raise_for_status
    | ZeroCount                // ZeroDivisionError in the per-record average
    | NoOwnerResource          // AttributeError: the owning entry has no resource

  datatype Result<+T> = Success(value: T) | Failure(error: Error)

  /** How an awaited sender task ends: it returns a boolean or raises. */
  datatype Outcome = Returned(value: bool) | Raised(error: Error)

  /** aiohttp's `raise_for_status`, used by the loader: it raises for every
      status of 400 or more. */
  predicate RaisesForStatus(status: int) {
    status >= 400
  }

  /** requests' `raise_for_status`, used by the extractor: it raises only
      for a client error (4xx) or a server error (5xx). */
  predicate RequestsRaisesForStatus(status: int) {
    400 <= status < 600
  }

  /** Python truthiness of an optional string: present and non-empty. */
  predicate Truthy(s: Option<string>) {
    s.Some? && |s.value| > 0
  }

  /** Concatenation of a sequence of sequences, in order. */
  function Concat<T>(ss: seq<seq<T>>): seq<T>
    decreases |ss|
  {
    if |ss| == 0 then [] else ss[0] + Concat(ss[1..])
  }

  lemma {:induction false} ConcatAppend<T>(ss: seq<seq<T>>, ts: seq<seq<T>>)
    ensures Concat(ss + ts) == Concat(ss) + Concat(ts)
    decreases |ss|
  {
    if |ss| == 0 {
      assert ss + ts == ts;
    } else {
      assert (ss + ts)[1..] == ss[1..] + ts;
      ConcatAppend(ss[1..], ts);
    }
  }
}
