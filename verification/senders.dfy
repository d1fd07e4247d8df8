/** The two per-file senders of the loader, with the network replaced by
    the status the server answers. `load_bundle` posts a whole bundle file;
    `load_resource` reads an ndjson file line by line and PUTs each record
    to `url/resourceType/id`. Both either return True or raise. */
module Senders {
  import opened Common

  /** A sender that never returns False: it returns True or raises. */
  predicate SenderShaped(o: Outcome) {
    o != Returned(false)
  }

  // ---------------------------------------------------------------------
  // load_bundle

  /** What one bundle upload does: whether it logs the response body as an
      error, and how the sender task ends. */
  datatype BundleSend = BundleSend(logsError: bool, outcome: Outcome)

  /** One POST of the raw bundle file answered with status. Any status but
      200 is logged, yet only a status of 400 or more makes the sender
      task raise. */
  function LoadBundle(status: int): (r: BundleSend)
    ensures r.logsError <==> status != 200
    ensures r.outcome.Raised? <==> RaisesForStatus(status)
    ensures r.outcome.Raised? ==> r.outcome.error == HttpStatus(status)
    ensures SenderShaped(r.outcome)
  {
    BundleSend(status != 200,
      if RaisesForStatus(status) then Raised(HttpStatus(status)) else Returned(true))
  }

  // ---------------------------------------------------------------------
  // load_resource

  /** One line of an ndjson file after `orjson.loads`: not JSON at all, a
      JSON value that is not an object, or an object whose `resourceType`
      and `id` members may be missing. */
  datatype Line =
    | NotJson
    | NotObject
    | Object(resourceType: Option<string>, id: Option<string>)

  /** The PUT target `url/resourceType/id` of a line, or the exception
      reading the line raises. `resourceType` is looked up before `id`. */
  function ItemUrl(url: string, line: Line): (r: Result<string>)
    ensures r.Success? <==> line.Object? && line.resourceType.Some? && line.id.Some?
    ensures r.Success? ==>
      r.value == url + "/" + line.resourceType.value + "/" + line.id.value
    ensures line.NotJson? ==> r == Failure(InvalidJson)
    ensures line.NotObject? ==> r == Failure(NotAnObject)
    ensures line.Object? && line.resourceType.None? ==> r == Failure(MissingKey("resourceType"))
    ensures line.Object? && line.resourceType.Some? && line.id.None? ==> r == Failure(MissingKey("id"))
  {
    match line
    case NotJson => Failure(InvalidJson)
    case NotObject => Failure(NotAnObject)
    case Object(rt, id) =>
      if rt.None? then Failure(MissingKey("resourceType"))
      else if id.None? then Failure(MissingKey("id"))
      else Success(url + "/" + rt.value + "/" + id.value)
  }

  /** Line k stops the upload: it cannot be read, or its PUT (the k-th
      request of the file) is answered with a status of 400 or more. */
  predicate Halts(url: string, lines: seq<Line>, status: nat -> int, k: nat)
    requires k < |lines|
  {
    ItemUrl(url, lines[k]).Failure? || RaisesForStatus(status(k))
  }

  /** The exception a halting line raises. */
  function HaltError(url: string, line: Line, status: int): Error {
    var u := ItemUrl(url, line);
    if u.Failure? then u.error else HttpStatus(status)
  }

  /** The urls among puts (the first issued as request number i) whose
      status is above 201, which the sender prints. */
  function Noisy(puts: seq<string>, status: nat -> int, i: nat): seq<string>
    decreases |puts|
  {
    if |puts| == 0 then []
    else (if status(i) > 201 then [puts[0]] else []) + Noisy(puts[1..], status, i + 1)
  }

  /** The progress of the loop over the lines from line i on: PUT urls
      issued, urls printed for a status above 201, records counted, and
      the exception that ended the loop, if any. */
  datatype Trace = Trace(puts: seq<string>, logged: seq<string>, count: nat, error: Option<Error>)

  function Put(url: string, lines: seq<Line>, status: nat -> int, i: nat): (t: Trace)
    requires i <= |lines|
    ensures t.count <= |t.puts| <= |lines| - i
    ensures t.error.None? ==> t.count == |t.puts| == |lines| - i
    decreases |lines| - i
  {
    if i == |lines| then Trace([], [], 0, None)
    else
      match ItemUrl(url, lines[i])
      case Failure(e) =>
        Trace([], [], 0, Some(e))
      case Success(u) =>
        var s := status(i);
        var logged := if s > 201 then [u] else [];
        if RaisesForStatus(s) then
          Trace([u], logged, 0, Some(HttpStatus(s)))
        else
          var rest := Put(url, lines, status, i + 1);
          Trace([u] + rest.puts, logged + rest.logged, 1 + rest.count, rest.error)
  }

  /** One turn of the loop over a line that does not halt: its url is
      PUT first, it is counted, and the loop goes on with the next line. */
  lemma PutStep(url: string, lines: seq<Line>, status: nat -> int, i: nat)
    requires i < |lines|
    requires !Halts(url, lines, status, i)
    ensures var t := Put(url, lines, status, i);
      var rest := Put(url, lines, status, i + 1);
      && t.puts == [ItemUrl(url, lines[i]).value] + rest.puts
      && t.count == 1 + rest.count
      && t.error == rest.error
  {
  }

  /** The turn over a halting line ends the loop: the line's url is PUT
      when it could be read, nothing is counted, and its exception ends
      the loop. */
  lemma PutHalt(url: string, lines: seq<Line>, status: nat -> int, i: nat)
    requires i < |lines|
    requires Halts(url, lines, status, i)
    ensures var t := Put(url, lines, status, i);
      var u := ItemUrl(url, lines[i]);
      && t.puts == (if u.Success? then [u.value] else [])
      && t.count == 0
      && t.error == Some(HaltError(url, lines[i], status(i)))
  {
  }

  /** The loop ends with an exception exactly when some line from i on
      halts. */
  lemma {:induction false} PutFailsIffSomeLineHalts(url: string, lines: seq<Line>, status: nat -> int, i: nat)
    requires i <= |lines|
    ensures Put(url, lines, status, i).error.Some? <==>
      exists k :: i <= k < |lines| && Halts(url, lines, status, k)
    decreases |lines| - i
  {
    if i < |lines| {
      if Halts(url, lines, status, i) {
        PutHalt(url, lines, status, i);
      } else {
        PutStep(url, lines, status, i);
        PutFailsIffSomeLineHalts(url, lines, status, i + 1);
        if exists k :: i <= k < |lines| && Halts(url, lines, status, k) {
          var k :| i <= k < |lines| && Halts(url, lines, status, k);
          assert i + 1 <= k;
        }
      }
    }
  }

  /** What uploading one ndjson file does. */
  datatype Upload = Upload(puts: seq<string>, logged: seq<string>, count: nat, outcome: Outcome)

  /** `load_resource`: lines are the file's lines and status(k) the answer
      to its k-th PUT. After the loop the average divides by count, so a
      file with no line raises ZeroDivisionError. */
  function LoadResource(url: string, lines: seq<Line>, status: nat -> int): (r: Upload)
    ensures SenderShaped(r.outcome)
    ensures r.outcome.Raised? <==>
      |lines| == 0 || exists k :: 0 <= k < |lines| && Halts(url, lines, status, k)
    ensures r.count <= |r.puts| <= |lines|
  {
    var t := Put(url, lines, status, 0);
    PutFailsIffSomeLineHalts(url, lines, status, 0);
    Upload(t.puts, t.logged, t.count,
      if t.error.Some? then Raised(t.error.value)
      else if t.count == 0 then Raised(ZeroCount)
      else Returned(true))
  }

  /** The loop prints exactly the urls it PUT whose status is above 201,
      in the order it PUT them. */
  lemma {:induction false} PutLogsNoisy(url: string, lines: seq<Line>, status: nat -> int, i: nat)
    requires i <= |lines|
    ensures Put(url, lines, status, i).logged == Noisy(Put(url, lines, status, i).puts, status, i)
    decreases |lines| - i
  {
    if i < |lines| {
      var t := Put(url, lines, status, i);
      var u := ItemUrl(url, lines[i]);
      if u.Success? {
        if RaisesForStatus(status(i)) {
          assert t.puts == [u.value];
          assert t.puts[1..] == [];
        } else {
          PutLogsNoisy(url, lines, status, i + 1);
          var rest := Put(url, lines, status, i + 1);
          assert t.puts[1..] == rest.puts;
        }
      }
    }
  }

  /** Up to the first halting line j (or the end when j == |lines|), every
      line is counted; line j is PUT too when it could be read, and its
      exception ends the loop. */
  lemma {:induction false} PutCountsToFirstHalt(url: string, lines: seq<Line>, status: nat -> int, i: nat, j: nat)
    requires i <= j <= |lines|
    requires forall k :: i <= k < j ==> !Halts(url, lines, status, k)
    requires j < |lines| ==> Halts(url, lines, status, j)
    ensures var t := Put(url, lines, status, i);
      && t.count == j - i
      && |t.puts| == j - i + (if j < |lines| && ItemUrl(url, lines[j]).Success? then 1 else 0)
      && t.error == (if j < |lines| then Some(HaltError(url, lines[j], status(j))) else None)
    decreases j - i
  {
    if i == j {
      if j < |lines| {
        PutHalt(url, lines, status, i);
      }
    } else {
      PutStep(url, lines, status, i);
      PutCountsToFirstHalt(url, lines, status, i + 1, j);
    }
  }

  /** When no line from i to k-1 halts and line k can be read, the loop
      PUTs line k's url as its (k-i)-th request. */
  lemma {:induction false} PutUrlAt(url: string, lines: seq<Line>, status: nat -> int, i: nat, k: nat)
    requires i <= k < |lines|
    requires forall m :: i <= m < k ==> !Halts(url, lines, status, m)
    requires ItemUrl(url, lines[k]).Success?
    ensures k - i < |Put(url, lines, status, i).puts|
    ensures ItemUrl(url, lines[k]) == Success(Put(url, lines, status, i).puts[k - i])
    decreases k - i
  {
    if k == i {
      if Halts(url, lines, status, i) {
        PutHalt(url, lines, status, i);
      } else {
        PutStep(url, lines, status, i);
      }
    } else {
      PutStep(url, lines, status, i);
      PutUrlAt(url, lines, status, i + 1, k);
    }
  }

  /** Up to the first halting line j, the k-th PUT goes to line k's url,
      and line j's own PUT, when it could be read, to line j's. */
  lemma PutUrlsToFirstHalt(url: string, lines: seq<Line>, status: nat -> int, i: nat, j: nat)
    requires i <= j <= |lines|
    requires forall k :: i <= k < j ==> !Halts(url, lines, status, k)
    ensures var t := Put(url, lines, status, i);
      && (forall k :: i <= k < j ==> k - i < |t.puts| && ItemUrl(url, lines[k]) == Success(t.puts[k - i]))
      && (j < |lines| && ItemUrl(url, lines[j]).Success? ==>
            j - i < |t.puts| && ItemUrl(url, lines[j]) == Success(t.puts[j - i]))
  {
    forall k | i <= k < j
      ensures k - i < |Put(url, lines, status, i).puts|
      ensures ItemUrl(url, lines[k]) == Success(Put(url, lines, status, i).puts[k - i])
    {
      assert !Halts(url, lines, status, k);
      PutUrlAt(url, lines, status, i, k);
    }
    if j < |lines| && ItemUrl(url, lines[j]).Success? {
      PutUrlAt(url, lines, status, i, j);
    }
  }

  /** The loop stops at the first halting line j (or runs to the end when
      j == |lines|): every earlier line was PUT and counted, line j was PUT
      too when it could be read, and the exception is line j's. */
  lemma PutStopsAtFirstHalt(url: string, lines: seq<Line>, status: nat -> int, i: nat, j: nat)
    requires i <= j <= |lines|
    requires forall k :: i <= k < j ==> !Halts(url, lines, status, k)
    requires j < |lines| ==> Halts(url, lines, status, j)
    ensures var t := Put(url, lines, status, i);
      && t.count == j - i
      && |t.puts| == j - i + (if j < |lines| && ItemUrl(url, lines[j]).Success? then 1 else 0)
      && (forall k :: i <= k < j ==> ItemUrl(url, lines[k]) == Success(t.puts[k - i]))
      && (j < |lines| && ItemUrl(url, lines[j]).Success? ==> ItemUrl(url, lines[j]) == Success(t.puts[j - i]))
      && t.error == (if j < |lines| then Some(HaltError(url, lines[j], status(j))) else None)
  {
    PutCountsToFirstHalt(url, lines, status, i, j);
    PutUrlsToFirstHalt(url, lines, status, i, j);
  }

  /** load_resource in full: with j the first halting line, count is j,
      the PUTs are those of lines 0..j-1 plus line j's when it could be
      read, and the file fails with line j's exception, or, when no line
      halts, with ZeroDivisionError exactly when the file is empty. */
  lemma LoadResourceStopsAtFirstHalt(url: string, lines: seq<Line>, status: nat -> int, j: nat)
    requires j <= |lines|
    requires forall k :: 0 <= k < j ==> !Halts(url, lines, status, k)
    requires j < |lines| ==> Halts(url, lines, status, j)
    ensures var r := LoadResource(url, lines, status);
      && r.count == j
      && |r.puts| == j + (if j < |lines| && ItemUrl(url, lines[j]).Success? then 1 else 0)
      && (forall k :: 0 <= k < j ==> ItemUrl(url, lines[k]) == Success(r.puts[k]))
      && r.logged == Noisy(r.puts, status, 0)
      && r.outcome == (if j < |lines| then Raised(HaltError(url, lines[j], status(j)))
                       else if j == 0 then Raised(ZeroCount)
                       else Returned(true))
  {
    PutStopsAtFirstHalt(url, lines, status, 0, j);
    PutLogsNoisy(url, lines, status, 0);
  }

  /** N well-formed records all answered below 400: exactly N PUTs, the
      k-th to url/resourceType_k/id_k, count N, and the file succeeds
      unless it is empty. */
  lemma LoadWellFormedFile(url: string, lines: seq<Line>, status: nat -> int)
    requires forall k :: 0 <= k < |lines| ==>
      lines[k].Object? && lines[k].resourceType.Some? && lines[k].id.Some?
    requires forall k :: 0 <= k < |lines| ==> !RaisesForStatus(status(k))
    ensures var r := LoadResource(url, lines, status);
      && r.count == |lines| == |r.puts|
      && (forall k :: 0 <= k < |lines| ==>
            r.puts[k] == url + "/" + lines[k].resourceType.value + "/" + lines[k].id.value)
      && (r.outcome == Returned(true) <==> |lines| > 0)
  {
    LoadResourceStopsAtFirstHalt(url, lines, status, |lines|);
  }

  /** The three-good-lines-then-garbage file: three PUTs, count 3, and the
      file fails on the line that is not JSON. */
  lemma ThreeRecordsThenGarbage(url: string, status: nat -> int)
    requires forall k: nat :: status(k) == 201
    ensures var line := Object(Some("Patient"), Some("p"));
      var r := LoadResource(url, [line, line, line, NotJson], status);
      r.count == 3 && |r.puts| == 3 && r.outcome == Raised(InvalidJson)
  {
    var line := Object(Some("Patient"), Some("p"));
    LoadResourceStopsAtFirstHalt(url, [line, line, line, NotJson], status, 3);
  }
}
