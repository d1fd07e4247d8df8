/** `load_resources` and `load_bundles`: the paths are cut into chunks,
    every path of a chunk gets a sender task, the chunk's tasks are awaited
    with `all([...])`, and the next chunk starts only after that. The two
    functions differ only in the sender, so the loop is modelled once, over
    an oracle telling how each path's task ends. Completion order only
    decides WHICH failing task's exception surfaces, so the tasks of a chunk
    are folded in path order. */
module Dispatch {
  import opened Common
  import opened Chunker
  import opened Senders

  type Path = string

  /** How a run ends: it returns `ok`, a sender task raised (the exception
      that surfaces is one of the failing paths', whichever completes first),
      or `_chunker` itself raised. */
  datatype RunResult =
    | Finished(ok: bool)
    | Aborted(failing: seq<Path>)
    | Crashed(error: Error)

  /** The paths for which a task was created, in creation order, and how the
      run ended. */
  datatype Run = Run(dispatched: seq<Path>, result: RunResult)

  /** Python truthiness of `limit`: `None` and `0` disable it. */
  predicate Limited(limit: Option<nat>) {
    limit.Some? && limit.value != 0
  }

  /** No task of paths raises. */
  predicate NoneRaised(paths: seq<Path>, outcome: Path -> Outcome) {
    forall p :: p in paths ==> outcome(p).Returned?
  }

  /** The inner `for path in chunk` loop: create a task, increment count,
      and break once count equals a truthy limit. Gives the paths started
      and the new count. */
  function Start(chunk: seq<Path>, limit: Option<nat>, count: nat): (r: (seq<Path>, nat))
    ensures r.0 <= chunk
    ensures r.1 == count + |r.0|
    ensures r.0 == chunk || (Limited(limit) && r.1 == limit.value)
    ensures !Limited(limit) || count >= limit.value ==> r.0 == chunk
    ensures Limited(limit) && count < limit.value ==> r.1 == count + Min(|chunk|, limit.value - count)
    decreases |chunk|
  {
    if |chunk| == 0 then ([], count)
    else if Limited(limit) && count + 1 == limit.value then ([chunk[0]], count + 1)
    else
      var rest := Start(chunk[1..], limit, count + 1);
      assert chunk == [chunk[0]] + chunk[1..];
      ([chunk[0]] + rest.0, rest.1)
  }

  /** The started paths whose task raises, in path order. */
  function Failing(paths: seq<Path>, outcome: Path -> Outcome): (f: seq<Path>)
    ensures |f| == 0 <==> NoneRaised(paths, outcome)
    decreases |paths|
  {
    if |paths| == 0 then []
    else
      var rest := Failing(paths[1..], outcome);
      assert forall p :: p in paths <==> p == paths[0] || p in paths[1..];
      if outcome(paths[0]).Raised? then [paths[0]] + rest else rest
  }

  /** The failing paths are exactly the started paths whose task raises. */
  lemma {:induction false} FailingMembers(paths: seq<Path>, outcome: Path -> Outcome)
    ensures forall p :: p in Failing(paths, outcome) <==> p in paths && outcome(p).Raised?
    decreases |paths|
  {
    if |paths| > 0 {
      FailingMembers(paths[1..], outcome);
      assert forall p :: p in paths <==> p == paths[0] || p in paths[1..];
    }
  }

  /** `all([await t for t in as_completed(tasks)])` when no task raised. */
  predicate AllTrue(paths: seq<Path>, outcome: Path -> Outcome) {
    forall p :: p in paths ==> outcome(p) == Returned(true)
  }

  /** The outer loop from chunks on, with the dispatch counter count and the
      current `ok`. `ok` is REASSIGNED by every awaited chunk. */
  function Fold(chunks: seq<seq<Path>>, limit: Option<nat>, outcome: Path -> Outcome,
                count: nat, ok: bool): (r: Run)
    ensures r.result.Finished? || r.result.Aborted?
    ensures Limited(limit) && count < limit.value ==> count + |r.dispatched| <= limit.value
    decreases |chunks|
  {
    if |chunks| == 0 then Run([], Finished(ok))
    else
      var (started, count') := Start(chunks[0], limit, count);
      var failing := Failing(started, outcome);
      assert Concat(chunks) == chunks[0] + Concat(chunks[1..]);
      if |failing| > 0 then Run(started, Aborted(failing))
      else
        var ok' := AllTrue(started, outcome);
        if Limited(limit) && count' == limit.value then Run(started, Finished(ok'))
        else
          var rest := Fold(chunks[1..], limit, outcome, count', ok');
          Run(started + rest.dispatched, rest.result)
  }

  /** An aborted run names at least one failing path, and every path it
      names was dispatched and its task raised. */
  lemma {:induction false} FoldAbortsOnRaisedPaths(chunks: seq<seq<Path>>, limit: Option<nat>,
                                                   outcome: Path -> Outcome, count: nat, ok: bool)
    ensures var r := Fold(chunks, limit, outcome, count, ok);
      r.result.Aborted? ==>
        |r.result.failing| > 0 &&
        forall p :: p in r.result.failing ==> p in r.dispatched && outcome(p).Raised?
    decreases |chunks|
  {
    if |chunks| > 0 {
      var (started, count') := Start(chunks[0], limit, count);
      FailingMembers(started, outcome);
      if NoneRaised(started, outcome) && !(Limited(limit) && count' == limit.value) {
        FoldAbortsOnRaisedPaths(chunks[1..], limit, outcome, count', AllTrue(started, outcome));
      }
    }
  }

  /** The run dispatches a prefix of the concatenated chunks. */
  lemma {:induction false} FoldDispatchesPrefix(chunks: seq<seq<Path>>, limit: Option<nat>,
                                                outcome: Path -> Outcome, count: nat, ok: bool)
    ensures Fold(chunks, limit, outcome, count, ok).dispatched <= Concat(chunks)
    decreases |chunks|
  {
    if |chunks| > 0 {
      var (started, count') := Start(chunks[0], limit, count);
      assert Concat(chunks) == chunks[0] + Concat(chunks[1..]);
      if NoneRaised(started, outcome) && !(Limited(limit) && count' == limit.value) {
        FoldDispatchesPrefix(chunks[1..], limit, outcome, count', AllTrue(started, outcome));
      }
    }
  }

  /** A whole run: `_chunker` over the paths, then the loop with count 0 and
      ok True. */
  function Load(paths: seq<Path>, chunkSize: int, limit: Option<nat>, outcome: Path -> Outcome): (r: Run)
    ensures r.dispatched <= paths
    ensures chunkSize == 0 <==> r == Run([], Crashed(ChunkSizeZero))
    ensures chunkSize < 0 ==> r == Run([], Finished(true))
    ensures Limited(limit) ==> |r.dispatched| <= limit.value
  {
    match Chunk(paths, chunkSize)
    case Failure(e) => Run([], Crashed(e))
    case Success(chunks) =>
      FoldDispatchesPrefix(chunks, limit, outcome, 0, true);
      Fold(chunks, limit, outcome, 0, true)
  }

  // ---------------------------------------------------------------------
  // Properties of the fold

  /** Without a limit and with no task raising, every path is dispatched
      once, in chunk order, and the run returns the last chunk's `all`. */
  lemma {:induction false} FoldWithoutFailure(chunks: seq<seq<Path>>, limit: Option<nat>,
                                              outcome: Path -> Outcome, count: nat, ok: bool)
    requires !Limited(limit)
    requires NoneRaised(Concat(chunks), outcome)
    ensures var r := Fold(chunks, limit, outcome, count, ok);
      && r.dispatched == Concat(chunks)
      && r.result == Finished(if |chunks| == 0 then ok else AllTrue(chunks[|chunks| - 1], outcome))
    decreases |chunks|
  {
    if |chunks| > 0 {
      assert Concat(chunks) == chunks[0] + Concat(chunks[1..]);
      var started := Start(chunks[0], limit, count).0;
      assert NoneRaised(started, outcome);
      FoldWithoutFailure(chunks[1..], limit, outcome, count + |started|, AllTrue(started, outcome));
    }
  }

  /** One turn of the loop without a limit and with no task of the first
      chunk raising: the whole chunk is started and the loop goes on with
      ok reassigned to the chunk's `all`. */
  lemma FoldStep(chunks: seq<seq<Path>>, limit: Option<nat>, outcome: Path -> Outcome,
                 count: nat, ok: bool)
    requires !Limited(limit)
    requires |chunks| > 0 && NoneRaised(chunks[0], outcome)
    ensures var rest := Fold(chunks[1..], limit, outcome, count + |chunks[0]|, AllTrue(chunks[0], outcome));
      Fold(chunks, limit, outcome, count, ok) == Run(chunks[0] + rest.dispatched, rest.result)
  {
    assert Start(chunks[0], limit, count) == (chunks[0], count + |chunks[0]|);
  }

  /** One turn of the loop without a limit where a task of the first chunk
      raises: the whole chunk is started and the run is aborted with its
      failing paths. */
  lemma FoldStepAborts(chunks: seq<seq<Path>>, limit: Option<nat>, outcome: Path -> Outcome,
                       count: nat, ok: bool)
    requires !Limited(limit)
    requires |chunks| > 0 && !NoneRaised(chunks[0], outcome)
    ensures Fold(chunks, limit, outcome, count, ok) == Run(chunks[0], Aborted(Failing(chunks[0], outcome)))
  {
    assert Start(chunks[0], limit, count) == (chunks[0], count + |chunks[0]|);
  }

  lemma NoneRaisedAppend(a: seq<Path>, b: seq<Path>, outcome: Path -> Outcome)
    ensures NoneRaised(a + b, outcome) <==> NoneRaised(a, outcome) && NoneRaised(b, outcome)
  {
    assert forall p :: p in a + b <==> p in a || p in b;
  }

  /** Without a limit, the run raises exactly when some task of some chunk
      raises; it then stops after the first such chunk j: all of chunks
      0..j were dispatched, nothing later, and the failing paths are those
      of chunk j. */
  lemma {:induction false} FoldStopsAtFirstFailingChunk(chunks: seq<seq<Path>>, limit: Option<nat>,
                                                        outcome: Path -> Outcome, count: nat, ok: bool, j: nat)
    requires !Limited(limit)
    requires j < |chunks|
    requires forall i :: 0 <= i < j ==> NoneRaised(chunks[i], outcome)
    requires !NoneRaised(chunks[j], outcome)
    ensures var r := Fold(chunks, limit, outcome, count, ok);
      && r.dispatched == Concat(chunks[..j + 1])
      && r.result == Aborted(Failing(chunks[j], outcome))
    decreases j
  {
    ConcatOfPrefix(chunks, j);
    if j == 0 {
      FoldStepAborts(chunks, limit, outcome, count, ok);
      assert chunks[1..][..0] == [];
    } else {
      ShiftNoneRaised(chunks, outcome, j);
      FoldStep(chunks, limit, outcome, count, ok);
      FoldStopsAtFirstFailingChunk(chunks[1..], limit, outcome,
                                   count + |chunks[0]|, AllTrue(chunks[0], outcome), j - 1);
    }
  }

  /** The first j chunks raising nothing, seen from the second chunk on. */
  lemma ShiftNoneRaised(chunks: seq<seq<Path>>, outcome: Path -> Outcome, j: nat)
    requires 0 < j < |chunks|
    requires forall i :: 0 <= i < j ==> NoneRaised(chunks[i], outcome)
    ensures NoneRaised(chunks[0], outcome)
    ensures forall i :: 0 <= i < j - 1 ==> NoneRaised(chunks[1..][i], outcome)
    ensures chunks[1..][j - 1] == chunks[j]
  {
    forall i | 0 <= i < j - 1
      ensures NoneRaised(chunks[1..][i], outcome)
    {
      assert chunks[1..][i] == chunks[i + 1];
    }
  }

  /** Concat(chunks[..j + 1]) peels off its first chunk. */
  lemma ConcatOfPrefix<T>(chunks: seq<seq<T>>, j: nat)
    requires j < |chunks|
    ensures Concat(chunks[..j + 1]) == chunks[0] + Concat(chunks[1..][..j])
  {
    var prefix := chunks[..j + 1];
    assert prefix[1..] == chunks[1..][..j];
  }

  /** Without a limit, a run in which some path's task raises is aborted. */
  lemma {:induction false} FoldAbortsWhenSomeRaises(chunks: seq<seq<Path>>, limit: Option<nat>,
                                                    outcome: Path -> Outcome, count: nat, ok: bool)
    requires !Limited(limit)
    requires !NoneRaised(Concat(chunks), outcome)
    ensures Fold(chunks, limit, outcome, count, ok).result.Aborted?
    decreases |chunks|
  {
    var tail := chunks[1..];
    assert Concat(chunks) == chunks[0] + Concat(tail);
    NoneRaisedAppend(chunks[0], Concat(tail), outcome);
    if NoneRaised(chunks[0], outcome) {
      FoldStep(chunks, limit, outcome, count, ok);
      FoldAbortsWhenSomeRaises(tail, limit, outcome, count + |chunks[0]|, AllTrue(chunks[0], outcome));
    } else {
      FoldStepAborts(chunks, limit, outcome, count, ok);
    }
  }

  /** Without a limit the run is aborted exactly when some path's task
      raises. */
  lemma FoldAbortsIffSomeRaises(chunks: seq<seq<Path>>, limit: Option<nat>,
                                outcome: Path -> Outcome, count: nat, ok: bool)
    requires !Limited(limit)
    ensures var r := Fold(chunks, limit, outcome, count, ok);
      (r.result.Aborted? <==> !NoneRaised(Concat(chunks), outcome))
  {
    if NoneRaised(Concat(chunks), outcome) {
      FoldWithoutFailure(chunks, limit, outcome, count, ok);
    } else {
      FoldAbortsWhenSomeRaises(chunks, limit, outcome, count, ok);
    }
  }

  /** With a truthy limit and no task raising, exactly
      min(limit - count, number of paths) paths are dispatched: the run
      stops once count reaches the limit. */
  lemma {:induction false} FoldStopsAtLimit(chunks: seq<seq<Path>>, limit: Option<nat>,
                                            outcome: Path -> Outcome, count: nat, ok: bool)
    requires Limited(limit) && count < limit.value
    requires NoneRaised(Concat(chunks), outcome)
    ensures |Fold(chunks, limit, outcome, count, ok).dispatched|
            == Min(|Concat(chunks)|, limit.value - count)
    decreases |chunks|
  {
    if |chunks| > 0 {
      assert Concat(chunks) == chunks[0] + Concat(chunks[1..]);
      var (started, count') := Start(chunks[0], limit, count);
      assert NoneRaised(started, outcome);
      if count' != limit.value {
        FoldStopsAtLimit(chunks[1..], limit, outcome, count', AllTrue(started, outcome));
      }
    }
  }

  // ---------------------------------------------------------------------
  // Reassigned versus accumulated ok

  /** The same loop with `ok = ok and all(...)`: a result that remembers a
      False from any earlier chunk. */
  function CumulativeFold(chunks: seq<seq<Path>>, limit: Option<nat>, outcome: Path -> Outcome,
                          count: nat, ok: bool): Run
    decreases |chunks|
  {
    if |chunks| == 0 then Run([], Finished(ok))
    else
      var (started, count') := Start(chunks[0], limit, count);
      var failing := Failing(started, outcome);
      if |failing| > 0 then Run(started, Aborted(failing))
      else
        var ok' := ok && AllTrue(started, outcome);
        if Limited(limit) && count' == limit.value then Run(started, Finished(ok'))
        else
          var rest := CumulativeFold(chunks[1..], limit, outcome, count', ok');
          Run(started + rest.dispatched, rest.result)
  }

  /** Because the senders return True or raise, overwriting ok per chunk
      loses nothing: the run equals the one that accumulates ok. */
  lemma {:induction false} ReassignedOkIsCumulative(chunks: seq<seq<Path>>, limit: Option<nat>,
                                                    outcome: Path -> Outcome, count: nat)
    requires forall p :: SenderShaped(outcome(p))
    ensures Fold(chunks, limit, outcome, count, true) == CumulativeFold(chunks, limit, outcome, count, true)
    decreases |chunks|
  {
    if |chunks| > 0 {
      var (started, count') := Start(chunks[0], limit, count);
      if NoneRaised(started, outcome) {
        assert AllTrue(started, outcome) by {
          forall p | p in started
            ensures outcome(p) == Returned(true)
          {
            assert SenderShaped(outcome(p));
          }
        }
        ReassignedOkIsCumulative(chunks[1..], limit, outcome, count');
      }
    }
  }

  /** With a task that could return False the two differ: a False in the
      first chunk is forgotten once the second chunk succeeds. */
  lemma ReassignedOkForgetsEarlierChunks()
    ensures var outcome := (p: Path) => Returned(p != "a");
      && Fold([["a"], ["b"]], None, outcome, 0, true).result == Finished(true)
      && CumulativeFold([["a"], ["b"]], None, outcome, 0, true).result == Finished(false)
  {
    var outcome := (p: Path) => Returned(p != "a");
    assert Start(["a"], None, 0) == (["a"], 1);
    assert Start(["b"], None, 1) == (["b"], 2);
    assert !AllTrue(["a"], outcome) by {
      assert "a" in ["a"];
    }
  }

  // ---------------------------------------------------------------------
  // The two commands

  /** When no sender task raises, the last chunk's `all` is True. */
  lemma LastChunkAllTrue(chunks: seq<seq<Path>>, outcome: Path -> Outcome)
    requires |chunks| > 0
    requires forall p :: SenderShaped(outcome(p))
    requires NoneRaised(Concat(chunks), outcome)
    ensures AllTrue(chunks[|chunks| - 1], outcome)
  {
    var last := chunks[|chunks| - 1];
    assert Concat(chunks) == Concat(chunks[..|chunks| - 1]) + Concat([last]) by {
      assert chunks == chunks[..|chunks| - 1] + [last];
      ConcatAppend(chunks[..|chunks| - 1], [last]);
    }
    assert Concat([last]) == last + Concat([]);
    forall p | p in last
      ensures outcome(p) == Returned(true)
    {
      assert SenderShaped(outcome(p));
    }
  }

  /** The top-level result of a run with a positive chunk size and no limit:
      it returns True exactly when no task raises, and otherwise raises
      after dispatching every path up to and including the first chunk
      holding a failing path. */
  lemma LoadWithoutLimit(paths: seq<Path>, chunkSize: int, outcome: Path -> Outcome)
    requires chunkSize >= 1
    requires forall p :: SenderShaped(outcome(p))
    ensures var r := Load(paths, chunkSize, None, outcome);
      && (r.result == Finished(true) <==> NoneRaised(paths, outcome))
      && (r.result.Aborted? <==> !NoneRaised(paths, outcome))
      && (NoneRaised(paths, outcome) ==> r.dispatched == paths)
  {
    var chunks := Chunks(paths, chunkSize);
    FoldAbortsIffSomeRaises(chunks, None, outcome, 0, true);
    if NoneRaised(paths, outcome) {
      FoldWithoutFailure(chunks, None, outcome, 0, true);
      if |chunks| > 0 {
        LastChunkAllTrue(chunks, outcome);
      }
    }
  }

  /** On failure, with the first failing chunk j: chunks 0..j were
      dispatched in full and no path of a later chunk. */
  lemma LoadFailsAfterChunk(paths: seq<Path>, chunkSize: int, outcome: Path -> Outcome, j: nat)
    requires chunkSize >= 1
    requires j < |Chunks(paths, chunkSize)|
    requires forall i :: 0 <= i < j ==> NoneRaised(Chunks(paths, chunkSize)[i], outcome)
    requires !NoneRaised(Chunks(paths, chunkSize)[j], outcome)
    ensures var chunks := Chunks(paths, chunkSize);
      var r := Load(paths, chunkSize, None, outcome);
      && r.dispatched == Concat(chunks[..j + 1])
      && r.result == Aborted(Failing(chunks[j], outcome))
  {
    FoldStopsAtFirstFailingChunk(Chunks(paths, chunkSize), None, outcome, 0, true, j);
  }

  /** With a truthy limit and no failure, min(limit, number of paths) paths
      are dispatched, the first ones in order. */
  lemma LoadWithLimit(paths: seq<Path>, chunkSize: int, limit: Option<nat>, outcome: Path -> Outcome)
    requires chunkSize >= 1
    requires Limited(limit)
    requires NoneRaised(paths, outcome)
    ensures var r := Load(paths, chunkSize, limit, outcome);
      r.dispatched == paths[..Min(|paths|, limit.value)]
  {
    var chunks := Chunks(paths, chunkSize);
    FoldStopsAtLimit(chunks, limit, outcome, 0, true);
  }

  /** `load_bundles`: every path is one POST, answered with status(path);
      the limit is the source's `None`. A chunk size of 0 is `range`'s
      ValueError and a negative one POSTs nothing and returns True. */
  function LoadBundles(paths: seq<Path>, chunkSize: int, status: Path -> int): (r: Run)
    ensures chunkSize >= 1 ==>
      (r.result == Finished(true) <==> forall p :: p in paths ==> !RaisesForStatus(status(p)))
    ensures chunkSize >= 1 && (forall p :: p in paths ==> !RaisesForStatus(status(p))) ==>
      r.dispatched == paths
    ensures chunkSize == 0 ==> r == Run([], Crashed(ChunkSizeZero))
    ensures chunkSize < 0 ==> r == Run([], Finished(true))
  {
    var outcome := (p: Path) => LoadBundle(status(p)).outcome;
    assert forall p :: SenderShaped(outcome(p)) by {
      forall p ensures SenderShaped(outcome(p)) {
        assert outcome(p) == LoadBundle(status(p)).outcome;
      }
    }
    if chunkSize >= 1 then
      LoadWithoutLimit(paths, chunkSize, outcome);
      Load(paths, chunkSize, None, outcome)
    else Load(paths, chunkSize, None, outcome)
  }

  /** `load_resources`: every path is an ndjson file whose lines are
      lines(path) and whose k-th PUT is answered with status(path)(k). The
      chunk sizes below 1 behave as in `load_bundles`. */
  function LoadResources(paths: seq<Path>, url: string, chunkSize: int,
                         lines: Path -> seq<Line>, status: Path -> nat -> int): (r: Run)
    ensures chunkSize >= 1 ==>
      (r.result == Finished(true) <==>
         forall p :: p in paths ==> LoadResource(url, lines(p), status(p)).outcome == Returned(true))
    ensures chunkSize == 0 ==> r == Run([], Crashed(ChunkSizeZero))
    ensures chunkSize < 0 ==> r == Run([], Finished(true))
  {
    var outcome := (p: Path) => LoadResource(url, lines(p), status(p)).outcome;
    assert forall p :: SenderShaped(outcome(p)) by {
      forall p ensures SenderShaped(outcome(p)) {
        assert outcome(p) == LoadResource(url, lines(p), status(p)).outcome;
      }
    }
    if chunkSize >= 1 then
      LoadWithoutLimit(paths, chunkSize, outcome);
      Load(paths, chunkSize, None, outcome)
    else Load(paths, chunkSize, None, outcome)
  }
}
