# fhir-example loader and extractor, modelled in Dafny

This project models the sequential core of the two scripts of the
fhir-example repository. `scripts/load.py` uploads FHIR data to a HAPI FHIR
server, and `scripts/extract.py` reads resources back into ndjson files.
Everything is written as pure functions over immutable data. The server's
answers and the input files' lines become parameters. Clocks are left out,
and asyncio scheduling becomes a sequential fold in path order.

- `common.dfy` (module `Common`): optional values, the Python exceptions
  the scripts can raise (`Error`), a value or an exception (`Result`), how
  a sender task ends (`Outcome`), the two `raise_for_status` thresholds, and
  `Concat`, which flattens a sequence of sequences.
- `fhir.dfy` (module `Fhir`): the parts of a FHIR JSON document the scripts
  read. That is a `resourceType`, an `id`, a Bundle's `entry` list, and
  each entry's `resource` and `request`. Every member may be missing.
- `chunker.dfy` (module `Chunker`): `_chunker`, the windows
  `seq[pos:pos + size]` for `pos` in `range(0, len(seq), size)`. Python's
  slice clamping is modelled, and so is `range` with a step of 0 or less.
- `request.dfy` (module `BundleRequest`): `bundle_entry_request_as_json`.
  A POST whose owning resource has an id becomes a PUT to `url/id`.
- `senders.dfy` (module `Senders`): `load_bundle`, one POST answered with a
  status. Also `load_resource`, one PUT per ndjson line to
  `url/resourceType/id`. Lines are abstract parse results, and the k-th
  PUT's answer is `status(k)`.
- `dispatch.dfy` (module `Dispatch`): the loop shared by `load_resources`
  and `load_bundles`. It is a fold over the chunks with a dispatch counter,
  the dead `limit`, and `ok` reassigned after each chunk. An oracle says how
  each path's task ends. The two commands instantiate that oracle with the
  two senders.
- `extract.dfy` (module `Extract`): `read_resources`. It fans a GET answer
  out into one stream per resource kind through the open-once `emitter`
  cache, and counts, summarises and closes the streams.

Reference definitions serve as partners for the operations:

- `Concat` for the chunker.
- `KindStream` (the resources of one kind, in entry order), `Kinds` (the
  kinds seen) and `SumLengths` (the total number of lines written) for the
  fan-out.
- `CumulativeFold` (`ok = ok and all(...)`) for the reassigned `ok`.
- `Noisy` (the urls of the PUTs whose status is above 201) for the
  printed responses.

## Model

| member | source | states |
|---|---|---|
| Chunker.Windows | scripts/load.py:44 | The windows from position pos concatenate to exactly `seq[pos:]`. Every window has between 1 and size elements. Every window but the last has exactly size. There are none exactly when pos is the end. |
| Chunker.Chunks | scripts/load.py:34-44 | For size ≥ 1 the chunks concatenate back to the input: order kept, nothing dropped or duplicated. Each chunk is non-empty and at most size long, all but the last are exactly size, and there are ⌈n/size⌉ of them. |
| Chunker.Chunk | scripts/load.py:44 | `_chunker` for any integer size. Size 0 is the ValueError of `range`. A negative size yields no chunk. A positive size yields chunks that concatenate to the input. |
| Chunker.WindowsCount | scripts/load.py:44 | The number of windows k satisfies (k-1)·size < n - pos ≤ k·size, the bounds that determine the ceiling. |
| Chunker.CeilFromBounds | scripts/load.py:44 | A count k within those bounds is ⌈n/size⌉ = (n + size - 1) / size. |
| Chunker.ChunkIsSlice | scripts/load.py:44 | Window i is the slice starting at pos + i·size with its end clamped to the length, i.e. the i-th `seq[pos:pos + size]` of the generator. |
| Chunker.ChunksOfShortInput | scripts/load.py:44 | An empty input has no chunk. An input of at most size elements is one chunk, the input itself. |
| BundleRequest.AsJson | scripts/load.py:16-21 | A POST with a truthy resource id becomes ("PUT", url + "/" + id). Any other request comes back unchanged. A POST entry without a resource raises AttributeError. A POST survives only when the id is missing or empty. |
| BundleRequest.AsJsonIdempotent | scripts/load.py:18-20 | Applying the rewrite to its own output changes nothing. |
| BundleRequest.CreateEntries | scripts/load.py:18-21 | For a create entry without an id, `as_json` returns the request unchanged. With id "42" it returns a PUT to `Patient/42`. |
| Senders.LoadBundle | scripts/load.py:56-63 | The response body is logged exactly when the status is not 200. The sender task raises exactly for status ≥ 400, with that status, and otherwise returns True. It never returns False. |
| Senders.ItemUrl | scripts/load.py:78-79 | A line yields its PUT target exactly when it is a JSON object with `resourceType` and `id`, and the target is `url/resourceType/id`. Otherwise the line raises: JSONDecodeError for a line that is not JSON, TypeError for a JSON value that is not an object, or KeyError for `resourceType` (read first) or `id`. |
| Senders.Put | scripts/load.py:77-86 | The loop counts at most the PUTs it issues, and issues at most one per remaining line. When nothing is raised, every remaining line was PUT and counted. |
| Senders.PutFailsIffSomeLineHalts | scripts/load.py:77-86 | The loop raises exactly when some line is unreadable or its PUT is answered with ≥ 400. |
| Senders.PutLogsNoisy | scripts/load.py:82-84 | The responses printed are exactly those of the PUTs issued with status > 201, in order. |
| Senders.PutCountsToFirstHalt | scripts/load.py:77-86 | With j the first halting line: count is j, j PUTs are issued plus line j's own PUT when it could be read, and the exception is line j's. |
| Senders.PutUrlAt | scripts/load.py:79-81 | If no earlier line halts and line k can be read, the (k-i)-th PUT goes to line k's target. |
| Senders.PutUrlsToFirstHalt | scripts/load.py:77-86 | Up to the first halting line, the k-th PUT goes to line k's `url/resourceType/id`. |
| Senders.PutStopsAtFirstHalt | scripts/load.py:77-86 | Combines the two previous lemmas: the count, the targets, and the exception of the first halting line. |
| Senders.LoadResource | scripts/load.py:69-93 | The sender task never returns False. It raises exactly when the file is empty (the average divides by count = 0) or some line halts. |
| Senders.LoadResourceStopsAtFirstHalt | scripts/load.py:77-90 | The whole sender with j the first halting line. Count is j, PUTs are issued for lines 0..j-1 (plus line j when readable), and the printed urls are the noisy ones. The outcome is line j's exception, else ZeroDivisionError for an empty file, else True. |
| Senders.LoadWellFormedFile | scripts/load.py:77-90 | N well-formed records all answered below 400 give exactly N PUTs, the k-th to `url/resourceType_k/id_k`, and count N. The file succeeds exactly when N > 0. |
| Senders.ThreeRecordsThenGarbage | scripts/load.py:77-86 | Three good lines then a non-JSON line: 3 PUTs, count 3, and the file raises JSONDecodeError. |
| Dispatch.Start | scripts/load.py:107-112 | The paths started are a prefix of the chunk, and the counter grows by their number. The whole chunk is started unless a truthy limit was reached. Below the limit, min(chunk length, limit - count) paths are started. |
| Dispatch.Failing | scripts/load.py:114-117 | The chunk has a failing path exactly when some started task raises. |
| Dispatch.FailingMembers | scripts/load.py:114-117 | The failing paths are exactly the started paths whose task raises. |
| Dispatch.Fold | scripts/load.py:104-121 | The loop only returns ok or propagates a task's exception. Below a truthy limit it never dispatches more than limit - count paths. |
| Dispatch.FoldDispatchesPrefix | scripts/load.py:104-120 | The dispatched paths are a prefix of the paths in chunk order. |
| Dispatch.FoldAbortsOnRaisedPaths | scripts/load.py:114-117 | An aborted run names at least one failing path, and each one was dispatched and its task raised. |
| Dispatch.Load | scripts/load.py:96-121 | A prefix of the paths is dispatched. Chunk size 0 ends in ValueError before any dispatch. A negative size dispatches nothing and returns True. A truthy limit bounds the number dispatched. |
| Dispatch.FoldWithoutFailure | scripts/load.py:104-121 | Without a limit and with no task raising, every path is dispatched once, in chunk order, and the run returns the last chunk's `all`. |
| Dispatch.FoldStep | scripts/load.py:104-117 | Without a limit, a chunk where nothing raises is started in full, and the loop goes on with ok reassigned to that chunk's `all`. |
| Dispatch.FoldStepAborts | scripts/load.py:104-117 | Without a limit, a chunk where a task raises is started in full, and the run ends there with that chunk's failing paths. |
| Dispatch.FoldStopsAtFirstFailingChunk | scripts/load.py:104-117 | With j the first chunk holding a raising task, chunks 0..j are dispatched and nothing later, and the run raises with chunk j's failing paths. |
| Dispatch.FoldAbortsWhenSomeRaises | scripts/load.py:114-117 | Without a limit, a run in which some task raises is aborted. |
| Dispatch.FoldAbortsIffSomeRaises | scripts/load.py:104-121 | Without a limit, the run raises exactly when some path's task raises. |
| Dispatch.FoldStopsAtLimit | scripts/load.py:107-120 | With a truthy limit above count and no task raising, exactly min(number of paths, limit - count) paths are dispatched. |
| Dispatch.ReassignedOkIsCumulative | scripts/load.py:114-117 | For senders that return True or raise, reassigning ok per chunk gives the same run as accumulating it with `and`. |
| Dispatch.ReassignedOkForgetsEarlierChunks | scripts/load.py:114-117 | With a task that returned False, the reassignment forgets it once a later chunk succeeds, while accumulation keeps it. |
| Dispatch.LastChunkAllTrue | scripts/load.py:114-117 | When no sender task raises, the last chunk's `all` is True. |
| Dispatch.LoadWithoutLimit | scripts/load.py:96-121 | With chunk size ≥ 1 and no limit, the run returns True exactly when no task raises, and then dispatches every path in order. It raises exactly when some task raises. |
| Dispatch.LoadFailsAfterChunk | scripts/load.py:104-117 | On failure, the paths of every chunk up to and including the first failing one are dispatched, and no path of a later chunk. |
| Dispatch.LoadWithLimit | scripts/load.py:107-120 | For chunk size ≥ 1, with a truthy limit and no failure, the first min(limit, number of paths) paths are dispatched, in order. |
| Dispatch.LoadBundles | scripts/load.py:124-149 | For chunk size ≥ 1, `load_bundles` returns True exactly when every bundle POST is answered below 400, and then POSTs every path. A chunk size of 0 raises ValueError before any POST. A negative chunk size POSTs nothing and returns True, whatever the server would answer. |
| Dispatch.LoadResources | scripts/load.py:96-121 | For chunk size ≥ 1, `load_resources` returns True exactly when every file's `load_resource` returns True. A chunk size of 0 raises ValueError before any upload. A negative chunk size uploads nothing and returns True. |
| Extract.NoEmitters | scripts/extract.py:27 | The empty cache is consistent and has no stream. |
| Extract.Emit | scripts/extract.py:29-33 | Writing to kind `name` opens its stream only on first use and otherwise reuses the cached one. It appends the resource to that stream alone, and every other stream is unchanged. |
| Extract.EmitKeepsValid | scripts/extract.py:29-33 | Writing through the cache keeps every kind opened exactly once and only cached kinds opened. |
| Extract.EmitAddsOneLine | scripts/extract.py:29-33 | One write adds exactly one line to the total over the opened streams. |
| Extract.FanOut | scripts/extract.py:41-45 | The loop counts at most one per entry. |
| Extract.FanOutKeepsValid | scripts/extract.py:41-45 | The loop keeps the cache consistent: each kind opened once. |
| Extract.FanOutFailsIffBadEntry | scripts/extract.py:41-43 | The loop ends with KeyError exactly when some entry lacks its `resource` or that resource's `resourceType`. |
| Extract.FanOutCountsAndOpens | scripts/extract.py:41-45 | For well-formed entries, count grows by the number of entries, and the opened kinds are exactly the kinds seen. |
| Extract.FanOutAppendsByKind | scripts/extract.py:41-44 | For well-formed entries, each kind's stream gains exactly that kind's resources, in entry order. |
| Extract.FanOutWritesOneLineEach | scripts/extract.py:41-45 | For well-formed entries, the total length of all streams grows by the number of entries. |
| Extract.FanOutGroups | scripts/extract.py:41-45 | Combines the previous four lemmas for well-formed entries: no error, count, opened kinds, per-kind streams, and total length. |
| Extract.FanOutStopsAtBadEntry | scripts/extract.py:41-43 | The loop stops at the first bad entry j with count j, having written exactly what the first j entries write, and raises KeyError naming the missing key. |
| Extract.ReadResources | scripts/extract.py:20-60 | A status from 400 to 599 raises HTTPError and writes nothing; requests does not raise for any other status, 600 and above included. A document without `resourceType` writes nothing. A non-Bundle document gives one stream holding exactly that document, with count 1. A Bundle without `entry` writes nothing and logs "returned no resources". The summary is "no resources" exactly when count is 0. All opened streams are closed unless an exception escaped, which closes none. The cache stays consistent. |
| Extract.ReadBundleUnfold | scripts/extract.py:38-50 | A Bundle with an `entry` list is the fan-out over its entries, summarised and closed when no KeyError stopped it. |
| Extract.ReadBundle | scripts/extract.py:38-60 | For a Bundle whose entries are well formed, each kind's file holds exactly that kind's resources in entry order. The opened kinds are exactly the kinds seen, each opened once. Count equals the number of entries and the total number of lines. Every opened file is closed. |
| Extract.ReadBundleWithBadEntry | scripts/extract.py:41-45 | At the first entry without a resource or kind, the earlier entries are written and counted, KeyError escapes, and no file is closed. |
| Extract.ReadAboveServerErrors | scripts/extract.py:35-56 | A status of 600 passes requests' `raise_for_status`, so a Patient answer is written to the Patient stream with count 1 and closed. |

## Left out

- Network I/O. aiohttp sessions, `session.post`/`put` and `requests.get`
  are replaced by the status the server answers. For an extraction the
  parsed document is also a parameter. Only the thresholds of
  `raise_for_status` and the `!= 200` / `> 201` logging conditions are
  modelled. aiohttp's `raise_for_status` (the loader) raises for any status
  ≥ 400. requests' `raise_for_status` (the extractor) raises only for
  400 to 599, so a status of 600 or more is treated as a success.
  A request that gets no answer, because of a connection error, a DNS
  failure or a call that never returns, is not modelled by the senders or
  the extractor. `Dispatch.Load`'s outcome oracle still covers a sender
  task that raises for any reason.
- `response.json()` on an error body that is not JSON, in `load_bundle` and
  `load_resource`. It would raise before `raise_for_status`. The model
  assumes the error body parses, because the body's content is not modelled.
- asyncio task creation and `as_completed`. Which failing task's exception
  surfaces depends on completion order, so an aborted run reports the set
  of failing paths of its chunk rather than one exception. Tasks still
  pending when the first exception surfaces are never awaited, and
  `asyncio.run` cancels them when the command exits. Their partial side
  effects are not modelled.
- Parsing and serialisation. `orjson.loads`/`dumps` and the `fhir.resources`
  classes are not modelled. A line is already classified as non-JSON,
  non-object, or an object with optional `resourceType`/`id`, and a
  resource keeps everything else in an opaque body.
- Opening and reading input files, and `Path.glob`. The list of paths and
  each file's lines are given. A file that cannot be opened is not modelled.
- Timing and logging. `time.perf_counter`, the elapsed-time and average
  floats, `print` and `logger` are not modelled. The exceptions are the
  zero-count ZeroDivisionError, and which urls are printed for a status
  above 201.
- The click CLI, option defaults, the headers dictionary, and the
  `url_base/url_path` string of the extractor. The extractor's answer is a
  parameter, so the url it is fetched from is not.
- The output file names `name.ndjson` under the extract path, and the
  file mode "w". A stream is identified by its kind. Each extraction starts
  with an empty cache, so what an earlier run left in a file is not
  modelled. An output file that cannot be opened (for example a missing
  extract directory, a FileNotFoundError) is not modelled either.
- Senders.LoadBundle: the POST body is not modelled. `load_bundle` reads
  the bundle file as text and POSTs it as it is.
- BundleRequest.AsJson: nothing in the loader or the extractor calls
  `as_json`. The patch only affects code that serialises `fhir.resources`
  objects, so the rewrite is modelled on its own and does not feed into
  what `load_bundle` sends.
- Dispatch.Fold: the behaviour when a task returns False is modelled, but
  the senders never do. Only the sender-shaped case is connected to the two
  commands.
- Extract.FanOut: the function's own contract states only the count bounds.
  Consistency, the KeyError condition and the grouping are stated by the
  lemmas that follow it.

Points where the model follows the code:

- A bundle answered with a status from 201 to 399 is logged as an error,
  but the sender task still returns True.
- The extractor opens each output file in mode "w", so it truncates rather
  than appends.
- `ok` is reassigned per chunk rather than accumulated.
- A raising task propagates out of the loop. It is not turned into False.
