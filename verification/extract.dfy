/** `read_resources`: one GET whose JSON answer is fanned out into one
    ndjson output file per resource kind. Files are opened lazily through
    the `emitter` cache, at most once per kind, and all of them are closed
    at the end. The network answer is a parameter: its status and its
    parsed document. */
module Extract {
  import opened Common
  import opened Fhir

  /** The `emitters` cache together with what was written: the kinds whose
      file was opened, in opening order, and the resources written to each
      kind's file, one per line, in write order. */
  datatype Emitters = Emitters(openOrder: seq<string>, streams: map<string, seq<Resource>>)

  predicate NoDuplicates(s: seq<string>) {
    forall i, j :: 0 <= i < j < |s| ==> s[i] != s[j]
  }

  /** Each cached kind was opened exactly once, and only cached kinds were
      opened. */
  ghost predicate Valid(em: Emitters) {
    && NoDuplicates(em.openOrder)
    && (forall k :: k in em.openOrder <==> k in em.streams)
  }

  function NoEmitters(): (em: Emitters)
    ensures Valid(em) && em.streams == map[]
  {
    Emitters([], map[])
  }

  /** What has been written to kind k's file (nothing if never opened). */
  function Written(em: Emitters, k: string): seq<Resource> {
    if k in em.streams then em.streams[k] else []
  }

  /** `emitter(name).write(res)`: open name's file on first use, reuse the
      cached one afterwards, and append res as one line. */
  function Emit(em: Emitters, name: string, res: Resource): (r: Emitters)
    ensures r.streams.Keys == em.streams.Keys + {name}
    ensures Written(r, name) == Written(em, name) + [res]
    ensures forall k :: k != name ==> Written(r, k) == Written(em, k)
    // a kind already in the cache is not opened again
    ensures name in em.streams ==> r.openOrder == em.openOrder
    ensures name !in em.streams ==> r.openOrder == em.openOrder + [name]
  {
    if name in em.streams then
      Emitters(em.openOrder, em.streams[name := em.streams[name] + [res]])
    else
      Emitters(em.openOrder + [name], em.streams[name := [res]])
  }

  /** An entry whose resource and resource kind can be read. */
  predicate WellFormed(e: Entry) {
    e.resource.Some? && e.resource.value.resourceType.Some?
  }

  /** The state of the loop over the entries: emitters, `count`, and the
      KeyError that stopped it, if any. */
  datatype Pass = Pass(emitters: Emitters, count: nat, error: Option<Error>)

  /** `for entry in response_json['entry']`: `entry['resource']`, then
      `resource['resourceType']`, then write and count. */
  function FanOut(entries: seq<Entry>, em: Emitters, count: nat): (p: Pass)
    ensures count <= p.count <= count + |entries|
    decreases |entries|
  {
    if |entries| == 0 then Pass(em, count, None)
    else
      match entries[0].resource
      case None => Pass(em, count, Some(MissingKey("resource")))
      case Some(res) =>
        match res.resourceType
        case None => Pass(em, count, Some(MissingKey("resourceType")))
        case Some(k) => FanOut(entries[1..], Emit(em, k, res), count + 1)
  }

  /** Opening through the cache keeps every kind opened exactly once. */
  lemma EmitKeepsValid(em: Emitters, name: string, res: Resource)
    requires Valid(em)
    ensures Valid(Emit(em, name, res))
  {
  }

  lemma {:induction false} FanOutKeepsValid(entries: seq<Entry>, em: Emitters, count: nat)
    requires Valid(em)
    ensures Valid(FanOut(entries, em, count).emitters)
    decreases |entries|
  {
    if |entries| > 0 && WellFormed(entries[0]) {
      var res := entries[0].resource.value;
      EmitKeepsValid(em, res.resourceType.value, res);
      FanOutKeepsValid(entries[1..], Emit(em, res.resourceType.value, res), count + 1);
    }
  }

  /** The loop ends with a KeyError exactly when some entry lacks its
      resource or its resource's kind. */
  lemma {:induction false} FanOutFailsIffBadEntry(entries: seq<Entry>, em: Emitters, count: nat)
    ensures FanOut(entries, em, count).error.None?
        <==> forall i :: 0 <= i < |entries| ==> WellFormed(entries[i])
    decreases |entries|
  {
    if |entries| > 0 {
      assert forall i :: 1 <= i < |entries| ==> entries[i] == entries[1..][i - 1];
      if WellFormed(entries[0]) {
        var res := entries[0].resource.value;
        FanOutFailsIffBadEntry(entries[1..], Emit(em, res.resourceType.value, res), count + 1);
      }
    }
  }

  // ---------------------------------------------------------------------
  // Reference definitions of the grouping

  /** The resources of the entries whose kind is k, in entry order. */
  function KindStream(k: string, entries: seq<Entry>): seq<Resource>
    decreases |entries|
  {
    if |entries| == 0 then []
    else
      var e := entries[0];
      (if WellFormed(e) && e.resource.value.resourceType.value == k then [e.resource.value] else [])
      + KindStream(k, entries[1..])
  }

  /** The kinds of the well-formed entries. */
  function Kinds(entries: seq<Entry>): set<string>
    decreases |entries|
  {
    if |entries| == 0 then {}
    else
      var e := entries[0];
      (if WellFormed(e) then {e.resource.value.resourceType.value} else {}) + Kinds(entries[1..])
  }

  /** Total number of lines written to the files of keys. */
  function SumLengths(keys: seq<string>, em: Emitters): nat
    decreases |keys|
  {
    if |keys| == 0 then 0 else |Written(em, keys[0])| + SumLengths(keys[1..], em)
  }

  // ---------------------------------------------------------------------
  // Properties

  lemma {:induction false} SumLengthsFrame(keys: seq<string>, em: Emitters, em': Emitters)
    requires forall k :: k in keys ==> Written(em, k) == Written(em', k)
    ensures SumLengths(keys, em) == SumLengths(keys, em')
    decreases |keys|
  {
    if |keys| > 0 {
      assert keys[0] in keys;
      SumLengthsFrame(keys[1..], em, em');
    }
  }

  lemma {:induction false} SumLengthsAppend(keys: seq<string>, k: string, em: Emitters)
    ensures SumLengths(keys + [k], em) == SumLengths(keys, em) + |Written(em, k)|
    decreases |keys|
  {
    if |keys| == 0 {
      assert keys + [k] == [k];
    } else {
      assert (keys + [k])[1..] == keys[1..] + [k];
      SumLengthsAppend(keys[1..], k, em);
    }
  }

  /** Growing one file by a line that occurs once in keys grows the total by one. */
  lemma {:induction false} SumLengthsGrowOne(keys: seq<string>, name: string, em: Emitters, em': Emitters)
    requires NoDuplicates(keys) && name in keys
    requires |Written(em', name)| == |Written(em, name)| + 1
    requires forall k :: k != name ==> Written(em', k) == Written(em, k)
    ensures SumLengths(keys, em') == SumLengths(keys, em) + 1
    decreases |keys|
  {
    if keys[0] == name {
      assert name !in keys[1..] by {
        forall i | 0 <= i < |keys[1..]|
          ensures keys[1..][i] != name
        {
          assert keys[1..][i] == keys[i + 1];
        }
      }
      SumLengthsFrame(keys[1..], em, em');
    } else {
      assert name in keys[1..];
      SumLengthsGrowOne(keys[1..], name, em, em');
    }
  }

  /** Every emit adds exactly one line across the opened files. */
  lemma EmitAddsOneLine(em: Emitters, name: string, res: Resource)
    requires Valid(em)
    ensures SumLengths(Emit(em, name, res).openOrder, Emit(em, name, res)) == SumLengths(em.openOrder, em) + 1
  {
    var r := Emit(em, name, res);
    if name in em.streams {
      SumLengthsGrowOne(em.openOrder, name, em, r);
    } else {
      SumLengthsAppend(em.openOrder, name, r);
      SumLengthsFrame(em.openOrder, em, r);
    }
  }

  /** One step of the fan-out over a well-formed first entry: emit it and
      go on with the rest. */
  lemma FanOutStep(entries: seq<Entry>, em: Emitters, count: nat)
    requires |entries| > 0 && WellFormed(entries[0])
    ensures var res := entries[0].resource.value;
      FanOut(entries, em, count)
        == FanOut(entries[1..], Emit(em, res.resourceType.value, res), count + 1)
  {
  }

  lemma TailWellFormed(entries: seq<Entry>)
    requires |entries| > 0
    requires forall i :: 0 <= i < |entries| ==> WellFormed(entries[i])
    ensures WellFormed(entries[0])
    ensures forall i :: 0 <= i < |entries[1..]| ==> WellFormed(entries[1..][i])
  {
    assert forall i :: 0 <= i < |entries[1..]| ==> entries[1..][i] == entries[i + 1];
  }

  /** The fan-out over well-formed entries counts every entry and opens
      exactly the kinds seen. */
  lemma {:induction false} FanOutCountsAndOpens(entries: seq<Entry>, em: Emitters, count: nat)
    requires forall i :: 0 <= i < |entries| ==> WellFormed(entries[i])
    ensures var p := FanOut(entries, em, count);
      && p.count == count + |entries|
      && p.emitters.streams.Keys == em.streams.Keys + Kinds(entries)
    decreases |entries|
  {
    if |entries| > 0 {
      TailWellFormed(entries);
      FanOutStep(entries, em, count);
      var res := entries[0].resource.value;
      FanOutCountsAndOpens(entries[1..], Emit(em, res.resourceType.value, res), count + 1);
    }
  }

  /** What one write adds to kind k's file: the resource if it is of kind
      k, nothing otherwise. */
  function Own(k: string, name: string, res: Resource): seq<Resource> {
    if k == name then [res] else []
  }

  lemma EmitWritten(em: Emitters, name: string, res: Resource, k: string)
    ensures Written(Emit(em, name, res), k) == Written(em, k) + Own(k, name, res)
  {
  }

  lemma KindStreamCons(k: string, entries: seq<Entry>)
    requires |entries| > 0 && WellFormed(entries[0])
    ensures var res := entries[0].resource.value;
      KindStream(k, entries) == Own(k, res.resourceType.value, res) + KindStream(k, entries[1..])
  {
  }

  lemma AppendAssoc<T>(a: seq<T>, b: seq<T>, c: seq<T>)
    ensures a + b + c == a + (b + c)
  {
  }

  /** The fan-out over well-formed entries appends each resource to its own
      kind's file, in entry order. */
  lemma {:induction false} FanOutAppendsByKind(entries: seq<Entry>, em: Emitters, count: nat, k: string)
    requires forall i :: 0 <= i < |entries| ==> WellFormed(entries[i])
    ensures Written(FanOut(entries, em, count).emitters, k) == Written(em, k) + KindStream(k, entries)
    decreases |entries|
  {
    if |entries| > 0 {
      TailWellFormed(entries);
      FanOutStep(entries, em, count);
      var res := entries[0].resource.value;
      var name := res.resourceType.value;
      FanOutAppendsByKind(entries[1..], Emit(em, name, res), count + 1, k);
      EmitWritten(em, name, res, k);
      KindStreamCons(k, entries);
      AppendAssoc(Written(em, k), Own(k, name, res), KindStream(k, entries[1..]));
    }
  }

  /** The fan-out over well-formed entries writes one line per entry. */
  lemma {:induction false} FanOutWritesOneLineEach(entries: seq<Entry>, em: Emitters, count: nat)
    requires Valid(em)
    requires forall i :: 0 <= i < |entries| ==> WellFormed(entries[i])
    ensures var p := FanOut(entries, em, count);
      SumLengths(p.emitters.openOrder, p.emitters) == SumLengths(em.openOrder, em) + |entries|
    decreases |entries|
  {
    if |entries| > 0 {
      TailWellFormed(entries);
      FanOutStep(entries, em, count);
      var res := entries[0].resource.value;
      EmitAddsOneLine(em, res.resourceType.value, res);
      EmitKeepsValid(em, res.resourceType.value, res);
      FanOutWritesOneLineEach(entries[1..], Emit(em, res.resourceType.value, res), count + 1);
    }
  }

  /** For well-formed entries the fan-out counts every entry, appends each
      resource to its own kind's file in entry order, opens exactly the
      kinds seen, and writes as many lines as it counts. */
  lemma FanOutGroups(entries: seq<Entry>, em: Emitters, count: nat)
    requires Valid(em)
    requires forall i :: 0 <= i < |entries| ==> WellFormed(entries[i])
    ensures var p := FanOut(entries, em, count);
      && p.error.None?
      && p.count == count + |entries|
      && p.emitters.streams.Keys == em.streams.Keys + Kinds(entries)
      && (forall k :: Written(p.emitters, k) == Written(em, k) + KindStream(k, entries))
      && SumLengths(p.emitters.openOrder, p.emitters) == SumLengths(em.openOrder, em) + |entries|
  {
    FanOutFailsIffBadEntry(entries, em, count);
    FanOutCountsAndOpens(entries, em, count);
    FanOutWritesOneLineEach(entries, em, count);
    forall k
      ensures Written(FanOut(entries, em, count).emitters, k) == Written(em, k) + KindStream(k, entries)
    {
      FanOutAppendsByKind(entries, em, count, k);
    }
  }

  /** The fan-out stops at the first entry j that is not well formed, after
      writing and counting exactly the entries before it. */
  lemma {:induction false} FanOutStopsAtBadEntry(entries: seq<Entry>, em: Emitters, count: nat, j: nat)
    requires j < |entries|
    requires forall i :: 0 <= i < j ==> WellFormed(entries[i])
    requires !WellFormed(entries[j])
    ensures var p := FanOut(entries, em, count);
      && p.count == count + j
      && p.emitters == FanOut(entries[..j], em, count).emitters
      && p.error == Some(MissingKey(if entries[j].resource.None? then "resource" else "resourceType"))
    decreases j
  {
    if j > 0 {
      var res := entries[0].resource.value;
      var em1 := Emit(em, res.resourceType.value, res);
      assert entries[..j][1..] == entries[1..][..j - 1];
      assert forall i :: 0 <= i < j - 1 ==> entries[1..][i] == entries[i + 1];
      FanOutStopsAtBadEntry(entries[1..], em1, count + 1, j - 1);
    } else {
      assert entries[..0] == [];
    }
  }

  // ---------------------------------------------------------------------
  // read_resources

  /** The summary line logged: a count, or "returned no resources". */
  datatype Summary = Counted(n: nat) | NoResources

  /** What one extraction did: the files written, `count`, the summary
      logged (none for a document without `resourceType`), the kinds whose
      file was closed by the final loop, and the exception, if one ended it. */
  datatype Extraction = Extraction(
    emitters: Emitters,
    count: nat,
    summary: Option<Summary>,
    closed: set<string>,
    error: Option<Error>)

  /** `read_resources` for a GET answered with status and the parsed
      document doc. An exception leaves the function before the closing
      loop, so nothing is closed by it then. */
  function ReadResources(status: int, doc: Resource): (r: Extraction)
    ensures Valid(r.emitters)
    ensures r.error.None? ==> r.closed == r.emitters.streams.Keys
    ensures r.error.Some? ==> r.closed == {}
    ensures RequestsRaisesForStatus(status) ==> r.error == Some(HttpStatus(status)) && r.emitters.streams == map[]
    ensures !RequestsRaisesForStatus(status) && doc.resourceType.None? ==>
      r == Extraction(NoEmitters(), 0, None, {}, None)
    ensures !RequestsRaisesForStatus(status) && doc.resourceType.Some? && doc.resourceType.value != "Bundle" ==>
      && r.emitters.streams == map[doc.resourceType.value := [doc]]
      && r.count == 1 && r.summary == Some(Counted(1)) && r.error.None?
    ensures !RequestsRaisesForStatus(status) && doc.resourceType == Some("Bundle") && doc.entry.None? ==>
      r == Extraction(NoEmitters(), 0, Some(NoResources), {}, None)
    ensures r.error.None? && r.summary.Some? ==> (r.summary == Some(NoResources) <==> r.count == 0)
  {
    if RequestsRaisesForStatus(status) then Extraction(NoEmitters(), 0, None, {}, Some(HttpStatus(status)))
    else
      match doc.resourceType
      case None => Extraction(NoEmitters(), 0, None, {}, None)
      case Some(t) =>
        if t == "Bundle" then
          var p := if doc.entry.Some? then FanOut(doc.entry.value, NoEmitters(), 0) else Pass(NoEmitters(), 0, None);
          FanOutKeepsValid(if doc.entry.Some? then doc.entry.value else [], NoEmitters(), 0);
          if p.error.Some? then Extraction(p.emitters, p.count, None, {}, p.error)
          else
            var summary := if p.count > 0 then Counted(p.count) else NoResources;
            Extraction(p.emitters, p.count, Some(summary), p.emitters.streams.Keys, None)
        else
          var em := Emit(NoEmitters(), t, doc);
          EmitKeepsValid(NoEmitters(), t, doc);
          assert em.streams == map[t := [doc]];
          Extraction(em, 1, Some(Counted(1)), em.streams.Keys, None)
  }

  /** A Bundle answer with an `entry` list is the fan-out over it,
      summarised and closed when no KeyError stopped it. */
  lemma ReadBundleUnfold(status: int, doc: Resource)
    requires !RequestsRaisesForStatus(status)
    requires doc.resourceType == Some("Bundle") && doc.entry.Some?
    ensures var p := FanOut(doc.entry.value, NoEmitters(), 0);
      ReadResources(status, doc)
        == if p.error.Some? then Extraction(p.emitters, p.count, None, {}, p.error)
           else Extraction(p.emitters, p.count, Some(if p.count > 0 then Counted(p.count) else NoResources),
                           p.emitters.streams.Keys, None)
  {
  }

  /** A Bundle answer with well-formed entries: each kind's file holds that
      kind's resources in entry order, the files opened are exactly the kinds
      seen, each once, count is the number of entries and equals the number
      of lines written, and every opened file is closed. */
  lemma ReadBundle(status: int, doc: Resource)
    requires !RequestsRaisesForStatus(status)
    requires doc.resourceType == Some("Bundle") && doc.entry.Some?
    requires forall i :: 0 <= i < |doc.entry.value| ==> WellFormed(doc.entry.value[i])
    ensures var r := ReadResources(status, doc);
      var entries := doc.entry.value;
      && r.error.None?
      && r.count == |entries|
      && r.emitters.streams.Keys == Kinds(entries)
      && (forall k :: Written(r.emitters, k) == KindStream(k, entries))
      && NoDuplicates(r.emitters.openOrder)
      && SumLengths(r.emitters.openOrder, r.emitters) == r.count
      && r.closed == Kinds(entries)
      && r.summary == Some(if |entries| == 0 then NoResources else Counted(|entries|))
  {
    ReadBundleUnfold(status, doc);
    FanOutGroups(doc.entry.value, NoEmitters(), 0);
    FanOutKeepsValid(doc.entry.value, NoEmitters(), 0);
  }

  /** A Bundle answer with an entry j that has no resource or no kind:
      the entries before it are written and counted, KeyError ends the
      extraction, and no file is closed. */
  lemma ReadBundleWithBadEntry(status: int, doc: Resource, j: nat)
    requires !RequestsRaisesForStatus(status)
    requires doc.resourceType == Some("Bundle") && doc.entry.Some?
    requires j < |doc.entry.value|
    requires forall i :: 0 <= i < j ==> WellFormed(doc.entry.value[i])
    requires !WellFormed(doc.entry.value[j])
    ensures var r := ReadResources(status, doc);
      var entries := doc.entry.value;
      && r.error.Some? && r.error.value.MissingKey?
      && r.count == j
      && (forall k :: Written(r.emitters, k) == KindStream(k, entries[..j]))
      && r.closed == {}
  {
    var entries := doc.entry.value;
    ReadBundleUnfold(status, doc);
    FanOutStopsAtBadEntry(entries, NoEmitters(), 0, j);
    var prefix := entries[..j];
    assert forall i :: 0 <= i < |prefix| ==> WellFormed(prefix[i]);
    forall k
      ensures Written(FanOut(prefix, NoEmitters(), 0).emitters, k) == KindStream(k, prefix)
    {
      FanOutAppendsByKind(prefix, NoEmitters(), 0, k);
    }
  }

  /** requests raises only for 4xx and 5xx: a Patient answered with status
      600 is written like any other single resource. */
  lemma ReadAboveServerErrors(body: string)
    ensures var doc := Resource(Some("Patient"), Some("p"), None, body);
      var r := ReadResources(600, doc);
      && r.error.None?
      && r.count == 1
      && Written(r.emitters, "Patient") == [doc]
      && r.closed == {"Patient"}
  {
  }
}
