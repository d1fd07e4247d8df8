/** `bundle_entry_request_as_json`, the replacement for the `as_json` of a
    Bundle entry request: a POST whose owning resource already has an id is
    turned into a PUT to `url/id`, so that replaying a bundle updates
    rather than duplicates. The patch mutates the request before it
    serialises it, so the model returns the whole entry after the call; the
    serialised `{method, url}` is that entry's request. The patch only
    affects code that serialises `fhir.resources` objects: the loader
    itself POSTs bundle files as raw text and never calls it. */
module BundleRequest {
  import opened Common
  import opened Fhir

  /** True when the patch rewrites the request of e. */
  predicate Rewrites(e: Entry)
    requires e.request.Some?
  {
    e.request.value.httpMethod == "POST" && e.resource.Some? && Truthy(e.resource.value.id)
  }

  function AsJson(e: Entry): (r: Result<Entry>)
    requires e.request.Some?
    // `self._owner.resource.id` is only read for a POST; a missing resource
    // then raises AttributeError
    ensures r.Failure? <==> e.request.value.httpMethod == "POST" && e.resource.None?
    ensures r.Failure? ==> r.error == NoOwnerResource
    ensures r.Success? ==> r.value.resource == e.resource && r.value.request.Some?
    ensures r.Success? && Rewrites(e) ==>
      r.value.request.value
        == Request("PUT", e.request.value.url + "/" + e.resource.value.id.value)
    ensures r.Success? && !Rewrites(e) ==> r.value == e
    // a POST survives only for a resource without an id
    ensures r.Success? && r.value.request.value.httpMethod == "POST" ==> !Truthy(e.resource.value.id)
  {
    var req := e.request.value;
    if req.httpMethod != "POST" then Success(e)
    else if e.resource.None? then Failure(NoOwnerResource)
    else if Truthy(e.resource.value.id) then
      Success(e.(request := Some(Request("PUT", req.url + "/" + e.resource.value.id.value))))
    else Success(e)
  }

  /** Serialising twice gives what serialising once gave: the first call
      already turned the POST into a PUT. */
  lemma AsJsonIdempotent(e: Entry)
    requires e.request.Some?
    requires AsJson(e).Success?
    ensures AsJson(AsJson(e).value) == AsJson(e)
  {
  }

  /** What the patched `as_json` returns for two create entries: without an
      id the request serialises unchanged, with id "42" it serialises as a
      PUT to Patient/42. */
  lemma CreateEntries(body: string)
    ensures var a := Entry(Some(Resource(Some("Patient"), None, None, body)),
                           Some(Request("POST", "Patient")));
            AsJson(a) == Success(a)
    ensures var b := Entry(Some(Resource(Some("Patient"), Some("42"), None, body)),
                           Some(Request("POST", "Patient")));
            AsJson(b).Success? && AsJson(b).value.request == Some(Request("PUT", "Patient/42"))
  {
    assert "Patient" + "/" + "42" == "Patient/42";
  }
}
