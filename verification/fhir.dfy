/** The parts of a FHIR JSON document the scripts look at. A member the
    document may lack is an `Option`; everything else a resource carries is
    kept opaque in `body`. */
module Fhir {
  import opened Common

  /** A Bundle entry's `request`: the HTTP method and target url. */
  datatype Request = Request(httpMethod: string, url: string)

  /** A JSON object that may be a resource: `resourceType`, `id`, and, for
      a Bundle, the `entry` list. */
  datatype Resource = Resource(
    resourceType: Option<string>,
    id: Option<string>,
    entry: Option<seq<Entry>>,
    body: string)

  /** A Bundle entry: the owned resource and its transport request. */
  datatype Entry = Entry(resource: Option<Resource>, request: Option<Request>)
}
