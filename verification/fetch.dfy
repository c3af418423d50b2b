/** `fetchRows` (index.js:21-68): the GET request's answer is checked for
    an ok status and a `data` array, and the array is mapped to rows. The
    request itself is an effect recorded by the pipeline; here its answer
    is an input. */
module Fetch {
  import opened Results
  import opened JsonValues
  import opened Failures
  import Config
  import opened Rows

  /** The body of a response, as `resp.json()` sees it. */
  datatype Body = Unparsable | Parsed(json: Json)

  /** What the GET request produced: no response at all (a network error
      rejects the request), or a status code and a body. */
  datatype Response = NoResponse | Http(status: int, body: Body)

  /** `resp.ok` of the Fetch standard: the status is in the range 200-299. */
  predicate StatusOk(status: int) {
    200 <= status <= 299
  }

  /** The rows to write and the range to write them at. */
  datatype Payload = Payload(range: string, rows: seq<Row>)

  /** The guard `!json || !Array.isArray(json.data)` fails to fire. */
  predicate HasDataArray(json: Json) {
    Truthy(json) && Get(json, "data").Some? && Get(json, "data").value.JArray?
  }

  /** A body with a `data` array: an object whose `data` field is an array. */
  predicate IsDataObject(json: Json) {
    json.JObject? && "data" in json.fields && json.fields["data"].JArray?
  }

  function FetchRows(settings: Config.Settings, resp: Response): (r: Result<Payload, Failure>)
    ensures resp.NoResponse? ==> r == Err(NetworkError)
    ensures resp.Http? && !StatusOk(resp.status) ==> r == Err(HttpStatus(resp.status))
    ensures resp.Http? && StatusOk(resp.status) && resp.body.Unparsable? ==> r == Err(InvalidJson)
    ensures resp.Http? && StatusOk(resp.status) && resp.body.Parsed? && !IsDataObject(resp.body.json) ==>
      r == Err(BadShape)
    ensures
      && resp.Http? && StatusOk(resp.status) && resp.body.Parsed? && IsDataObject(resp.body.json)
      && (exists i :: 0 <= i < |resp.body.json.fields["data"].items| && resp.body.json.fields["data"].items[i] == JNull)
      ==> r == Err(NullRecord)
    ensures r.Ok? <==>
      && resp.Http? && StatusOk(resp.status) && resp.body.Parsed?
      && IsDataObject(resp.body.json)
      && forall i :: 0 <= i < |resp.body.json.fields["data"].items| ==>
           resp.body.json.fields["data"].items[i] != JNull
    ensures r.Err? ==> ExitCode(r.error) == 2
    ensures r.Ok? ==>
      var data := resp.body.json.fields["data"].items;
      && r.value.range == settings.writeRange
      && |r.value.rows| == |data|
      && forall i :: 0 <= i < |data| ==> MapRow(data[i]) == Some(r.value.rows[i])
  {
    match resp
    case NoResponse => Err(NetworkError)
    case Http(status, body) =>
      if !StatusOk(status) then Err(HttpStatus(status))
      else
        match body
        case Unparsable => Err(InvalidJson)
        case Parsed(json) =>
          if !HasDataArray(json) then Err(BadShape)
          else
            match MapRows(Get(json, "data").value.items)
            case None => Err(NullRecord)
            case Some(rows) => Ok(Payload(settings.writeRange, rows))
  }

  /** The shape check accepts exactly the objects with a `data` array:
      falsy bodies, numbers, strings, booleans and arrays are all refused. */
  lemma ShapeCheckAcceptsOnlyDataObjects(json: Json)
    ensures HasDataArray(json) <==> IsDataObject(json)
  {
  }
}
