/** The API gateway (api-gateway/index.js): each route handler as a function from
    the outcome of its one upstream call to the status and JSON body it writes.
    The upstream call itself is a parameter: either the parsed response body of a
    2xx reply, or the message of the error axios raised (network failure or a
    non-2xx status). */
module Gateway {
  import opened Json

  datatype Upstream = Reply(data: Json) | Failure(message: string)

  /** What a handler writes: `res.status(status).json(body)`. */
  datatype Response = Response(status: int, body: Json)

  datatype Verb = Get | Post | Put | Delete

  /** An outbound request to the content-management system. */
  datatype Call = Call(verb: Verb, resource: string, payload: Json)

  const AlertsError := "Failed to fetch alerts from AI Engine."
  const SummarizeError := "Failed to get summary from AI Engine"
  const AnalyzeImageError := "Failed to analyze image"
  const PredictError := "Failed to get prediction from AI Engine"
  const ParseReportError := "Failed to parse operator report"
  const InvalidListing := "Invalid response from Strapi"
  const ListLogsError := "Failed to fetch logs from CMS"
  const CreateLogError := "Failed to create maintenance log"
  const UpdateLogError := "Failed to update maintenance log"
  const DeleteLogError := "Failed to delete maintenance log"

  /** The placeholder for a log field nobody supplied. */
  const NA := Str("N/A")

  const LogsResource := "/api/maintenance-logs"

  /** The error envelope every route writes from its catch block. */
  function ErrorReply(message: string): Response {
    Response(500, Single("error", Str(message)))
  }

  /** The four descriptive fields of a maintenance log. */
  predicate IsLogField(k: string) {
    k == "date" || k == "zone" || k == "description" || k == "engineer"
  }

  // ---------------------------------------------------------------- /alerts

  /** GET /alerts: an array from the inference engine is passed on as it is, any
      other payload becomes `[]`; the client always gets an array with 200 unless
      the call itself failed. */
  function Alerts(up: Upstream): (r: Response)
    ensures up.Failure? ==> r == ErrorReply(AlertsError)
    ensures up.Reply? ==> r.status == 200 && r.body.Arr?
    ensures up.Reply? && up.data.Arr? ==> r.body == up.data
    ensures up.Reply? && !up.data.Arr? ==> r.body.items == []
  {
    match up
    case Failure(_) => ErrorReply(AlertsError)
    case Reply(d) => Response(200, if d.Arr? then d else Arr([]))
  }

  // ------------------------------------------ pass-through inference routes

  /** POST /summarize: the engine's answer unchanged, or a fixed 500. */
  function Summarize(up: Upstream): (r: Response)
    ensures up.Reply? ==> r.status == 200 && r.body == up.data
    ensures up.Failure? ==> r == ErrorReply(SummarizeError)
  {
    match up
    case Failure(_) => ErrorReply(SummarizeError)
    case Reply(d) => Response(200, d)
  }

  /** POST /predict: the engine's answer unchanged, or a fixed 500. */
  function Predict(up: Upstream): (r: Response)
    ensures up.Reply? ==> r.status == 200 && r.body == up.data
    ensures up.Failure? ==> r == ErrorReply(PredictError)
  {
    match up
    case Failure(_) => ErrorReply(PredictError)
    case Reply(d) => Response(200, d)
  }

  /** POST /parse-report: the engine's answer unchanged, or a fixed 500. */
  function ParseReport(up: Upstream): (r: Response)
    ensures up.Reply? ==> r.status == 200 && r.body == up.data
    ensures up.Failure? ==> r == ErrorReply(ParseReportError)
  {
    match up
    case Failure(_) => ErrorReply(ParseReportError)
    case Reply(d) => Response(200, d)
  }

  /** POST /analyze-image as the handler is written: its first statement calls
      `formidable`, which the file never imports, so the ReferenceError lands in
      the handler's catch before any upload is read or any upstream call made.
      The "File upload error" 400 inside the parse callback is never reached. */
  function AnalyzeImage(): (r: Response)
    ensures r.status == 500 && r.body == Single("error", Str(AnalyzeImageError))
  {
    ErrorReply(AnalyzeImageError)
  }

  // ------------------------------------------------------------- GET /logs

  /** One CMS record projected onto the flat log shape the client expects:
      `id ?? null` and `X ?? 'N/A'` for each descriptive field, read from the
      record's top level. */
  function FlatEntry(item: Json): (e: Json)
    requires !Nullish(item)
    ensures e.Obj? && e.fields.Keys == {"id", "date", "zone", "description", "engineer"}
    ensures !e.fields["id"].Absent?
    ensures Nullish(Field(item, "id")) ==> e.fields["id"] == Null
    ensures !Nullish(Field(item, "id")) ==> e.fields["id"] == Field(item, "id")
    ensures forall k :: IsLogField(k) ==> !Nullish(e.fields[k])
    ensures forall k :: IsLogField(k) && Nullish(Field(item, k)) ==> e.fields[k] == NA
    ensures forall k :: IsLogField(k) && !Nullish(Field(item, k)) ==> e.fields[k] == Field(item, k)
  {
    Obj(map[
      "id" := Coalesce(Field(item, "id"), Null),
      "date" := Coalesce(Field(item, "date"), NA),
      "zone" := Coalesce(Field(item, "zone"), NA),
      "description" := Coalesce(Field(item, "description"), NA),
      "engineer" := Coalesce(Field(item, "engineer"), NA)])
  }

  /** `items.map(item => ({...}))`: the projection of every record, in order;
      the first `null` record makes `item.id` throw. */
  function MapEntries(items: seq<Json>): (r: Eval<seq<Json>>)
    ensures r.Value? <==> forall i :: 0 <= i < |items| ==> !Nullish(items[i])
    ensures r.Value? ==> |r.value| == |items|
    ensures r.Value? ==> forall i :: 0 <= i < |items| ==> r.value[i] == FlatEntry(items[i])
  {
    if items == [] then Value([])
    else if Nullish(items[0]) then Throw(ReadError(items[0], "id"))
    else match MapEntries(items[1..])
      case Throw(m) => Throw(m)
      case Value(rest) => Value([FlatEntry(items[0])] + rest)
  }

  /** The CMS listing is usable when it is truthy and its `data` is an array. */
  predicate IsListing(raw: Json) {
    Truthy(raw) && Field(raw, "data").Arr?
  }

  /** GET /logs. */
  function ListLogs(up: Upstream): (r: Response)
    ensures up.Failure? ==> r == ErrorReply(ListLogsError)
    ensures up.Reply? && !IsListing(up.data) ==> r == ErrorReply(InvalidListing)
    ensures up.Reply? && IsListing(up.data) ==>
      var items := Field(up.data, "data").items;
      if exists i :: 0 <= i < |items| && Nullish(items[i]) then r == ErrorReply(ListLogsError)
      else (r.status == 200 && r.body.Arr? && |r.body.items| == |items|
        && forall i :: 0 <= i < |items| ==> r.body.items[i] == FlatEntry(items[i]))
  {
    match up
    case Failure(_) => ErrorReply(ListLogsError)
    case Reply(raw) =>
      if !IsListing(raw) then ErrorReply(InvalidListing)
      else match MapEntries(Field(raw, "data").items)
        case Throw(_) => ErrorReply(ListLogsError)
        case Value(logs) => Response(200, Arr(logs))
  }

  // ------------------------------------------------- POST and PUT /logs echo

  /** `attributes?.key ?? body.key ?? 'N/A'`; reading `body.key` throws when the
      request body is nullish and the attribute is missing. */
  function EchoField(attributes: Json, body: Json, key: string): (r: Eval<Json>)
    ensures !Nullish(OptProp(attributes, key)) ==> r == Value(OptProp(attributes, key))
    ensures Nullish(OptProp(attributes, key)) && Nullish(body) ==> r.Throw?
    ensures Nullish(OptProp(attributes, key)) && !Nullish(body) ==>
      r == Value(if !Nullish(Field(body, key)) then Field(body, key) else NA)
  {
    var a := OptProp(attributes, key);
    if !Nullish(a) then Value(a)
    else match Prop(body, key)
      case Throw(m) => Throw(m)
      case Value(b) => Value(Coalesce(b, NA))
  }

  /** The flat record a write answers with, built from the CMS's `data` entry
      and the request body; `id` is copied without a default. */
  function Echo(entry: Json, body: Json): (r: Eval<Json>)
    requires Truthy(entry)
    ensures r.Throw? <==> Nullish(body) && exists k :: IsLogField(k) && Nullish(OptProp(Field(entry, "attributes"), k))
    ensures r.Value? ==> r.value.Obj? && r.value.fields.Keys == {"id", "date", "zone", "description", "engineer"}
    ensures r.Value? ==> r.value.fields["id"] == Field(entry, "id")
    ensures r.Value? ==> forall k :: IsLogField(k) ==>
      var a := OptProp(Field(entry, "attributes"), k);
      r.value.fields[k] == (if !Nullish(a) then a else if !Nullish(OptProp(body, k)) then OptProp(body, k) else NA)
  {
    var attributes := Field(entry, "attributes");
    var date := EchoField(attributes, body, "date");
    var zone := EchoField(attributes, body, "zone");
    var description := EchoField(attributes, body, "description");
    var engineer := EchoField(attributes, body, "engineer");
    if date.Throw? then date
    else if zone.Throw? then zone
    else if description.Throw? then description
    else if engineer.Throw? then engineer
    else Value(Obj(map[
      "id" := Field(entry, "id"),
      "date" := date.value,
      "zone" := zone.value,
      "description" := description.value,
      "engineer" := engineer.value]))
  }

  /** `resp.data && resp.data.data`, kept only when truthy. */
  function WrittenEntry(data: Json): (e: Option<Json>)
    ensures e.Some? <==> Truthy(data) && Truthy(Field(data, "data"))
    ensures e.Some? ==> e.value == Field(data, "data")
  {
    if Truthy(data) && Truthy(Field(data, "data")) then Some(Field(data, "data")) else None
  }

  /** The answer to a write the CMS accepted: the echo of its entry, `{}` when
      it sent back no entry, the route's 500 when building the echo throws. */
  function WriteReply(status: int, errorMessage: string, data: Json, body: Json): Response {
    match WrittenEntry(data)
    case None => Response(status, Obj(map[]))
    case Some(entry) =>
      match Echo(entry, body)
      case Throw(_) => ErrorReply(errorMessage)
      case Value(log) => Response(status, log)
  }

  /** The request POST /logs sends: the caller's body wrapped as `{data: body}`. */
  function CreateLogCall(body: Json): (c: Call)
    ensures c.verb == Post && c.resource == LogsResource
    ensures c.payload.Obj? && c.payload.fields.Keys == {"data"} && Prop(c.payload, "data") == Value(body)
  {
    Call(Post, LogsResource, Single("data", body))
  }

  /** POST /logs: 201 with the echo, or the fixed 500. */
  function CreateLog(body: Json, up: Upstream): (r: Response)
    ensures up.Failure? ==> r == ErrorReply(CreateLogError)
    ensures up.Reply? && WrittenEntry(up.data).None? ==> r == Response(201, Obj(map[]))
    ensures up.Reply? && WrittenEntry(up.data).Some? ==>
      match Echo(WrittenEntry(up.data).value, body)
      case Throw(_) => r == ErrorReply(CreateLogError)
      case Value(log) => r == Response(201, log)
  {
    match up
    case Failure(_) => ErrorReply(CreateLogError)
    case Reply(data) => WriteReply(201, CreateLogError, data, body)
  }

  /** The address of one log: the collection followed by the path's id. */
  function ItemResource(id: string): (u: string)
    ensures |u| == |LogsResource| + 1 + |id|
    ensures u[..|LogsResource|] == LogsResource && u[|LogsResource|] == '/' && u[|LogsResource| + 1..] == id
  {
    LogsResource + "/" + id
  }

  /** The request PUT /logs/:id sends: the path id picks the record, the body is
      wrapped as `{data: body}`. */
  function UpdateLogCall(id: string, body: Json): (c: Call)
    ensures c.verb == Put && c.resource == ItemResource(id)
    ensures c.payload.Obj? && c.payload.fields.Keys == {"data"} && Prop(c.payload, "data") == Value(body)
  {
    Call(Put, ItemResource(id), Single("data", body))
  }

  /** PUT /logs/:id: 200 with the echo, or the fixed 500. */
  function UpdateLog(id: string, body: Json, up: Upstream): (r: Response)
    ensures up.Failure? ==> r == ErrorReply(UpdateLogError)
    ensures up.Reply? && WrittenEntry(up.data).None? ==> r == Response(200, Obj(map[]))
    ensures up.Reply? && WrittenEntry(up.data).Some? ==>
      match Echo(WrittenEntry(up.data).value, body)
      case Throw(_) => r == ErrorReply(UpdateLogError)
      case Value(log) => r == Response(200, log)
  {
    match up
    case Failure(_) => ErrorReply(UpdateLogError)
    case Reply(data) => WriteReply(200, UpdateLogError, data, body)
  }

  // ------------------------------------------------------ DELETE /logs/:id

  function DeleteLogCall(id: string): (c: Call)
    ensures c.verb == Delete && c.resource == ItemResource(id) && c.payload == Absent
  {
    Call(Delete, ItemResource(id), Absent)
  }

  function DeletedMessage(id: string): string {
    "Log " + id + " deleted"
  }

  /** DELETE /logs/:id: whatever the CMS answers, a success names the id. */
  function DeleteLog(id: string, up: Upstream): (r: Response)
    ensures up.Failure? ==> r == ErrorReply(DeleteLogError)
    ensures up.Reply? ==> r.status == 200 && r.body.Obj? && r.body.fields.Keys == {"message", "status"}
    ensures up.Reply? ==> r.body.fields["message"] == Str(DeletedMessage(id)) && r.body.fields["status"] == Str("success")
  {
    match up
    case Failure(_) => ErrorReply(DeleteLogError)
    case Reply(_) => Response(200, Obj(map["message" := Str(DeletedMessage(id)), "status" := Str("success")]))
  }

  /** The id can be read back from the deletion message. */
  lemma DeletedMessageNamesId(id: string)
    ensures var m := DeletedMessage(id);
      |m| == |id| + 12 && m[..4] == "Log " && m[4..|m| - 8] == id && m[|m| - 8..] == " deleted"
  {
  }

  // --------------------------------------------------------------- lemmas

  /** No route leaks what went wrong upstream: its failure answer is one fixed
      500 envelope whatever the upstream error was. */
  lemma FailureHidesUpstreamDetail(m1: string, m2: string, id: string, body: Json)
    ensures Alerts(Failure(m1)) == Alerts(Failure(m2)) == ErrorReply(AlertsError)
    ensures Summarize(Failure(m1)) == Summarize(Failure(m2)) == ErrorReply(SummarizeError)
    ensures Predict(Failure(m1)) == Predict(Failure(m2)) == ErrorReply(PredictError)
    ensures ParseReport(Failure(m1)) == ParseReport(Failure(m2)) == ErrorReply(ParseReportError)
    ensures ListLogs(Failure(m1)) == ListLogs(Failure(m2)) == ErrorReply(ListLogsError)
    ensures CreateLog(body, Failure(m1)) == CreateLog(body, Failure(m2)) == ErrorReply(CreateLogError)
    ensures UpdateLog(id, body, Failure(m1)) == UpdateLog(id, body, Failure(m2)) == ErrorReply(UpdateLogError)
    ensures DeleteLog(id, Failure(m1)) == DeleteLog(id, Failure(m2)) == ErrorReply(DeleteLogError)
  {
  }

  /** A request body carrying all four log fields. */
  function LogFields(date: string, zone: string, description: string, engineer: string): Json {
    Obj(map["date" := Str(date), "zone" := Str(zone), "description" := Str(description), "engineer" := Str(engineer)])
  }

  /** Creating a log with all four fields against a CMS that stores and echoes
      them under `attributes` answers 201 with exactly the flat record. */
  lemma CreateLogRoundTrip(id: real, date: string, zone: string, description: string, engineer: string)
    ensures var body := LogFields(date, zone, description, engineer);
      var cms := Single("data", Obj(map["id" := Num(id), "attributes" := body]));
      CreateLog(body, Reply(cms)) == Response(201, Obj(map[
        "id" := Num(id), "date" := Str(date), "zone" := Str(zone),
        "description" := Str(description), "engineer" := Str(engineer)]))
  {
    var body := LogFields(date, zone, description, engineer);
    var entry := Obj(map["id" := Num(id), "attributes" := body]);
    var log := Echo(entry, body).value;
    assert forall k :: IsLogField(k) ==> log.fields[k] == body.fields[k];
  }

  /** With a CMS that answers in the flat shape (no `attributes`, as GET /logs
      expects), a write echoes the request's own fields, with "N/A" for the
      ones it left out. */
  lemma FlatAnswerEchoesRequest(body: Json, data: Json, k: string)
    requires !Nullish(body) && WrittenEntry(data).Some?
    requires Nullish(Field(WrittenEntry(data).value, "attributes"))
    requires IsLogField(k)
    ensures var r := CreateLog(body, Reply(data));
      r.status == 201 && r.body.fields[k] == Coalesce(Field(body, k), NA)
  {
  }
}
