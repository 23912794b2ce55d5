/** The report parser panel (frontend/src/app/components/ReportParser.tsx): the
    urgency colour, and the log draft that "Create Maintenance Log from Report"
    hands to the log form. */
module ReportParser {
  import opened Json
  import opened Text
  import Gateway
  import Engine

  const Red := "#e53e3e"
  const Amber := "#d69e2e"
  const Green := "#22c55e"

  /** `getUrgencyColor`. */
  function UrgencyColor(score: real): (c: string)
    ensures c == Red <==> score >= 0.85
    ensures c == Amber <==> 0.6 <= score < 0.85
    ensures c == Green <==> score < 0.6
  {
    if score >= 0.85 then Red
    else if score >= 0.6 then Amber
    else Green
  }

  /** How alarming a colour is. */
  function Level(c: string): nat {
    if c == Red then 2 else if c == Amber then 1 else 0
  }

  /** A higher score never gets a calmer colour. */
  lemma UrgencyMonotone(s: real, t: real)
    requires s <= t
    ensures Level(UrgencyColor(s)) <= Level(UrgencyColor(t))
  {
  }

  /** `getUrgencyColor(parsed.urgency_score ?? 0)`: a missing score is coloured
      as 0. A score that is present but not a number (which JavaScript would
      coerce) is outside the model: `None`. */
  function ScoreColor(parsed: Json): (c: Option<string>)
    requires Truthy(parsed)
    ensures Nullish(Field(parsed, "urgency_score")) ==> c == Some(Green)
    ensures Field(parsed, "urgency_score").Num? ==> c == Some(UrgencyColor(Field(parsed, "urgency_score").n))
  {
    match Coalesce(Field(parsed, "urgency_score"), Num(0.0))
    case Num(x) => Some(UrgencyColor(x))
    case _ => None
  }

  /** `/zone/i.test(e)`: the test runs on `String(e)`. For a string that is the
      string itself; an array is its elements' strings joined by commas, so it
      matches exactly when one of its elements does (a comma cannot be part of
      "zone"); no other JSON value prints with a "z" in it. */
  predicate MentionsZone(e: Json) {
    match e
    case Str(s) => Contains(Lower(s), "zone")
    case Arr(items) => exists i :: 0 <= i < |items| && MentionsZone(items[i])
    case _ => false
  }

  /** A string entity mentions a zone exactly when "zone" occurs somewhere in
      it, in any letter case; an array entity exactly when one of its elements
      does; no other value ever does. */
  lemma MentionsZoneMeans(e: Json)
    ensures e.Str? ==> (MentionsZone(e) <==> exists i :: OccursAt(Lower(e.s), "zone", i))
    ensures e.Arr? ==> (MentionsZone(e) <==> exists i :: 0 <= i < |e.items| && MentionsZone(e.items[i]))
    ensures !e.Str? && !e.Arr? ==> !MentionsZone(e)
  {
    if e.Str? {
      ContainsAt(Lower(e.s), "zone");
    }
  }

  /** `entities.find(e => /zone/i.test(e))`: the first entity that mentions a
      zone. */
  function FindZone(entities: seq<Json>): (r: Option<Json>)
    ensures r.None? <==> forall i :: 0 <= i < |entities| ==> !MentionsZone(entities[i])
    ensures r.Some? ==> exists i :: FirstZoneAt(entities, i) && entities[i] == r.value
  {
    if entities == [] then None
    else if MentionsZone(entities[0]) then
      assert FirstZoneAt(entities, 0);
      Some(entities[0])
    else match FindZone(entities[1..])
      case None => None
      case Some(e) =>
        var i :| FirstZoneAt(entities[1..], i) && entities[1..][i] == e;
        assert FirstZoneAt(entities, i + 1);
        Some(e)
  }

  /** Entity `i` is the first one that mentions a zone. */
  predicate FirstZoneAt(entities: seq<Json>, i: int) {
    && 0 <= i < |entities|
    && MentionsZone(entities[i])
    && forall j :: 0 <= j < i ==> !MentionsZone(entities[j])
  }

  /** The record passed to `onPrefillLog`. */
  datatype LogDraft = LogDraft(date: string, zone: Json, description: Json, engineer: string)

  /** What pressing the button does: nothing without a parsed report, a draft,
      or a TypeError when `extracted_entities` is neither nullish nor an array
      (it has no `find` method to call). */
  datatype Prefill = Skipped | Draft(log: LogDraft) | Threw

  /** `new Date().toISOString().slice(0, 10)`: the date part of the clock's
      ISO time, which is a parameter. */
  function DatePart(isoNow: string): (d: string)
    ensures |isoNow| >= 10 ==> d == isoNow[..10]
    ensures |isoNow| < 10 ==> d == isoNow
  {
    if |isoNow| >= 10 then isoNow[..10] else isoNow
  }

  /** `prefillLog`. */
  function PrefillLog(parsed: Json, text: string, isoNow: string): (r: Prefill)
    ensures !Truthy(parsed) ==> r == Skipped
    ensures Truthy(parsed) && Nullish(Field(parsed, "extracted_entities")) ==>
      r.Draft? && r.log.zone == Str("")
    ensures Truthy(parsed) && Field(parsed, "extracted_entities").Arr? ==>
      var found := FindZone(Field(parsed, "extracted_entities").items);
      r.Draft? && r.log.zone == (if found.Some? then found.value else Str(""))
    ensures Truthy(parsed) && !Nullish(Field(parsed, "extracted_entities")) && !Field(parsed, "extracted_entities").Arr? ==>
      r == Threw
    ensures r.Draft? ==> r.log.date == DatePart(isoNow) && r.log.engineer == ""
    ensures r.Draft? && Truthy(Field(parsed, "summary")) ==> r.log.description == Field(parsed, "summary")
    ensures r.Draft? && !Truthy(Field(parsed, "summary")) ==> r.log.description == Str(text)
  {
    if !Truthy(parsed) then Skipped
    else
      var entities := Field(parsed, "extracted_entities");
      if !Nullish(entities) && !entities.Arr? then Threw
      else
        var found := if entities.Arr? then FindZone(entities.items) else None;
        var zone := if found.Some? then found.value else Str("");
        var summary := Field(parsed, "summary");
        Draft(LogDraft(DatePart(isoNow), zone, if Truthy(summary) then summary else Str(text), ""))
  }

  /** End to end: a report the engine parsed and the gateway passed on is
      coloured red, and its draft log names "Zone 6" and carries the engine's
      summary, whatever the report said. */
  lemma EngineReportPrefill(text: string, isoNow: string)
    ensures var parsed := Gateway.ParseReport(Gateway.Reply(Engine.ReportJson(Engine.ParseReport(text)))).body;
      && ScoreColor(parsed) == Some(Red)
      && PrefillLog(parsed, text, isoNow)
         == Draft(LogDraft(DatePart(isoNow), Str("Zone 6"), Str(Engine.ParseReport(text).summary), ""))
  {
    var report := Engine.ParseReport(text);
    var parsed := Engine.ReportJson(report);
    assert Lower("Zone 6") == "zone 6" by {
      assert forall i :: 0 <= i < 6 ==> Lower("Zone 6")[i] == "zone 6"[i];
    }
    assert StartsWith("zone 6", "zone");
    assert MentionsZone(Str("Zone 6"));
    var entities := Engine.Strings(report.entities);
    assert entities[0] == Str("Zone 6");
    assert FindZone(entities) == Some(Str("Zone 6"));
  }
}
