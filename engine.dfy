/** The mock inference engine (ai-engine/app/main.py): the per-row anomaly rule
    of `predict`, the fixed answers of `parse_report` and `get_alerts`, the
    closing sentence of `summarize` and the file-name triggers of
    `analyze_image`. Python floats are compared as Dafny reals; the arithmetic
    on them (the mock score, the averages and their formatting) is not modelled. */
module Engine {
  import opened Json
  import opened Text

  /** One telemetry row as the request body carries it. */
  datatype SensorData = SensorData(temperature: real, vibration: real, speed: real)

  /** One entry of `predict`'s answer, without the mock `score`. */
  datatype AnomalyRecord = AnomalyRecord(index: nat, temperature: real, vibration: real, speed: real, anomaly: bool)

  // ------------------------------------------------------------- predict

  /** POST /predict: one record per row, in order, echoing the row and flagging
      it when both the vibration and the temperature are over their limits. */
  method Predict(data: seq<SensorData>) returns (anomalies: seq<AnomalyRecord>)
    ensures |anomalies| == |data|
    ensures forall i :: 0 <= i < |data| ==> anomalies[i].index == i
    ensures forall i :: 0 <= i < |data| ==>
      && anomalies[i].temperature == data[i].temperature
      && anomalies[i].vibration == data[i].vibration
      && anomalies[i].speed == data[i].speed
    ensures forall i :: 0 <= i < |data| ==>
      (anomalies[i].anomaly <==> data[i].vibration > 0.5 && data[i].temperature > 50.0)
  {
    anomalies := [];
    for i := 0 to |data|
      invariant |anomalies| == i
      invariant forall j :: 0 <= j < i ==> anomalies[j].index == j
      invariant forall j :: 0 <= j < i ==>
        && anomalies[j].temperature == data[j].temperature
        && anomalies[j].vibration == data[j].vibration
        && anomalies[j].speed == data[j].speed
      invariant forall j :: 0 <= j < i ==>
        (anomalies[j].anomaly <==> data[j].vibration > 0.5 && data[j].temperature > 50.0)
    {
      var d := data[i];
      var abnormal := d.vibration > 0.5 && d.temperature > 50.0;
      anomalies := anomalies + [AnomalyRecord(i, d.temperature, d.vibration, d.speed, abnormal)];
    }
  }

  // -------------------------------------------------------- parse_report

  datatype ParsedReport = ParsedReport(summary: string, urgencyScore: real, entities: seq<string>, actions: seq<string>)

  const SummaryLength := 40

  /** POST /parse-report: the first 40 characters of the report followed by an
      ellipsis, and fixed urgency, entities and actions. (The handler's `except`
      branch cannot be reached: slicing and concatenating a string never raise.) */
  function ParseReport(text: string): (r: ParsedReport)
    ensures |r.summary| <= SummaryLength + 3
    ensures |text| <= SummaryLength ==> r.summary == text + "..."
    ensures |text| > SummaryLength ==> |r.summary| == SummaryLength + 3 && r.summary[..SummaryLength] == text[..SummaryLength]
    ensures r.summary[|r.summary| - 3..] == "..."
    ensures r.urgencyScore == 0.9
    ensures r.entities == ["Zone 6", "Crack"] && r.actions == ["Dispatch team", "Limit speed"]
  {
    var cut := if |text| <= SummaryLength then |text| else SummaryLength;
    ParsedReport(text[..cut] + "...", 0.9, ["Zone 6", "Crack"], ["Dispatch team", "Limit speed"])
  }

  function Strings(xs: seq<string>): (r: seq<Json>)
    ensures |r| == |xs| && forall i :: 0 <= i < |xs| ==> r[i] == Str(xs[i])
  {
    seq(|xs|, i requires 0 <= i < |xs| => Str(xs[i]))
  }

  /** The JSON object FastAPI sends for a parsed report. */
  function ReportJson(r: ParsedReport): (j: Json)
    ensures j.Obj? && j.fields.Keys == {"summary", "urgency_score", "extracted_entities", "suggested_actions"}
    ensures j.fields["summary"] == Str(r.summary) && j.fields["urgency_score"] == Num(r.urgencyScore)
    ensures j.fields["extracted_entities"] == Arr(Strings(r.entities))
    ensures j.fields["suggested_actions"] == Arr(Strings(r.actions))
  {
    Obj(map[
      "summary" := Str(r.summary),
      "urgency_score" := Num(r.urgencyScore),
      "extracted_entities" := Arr(Strings(r.entities)),
      "suggested_actions" := Arr(Strings(r.actions))])
  }

  // ----------------------------------------------------------- get_alerts

  datatype Alert = Alert(message: string, time: string, severity: string)

  /** GET /alerts: always the same two alerts. */
  function GetAlerts(): (r: seq<Alert>)
    ensures |r| == 2 && r[0].severity == "High" && r[1].severity == "Medium"
    ensures r[0].time == r[1].time == "2025-08-06T00:54:49Z"
    ensures r[0].message == "Possible track fault detected" && r[1].message == "Anomaly score: 92%"
  {
    [ Alert("Possible track fault detected", "2025-08-06T00:54:49Z", "High"),
      Alert("Anomaly score: 92%", "2025-08-06T00:54:49Z", "Medium") ]
  }

  function AlertJson(a: Alert): Json {
    Obj(map["message" := Str(a.message), "time" := Str(a.time), "severity" := Str(a.severity)])
  }

  /** The JSON array FastAPI sends for the alerts. */
  function AlertsJson(): (j: Json)
    ensures j.Arr? && |j.items| == |GetAlerts()|
    ensures forall i :: 0 <= i < |GetAlerts()| ==> j.items[i] == AlertJson(GetAlerts()[i])
  {
    Arr([AlertJson(GetAlerts()[0]), AlertJson(GetAlerts()[1])])
  }

  // ------------------------------------------------------------ summarize

  const HighVibration := "High vibration detected. Possible anomaly in tracked data."
  const AllNormal := "All telemetry within normal ranges."

  /** `any(d.vibration > 0.5 for d in data)`. */
  function AnyHighVibration(data: seq<SensorData>): (b: bool)
    ensures b <==> exists i :: 0 <= i < |data| && data[i].vibration > 0.5
  {
    if data == [] then false
    else data[0].vibration > 0.5 || AnyHighVibration(data[1..])
  }

  /** POST /summarize: `averages` stands for the two formatted averages, which
      are not modelled. An empty list divides by zero before any text is built,
      so there is no summary. */
  function Summary(data: seq<SensorData>, averages: string): (r: Option<string>)
    ensures data == [] <==> r.None?
    ensures r.Some? ==> r.value == averages + (if AnyHighVibration(data) then HighVibration else AllNormal)
  {
    if data == [] then None
    else Some(averages + if AnyHighVibration(data) then HighVibration else AllNormal)
  }

  predicate EndsWith(s: string, w: string) {
    |w| <= |s| && s[|s| - |w|..] == w
  }

  /** For non-empty input the summary ends with the high-vibration sentence
      exactly when some row vibrates above 0.5; otherwise it ends with the
      all-normal sentence. */
  lemma SummaryClosing(data: seq<SensorData>, averages: string)
    requires data != []
    ensures EndsWith(Summary(data, averages).value, HighVibration)
      <==> exists i :: 0 <= i < |data| && data[i].vibration > 0.5
    ensures EndsWith(Summary(data, averages).value, AllNormal)
      <==> !exists i :: 0 <= i < |data| && data[i].vibration > 0.5
  {
    var s := Summary(data, averages).value;
    assert HighVibration[|HighVibration| - 2] == 'a' && AllNormal[|AllNormal| - 2] == 's';
    if AnyHighVibration(data) {
      assert s[|s| - |HighVibration|..] == HighVibration;
      assert s[|s| - 2] == 'a';
    } else {
      assert s[|s| - |AllNormal|..] == AllNormal;
      assert s[|s| - 2] == 's';
    }
  }

  // -------------------------------------------------------- analyze_image

  datatype Verdict = Verdict(probability: real, defectType: string)

  /** Whether the uploaded bytes could be opened as an image. */
  datatype Decoding = Decoded | DecodeError(message: string)

  predicate NamesCrack(filename: string) {
    Contains(Lower(filename), "crack")
  }

  predicate NamesObstruction(filename: string) {
    var f := Lower(filename);
    Contains(f, "tree") || Contains(f, "branch") || Contains(f, "debris")
  }

  /** POST /analyze-image. `pixels` stands for the verdict of the pixel rules
      (green ratio, edge strength), which are not modelled. The image is decoded
      before the file name is looked at, so a decoding failure wins over every
      trigger. */
  function AnalyzeImage(filename: string, decoding: Decoding, pixels: Verdict): (v: Verdict)
    ensures decoding.DecodeError? ==> v == Verdict(0.0, "Could not analyze: " + decoding.message)
    ensures decoding.Decoded? && NamesCrack(filename) ==> v == Verdict(0.87, "Crack detected")
    ensures decoding.Decoded? && !NamesCrack(filename) && NamesObstruction(filename) ==>
      v == Verdict(0.95, "Obstruction on track")
    ensures decoding.Decoded? && !NamesCrack(filename) && !NamesObstruction(filename) ==> v == pixels
  {
    var name := Lower(filename);
    match decoding
    case DecodeError(e) => Verdict(0.0, "Could not analyze: " + e)
    case Decoded =>
      if Contains(name, "crack") then Verdict(0.87, "Crack detected")
      else if Contains(name, "tree") || Contains(name, "branch") || Contains(name, "debris") then
        Verdict(0.95, "Obstruction on track")
      else pixels
  }

  lemma LowerConcat(a: string, b: string)
    ensures Lower(a + b) == Lower(a) + Lower(b)
  {
    assert forall i :: 0 <= i < |a + b| ==> Lower(a + b)[i] == (Lower(a) + Lower(b))[i];
  }

  /** The crack trigger fires for the word in any letter case anywhere in the
      file name, whatever else the name contains ("tree" included). */
  lemma CrackAnywhere(prefix: string, word: string, suffix: string, pixels: Verdict)
    requires Lower(word) == "crack"
    ensures AnalyzeImage(prefix + word + suffix, Decoded, pixels) == Verdict(0.87, "Crack detected")
  {
    LowerConcat(prefix + word, suffix);
    LowerConcat(prefix, word);
    assert StartsWith("crack", "crack");
    ContainsExtended(Lower(prefix), "crack", Lower(suffix), "crack");
  }
}
