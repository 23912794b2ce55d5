/** The alert feed (frontend/src/app/components/AlertFeed.tsx): the colour of a
    severity, and the state `fetchAlerts` leaves behind. */
module AlertFeed {
  import opened Json
  import opened Text
  import Gateway
  import Engine

  const Red := "#e53e3e"
  const Orange := "#d69e2e"
  const Green := "#38a169"
  const Gray := "#718096"

  const UnexpectedFormat := "Unexpected response format from server."
  const FetchFailedText := "Failed to fetch alerts."

  /** `severityColor`: a switch on the lower-cased severity. */
  function SeverityColor(severity: string): (c: string)
    ensures c == Red <==> Lower(severity) == "high"
    ensures c == Orange <==> Lower(severity) == "medium"
    ensures c == Green <==> Lower(severity) == "low"
    ensures c == Gray <==> Lower(severity) != "high" && Lower(severity) != "medium" && Lower(severity) != "low"
  {
    match Lower(severity)
    case "high" => Red
    case "medium" => Orange
    case "low" => Green
    case _ => Gray
  }

  /** The colour ignores letter case: two severities that lower-case alike get
      the same colour, e.g. "High", "HIGH" and "high". */
  lemma {:induction false} ColorIgnoresCase(s: string, t: string)
    requires |s| == |t|
    requires forall i :: 0 <= i < |s| ==> s[i] == t[i] || LowerChar(s[i]) == t[i] || s[i] == LowerChar(t[i])
    ensures SeverityColor(s) == SeverityColor(t)
  {
    forall i | 0 <= i < |s| ensures Lower(s)[i] == Lower(t)[i] {
    }
    assert Lower(s) == Lower(t);
  }

  /** What a completed fetch hands the component: the parsed JSON body, or the
      failure of `fetch` or `res.json()`. */
  datatype FetchResult = Parsed(data: Json) | FetchFailed

  /** The component's state. */
  class Feed {
    var alerts: seq<Json>
    var error: Option<string>
    var loading: bool

    /** `useState([])`, `useState(null)`, `useState(true)`. */
    constructor ()
      ensures alerts == [] && error == None && loading
    {
      alerts := [];
      error := None;
      loading := true;
    }

    /** `fetchAlerts`: an array becomes the alert list; anything else empties
        the list and reports one of two fixed errors; loading ends either way. */
    method FetchAlerts(result: FetchResult)
      modifies this
      ensures !loading
      ensures result.Parsed? ==> (alerts, error) == ShownAlerts(result.data)
      ensures result.FetchFailed? ==> alerts == [] && error == Some(FetchFailedText)
    {
      loading := true;
      error := None;
      match result {
        case Parsed(data) =>
          if data.Arr? {
            alerts := data.items;
          } else {
            alerts := [];
            error := Some(UnexpectedFormat);
          }
        case FetchFailed =>
          error := Some(FetchFailedText);
          alerts := [];
      }
      loading := false;
    }
  }

  /** The alert list and error message the feed ends with once a body has
      been parsed: an array is shown as it is; any other value empties the list
      and reports the format error. */
  function ShownAlerts(body: Json): (r: (seq<Json>, Option<string>))
    ensures body.Arr? ==> r == (body.items, None)
    ensures !body.Arr? ==> r == ([], Some(UnexpectedFormat))
  {
    if body.Arr? then (body.items, None) else ([], Some(UnexpectedFormat))
  }

  /** End to end: while the engine answers, the feed shows exactly the
      engine's alerts, coloured red and orange; when the engine cannot be
      reached, the gateway's 500 envelope is not an array, so the feed shows
      the format error rather than the fetch error. */
  lemma EngineAlertsShown(m: string)
    ensures ShownAlerts(Gateway.Alerts(Gateway.Reply(Engine.AlertsJson())).body).0 == Engine.AlertsJson().items
    ensures ShownAlerts(Gateway.Alerts(Gateway.Reply(Engine.AlertsJson())).body).1 == None
    ensures SeverityColor(Engine.GetAlerts()[0].severity) == Red
    ensures SeverityColor(Engine.GetAlerts()[1].severity) == Orange
    ensures ShownAlerts(Gateway.Alerts(Gateway.Failure(m)).body) == ([], Some(UnexpectedFormat))
  {
    assert Lower("High") == "high" by {
      assert forall i :: 0 <= i < 4 ==> Lower("High")[i] == "high"[i];
    }
    assert Lower("Medium") == "medium" by {
      assert forall i :: 0 <= i < 6 ==> Lower("Medium")[i] == "medium"[i];
    }
  }
}
