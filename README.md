# Rail monitoring dashboard: gateway shaping rules, mock inference and client helpers

This project models, in Dafny, the logic of a rail-infrastructure monitoring
dashboard that is more than plumbing:

- the **API gateway** (`api-gateway/index.js`). Each route handler is a function
  from the outcome of its single upstream call to the status and JSON body it
  writes. That outcome is either the parsed body of a 2xx reply or the message of
  the error axios raised. The rules covered are the alerts array guard, the
  listing of maintenance logs with `??` defaults, the `{data: body}` wrapping and
  the create/update echo, the delete reply, and the fixed 500 message of every
  route;
- the **chat router** (`api-gateway/chat.js`): the message list sent to the chat
  provider (system prompt, caller history, new message), the extraction of
  `choices[0].message.content`, and the `Chatbot error` envelope;
- the **mock inference engine** (`ai-engine/app/main.py`): the per-row anomaly
  rule of `predict`, the fixed answers of `parse_report` and `get_alerts`, the
  closing sentence of `summarize`, and the file-name triggers of
  `analyze_image`;
- four **client helpers**: the 30-entry chart history (`MetricsChart.tsx`), the
  severity colours and the alert-fetch state (`AlertFeed.tsx`), the editable
  sensor rows (`Summarizer.tsx`), and the urgency colour and the report-to-log
  prefill (`ReportParser.tsx`).

JavaScript values are the datatype `Json.Json`. It has distinct `Absent`
(`undefined`), `Null`, `Bool`, `Num`, `Str`, `Arr` and `Obj` cases. The
module also states the evaluation rules the handlers rely on:
- property reads throw on `null`/`undefined` (`Json.Prop`);
- optional chaining (`Json.OptProp`);
- `??` replaces only `null` and `undefined` (`Json.Coalesce`);
- truthiness (`Json.Truthy`).

An exception inside a handler's `try` is the `Throw` case of `Json.Eval`. The
handler's catch turns it into that route's response.

Module per file: `json.dfy` (JavaScript values), `text.dfy` (lower-casing and
substring search), `gateway.dfy`, `chat.dfy`, `engine.dfy`,
`metrics_chart.dfy`, `alert_feed.dfy`, `summarizer.dfy`, `report_parser.dfy`.
The client modules also hold end-to-end lemmas that feed the engine's answers
through the gateway into the client.

Where the system's design description and the code disagree, the model follows
the code:
- GET /logs reads the records' top-level fields, not nested `attributes`. A
  listing whose `data` is not an array gets 500 "Invalid response from Strapi",
  not an empty list. A `null` record makes the handler answer 500 "Failed to
  fetch logs from CMS".
- POST and PUT read `attributes.*` first, then the request body, then "N/A".
  POST's `id` has no default.
- POST /analyze-image never answers 400 for a missing file. It answers 500 to
  every request, because `formidable` is never imported.
- The chat router reports a malformed provider answer with the same
  `Chatbot error` envelope as a network failure. The `details` field carries
  the error's message.

## Model

| member | source | states |
|---|---|---|
| `Json.Coalesce` | api-gateway/index.js:90-94 | `a ?? b` is `b` exactly when `a` is `null` or `undefined`; `""`, `0` and `false` pass through |
| `Json.Prop` | api-gateway/index.js:113 | a property read throws exactly on a nullish base; an object yields its own property or `undefined`, any other value `undefined` |
| `Json.Index0` | api-gateway/chat.js:24 | `x[0]` throws exactly on a nullish base; a non-empty array or string yields its first element, an empty one `undefined`; an object yields its property "0" or `undefined`; a boolean or number `undefined` |
| `Json.OptProp` | api-gateway/index.js:118-121 | `x?.k` never throws: a nullish base gives `undefined`, any other base the same value as the plain read `x.k` |
| `Json.FalsyValues` | api-gateway/index.js:113 | the falsy values are exactly `undefined`, `null`, `false`, `0` and `""`; every array and object is truthy |
| `Gateway.Alerts` | api-gateway/index.js:12-23 | an array from the engine is returned unchanged with 200; any other payload gives 200 with `[]`; a failed call gives 500 "Failed to fetch alerts from AI Engine." |
| `Gateway.Summarize` | api-gateway/index.js:25-32 | a reply is passed on unchanged with 200; a failure gives 500 "Failed to get summary from AI Engine" |
| `Gateway.AnalyzeImage` | api-gateway/index.js:34-57 | as written, every request is answered 500 "Failed to analyze image": the first statement references an undeclared `formidable` |
| `Gateway.Predict` | api-gateway/index.js:59-67 | a reply is passed on unchanged with 200; a failure gives 500 "Failed to get prediction from AI Engine" |
| `Gateway.ParseReport` | api-gateway/index.js:69-77 | a reply is passed on unchanged with 200; a failure gives 500 "Failed to parse operator report" |
| `Gateway.FlatEntry` | api-gateway/index.js:89-95 | a listed log has exactly the keys id, date, zone, description, engineer; `id` is the record's id or `null`; each other field is the record's top-level value when not nullish (so `""` is kept) and "N/A" otherwise, never undefined |
| `Gateway.MapEntries` | api-gateway/index.js:89-95 | the listing succeeds exactly when no record is `null`/`undefined`, and then has the same length and order as the records, entry i being record i's projection |
| `Gateway.ListLogs` | api-gateway/index.js:79-102 | a falsy body or a non-array `data` gives 500 "Invalid response from Strapi"; a `null` record or a failed call gives 500 "Failed to fetch logs from CMS"; otherwise 200 with one projected entry per record, in order |
| `Gateway.EchoField` | api-gateway/index.js:118-121 | an echoed field is the CMS attribute if not nullish, else the request's field if not nullish, else "N/A"; with a nullish request body and no attribute it throws |
| `Gateway.Echo` | api-gateway/index.js:113-124 | the write echo has keys id, date, zone, description, engineer; `id` is the entry's own (no default); each field follows attribute, then request, then "N/A"; it throws exactly when the request body is nullish and some attribute is missing |
| `Gateway.WrittenEntry` | api-gateway/index.js:113 | `resp.data && resp.data.data` yields an entry exactly when both are truthy, and the entry is `resp.data.data` |
| `Gateway.CreateLogCall` | api-gateway/index.js:106-110 | POST /logs sends the CMS collection an object whose only key is `data`, holding exactly the request body |
| `Gateway.CreateLog` | api-gateway/index.js:104-129 | a failed call gives 500 "Failed to create maintenance log"; no entry in the answer gives 201 `{}`; otherwise 201 with the echo, or that 500 when building the echo throws |
| `Gateway.CreateLogRoundTrip` | api-gateway/index.js:104-124 | creating a log with all four fields against a CMS that echoes them under `attributes` with id 7 (or any id) answers 201 with exactly the flat record |
| `Gateway.FlatAnswerEchoesRequest` | api-gateway/index.js:113-124 | when the CMS answers without `attributes`, each echoed field is the request's own value, or "N/A" when the request left it out |
| `Gateway.ItemResource` | api-gateway/index.js:135 | the item address is the collection path, a slash, and exactly the path id, which can be read back from it |
| `Gateway.UpdateLogCall` | api-gateway/index.js:133-137 | PUT targets the address built from the path id alone and sends `{data: body}` |
| `Gateway.UpdateLog` | api-gateway/index.js:132-153 | like POST, but answering 200 and using "Failed to update maintenance log" |
| `Gateway.DeleteLogCall` | api-gateway/index.js:159 | DELETE targets the address built from the path id and sends no body |
| `Gateway.DeleteLog` | api-gateway/index.js:156-164 | any CMS answer gives 200 `{message: "Log <id> deleted", status: "success"}` with exactly those two keys; a failure gives 500 "Failed to delete maintenance log" |
| `Gateway.DeletedMessageNamesId` | api-gateway/index.js:160 | the deletion message is "Log ", the id, " deleted", so the id can be read back from it |
| `Gateway.FailureHidesUpstreamDetail` | api-gateway/index.js:12-164 | on every route the answer to a failed upstream call is that route's fixed 500 envelope, whatever the upstream error said |
| `Chat.HistoryOf` | api-gateway/chat.js:9 | a body without `history` gets `[]`; a present `history` (including `null`) is kept as it is |
| `Chat.Spread` | api-gateway/chat.js:15 | spreading an array gives its elements, a string one entry per character; any other value throws |
| `Chat.Messages` | api-gateway/chat.js:13-17 | the provider receives \|history\| + 2 messages: the fixed system prompt first, then the history unchanged and in order, then `{role: 'user', content: message}` |
| `Chat.CompletionRequest` | api-gateway/chat.js:11-18 | the provider payload has exactly the keys `model` (the fixed model name) and `messages` |
| `Chat.ReplyContent` | api-gateway/chat.js:24 | when `data.choices`, its element 0 and that element's `message` can all be read, the result is exactly the read of `message.content`; it throws when any of those three steps throws, and yields a value only when all three can be read |
| `Chat.HandleChat` | api-gateway/chat.js:8-29 | a nullish body throws before the `try` and no response is written; otherwise 200 `{content}` on success, and 500 `{error: 'Chatbot error', details: <message>}` for a non-iterable history, a failed call or a missing `choices[0].message` |
| `Chat.HistoryPreserved` | api-gateway/chat.js:15 | history entry i is message i + 1 of what the provider receives |
| `Chat.WellFormedReplyAnswered` | api-gateway/chat.js:11-24 | a provider reply `{choices: [{message: {content}}]}` is answered 200 `{content}`, whatever the history array holds |
| `Chat.EmptyChoicesAnswered500` | api-gateway/chat.js:24-27 | a provider reply with empty `choices` is answered 500 `{error: 'Chatbot error', details}`, with details "Cannot read properties of undefined (reading 'message')" |
| `Chat.ThreeMessages` | api-gateway/chat.js:13-17 | a one-entry history and a new message give exactly system prompt, that entry, the user message |
| `Engine.Predict` | ai-engine/app/main.py:71-86 | one record per input row; record i has index i, echoes the row's temperature, vibration and speed, and is an anomaly exactly when vibration > 0.5 and temperature > 50 (both strict) |
| `Engine.ParseReport` | ai-engine/app/main.py:50-62 | the summary is the first min(40, \|text\|) characters followed by "...", at most 43 long; urgency 0.9, entities ["Zone 6", "Crack"], actions ["Dispatch team", "Limit speed"] |
| `Engine.ReportJson` | ai-engine/app/main.py:56-61 | the parsed report is sent as an object with exactly the keys summary, urgency_score, extracted_entities, suggested_actions, each holding the report's own value (the lists as arrays of strings, in order) |
| `Engine.GetAlerts` | ai-engine/app/main.py:88-101 | always two alerts: "Possible track fault detected" with severity "High", then "Anomaly score: 92%" with severity "Medium", both stamped 2025-08-06T00:54:49Z |
| `Engine.AlertsJson` | ai-engine/app/main.py:88-101 | the alerts are sent as an array with one object per alert, in order |
| `Engine.AnyHighVibration` | ai-engine/app/main.py:113 | `any(...)` holds exactly when some row's vibration exceeds 0.5 |
| `Engine.Summary` | ai-engine/app/main.py:103-117 | an empty row list produces no summary (the average divides by zero); otherwise the text is the averages followed by one of two closing sentences |
| `Engine.SummaryClosing` | ai-engine/app/main.py:113-116 | for non-empty input the summary ends with the high-vibration sentence exactly when some row has vibration > 0.5, and with the all-normal sentence exactly when none has |
| `Engine.AnalyzeImage` | ai-engine/app/main.py:16-44 | a decoding failure gives 0 "Could not analyze: ..." before any name check; a lower-cased name containing "crack" gives 0.87 "Crack detected" even if it also names an obstruction; "tree", "branch" or "debris" give 0.95 "Obstruction on track"; otherwise the pixel rules decide |
| `Engine.CrackAnywhere` | ai-engine/app/main.py:19-26 | "crack" in any letter case anywhere in the file name triggers the crack verdict |
| `MetricsChart.Slide` | frontend/src/app/components/MetricsChart.tsx:22-27 | the new history holds at most 30 entries, ends with the new metric, and before it keeps the last min(29, \|prev\|) entries in order; with fewer than 30 entries nothing is dropped |
| `MetricsChart.ReplayKeepsNewest` | frontend/src/app/components/MetricsChart.tsx:20-28 | after any sequence of messages the history is exactly the last 30 of everything received, in arrival order |
| `MetricsChart.History.constructor` | frontend/src/app/components/MetricsChart.tsx:16 | the history starts empty |
| `MetricsChart.History.OnMessage` | frontend/src/app/components/MetricsChart.tsx:20-28 | each message replaces the history by the sliding-window update and keeps it within 30 entries |
| `AlertFeed.SeverityColor` | frontend/src/app/components/AlertFeed.tsx:11-18 | red exactly for "high", orange exactly for "medium", green exactly for "low" (after lower-casing), gray for anything else |
| `AlertFeed.ColorIgnoresCase` | frontend/src/app/components/AlertFeed.tsx:12 | severities that differ only in letter case get the same colour |
| `AlertFeed.Feed.constructor` | frontend/src/app/components/AlertFeed.tsx:21-23 | no alerts, no error, loading |
| `AlertFeed.Feed.FetchAlerts` | frontend/src/app/components/AlertFeed.tsx:26-45 | loading ends; an array body becomes the alert list with no error; any other body empties the list with "Unexpected response format from server."; a fetch failure empties it with "Failed to fetch alerts." |
| `AlertFeed.ShownAlerts` | frontend/src/app/components/AlertFeed.tsx:32-37 | an array body is shown as it is with no error; anything else shows no alerts and the format error |
| `AlertFeed.EngineAlertsShown` | frontend/src/app/components/AlertFeed.tsx:32-37 | through the gateway, the feed shows exactly the engine's two alerts, in red and orange; when the engine is unreachable, the gateway's 500 envelope shows as the format error, not the fetch error |
| `Summarizer.InitialRows` | frontend/src/app/components/Summarizer.tsx:13-15 | the form starts with one row: temperature 25, vibration 0.1, speed 70 |
| `Summarizer.With` | frontend/src/app/components/Summarizer.tsx:22 | the edited field takes the new value; the other two fields keep theirs |
| `Summarizer.HandleChange` | frontend/src/app/components/Summarizer.tsx:20-24 | the row count is kept; row i gets the new value in the named field and keeps its other fields; every other row is unchanged |
| `Summarizer.AddRow` | frontend/src/app/components/Summarizer.tsx:26-27 | one default row is appended and the existing rows are unchanged |
| `Summarizer.OutOfRangeChangesNothing` | frontend/src/app/components/Summarizer.tsx:22 | an index outside the table leaves the rows as they were |
| `Summarizer.EditsCommute` | frontend/src/app/components/Summarizer.tsx:20-24 | edits of different cells commute; a second edit of the same cell overrides the first |
| `ReportParser.UrgencyColor` | frontend/src/app/components/ReportParser.tsx:6-10 | red exactly when the score is at least 0.85, amber exactly when it is in [0.6, 0.85), green exactly below 0.6 |
| `ReportParser.UrgencyMonotone` | frontend/src/app/components/ReportParser.tsx:6-10 | a higher score never gets a calmer colour |
| `ReportParser.ScoreColor` | frontend/src/app/components/ReportParser.tsx:118 | a missing or `null` urgency score is coloured as 0, which is green; a numeric one by its value |
| `ReportParser.MentionsZoneMeans` | frontend/src/app/components/ReportParser.tsx:52 | `/zone/i.test(e)` on a string holds exactly when "zone" occurs in it in any letter case; on an array (which `String(e)` joins with commas) exactly when one element matches; on any other value never |
| `ReportParser.FindZone` | frontend/src/app/components/ReportParser.tsx:52 | the zone is the first entity that mentions "zone" in any letter case; there is none exactly when no entity does |
| `ReportParser.DatePart` | frontend/src/app/components/ReportParser.tsx:51 | the draft's date is the first ten characters of the clock's ISO time |
| `ReportParser.PrefillLog` | frontend/src/app/components/ReportParser.tsx:48-56 | nothing happens without a parsed report; otherwise the zone is the first entity mentioning a zone, or `''`; the description is the summary when truthy, else the raw text; the engineer is `''`; entities that are neither nullish nor an array make the click throw |
| `ReportParser.EngineReportPrefill` | frontend/src/app/components/ReportParser.tsx:48-56 | a report parsed by the engine and passed on by the gateway is coloured red and prefills zone "Zone 6" with the engine's summary |

## Left out

- The multipart relay of POST /analyze-image (formidable, fs streams, form-data) is streaming I/O. As written it is unreachable: the handler fails on its first line. `Gateway.AnalyzeImage` models only that outcome.
- Express, axios, CORS, the listening port and the upstream host names are network plumbing. Only the CMS resource paths are kept.
- The chat provider's API key, read from the environment, and its Authorization header are foreign configuration.
- The chat router is never mounted in the gateway, and the client posts to `/api/chat`. `Chat.HandleChat` is modelled as a standalone handler; routing is not modelled.
- `Chat.HandleChat`: when the body is nullish the destructuring throws outside the `try`. The model says only that the handler writes no response. What the web framework then does with the rejected promise is not modelled.
- `Chat.Spread`: the wording of the TypeError for a non-iterable history is the JavaScript engine's. The model uses a fixed text for it. `Json.ReadError` uses V8's wording for reads from `null`/`undefined`.
- `Json.Index0`: on a string, JavaScript indexes UTF-16 code units and the model indexes characters. They differ only for characters outside the Basic Multilingual Plane.
- JSON objects are maps: key order, `NaN`, `Infinity` and inherited properties are not modelled. None of the keys the handlers read is inherited.
- `Engine.Predict`: the mock `score` field is float arithmetic and is not part of the record. Python floats are compared as the reals they denote.
- `Engine.Summary`: the averages and their `:.1f`/`:.3f` formatting are float arithmetic. They are a parameter (`averages`). Only the closing sentence and the empty-input division by zero are modelled.
- `Engine.AnalyzeImage`: the pixel rules (PIL, numpy, scipy) are floating-point image numerics. Their verdict is a parameter (`pixels`). A missing file name (`None.lower()`) is not modelled.
- `Engine.ParseReport`: the `except` branch of `parse_report` cannot be reached, because slicing and concatenating a string never raise.
- `Text.LowerChar` maps only the ASCII capitals and the Kelvin sign. This is exact for every comparison made here: equality with, or containment of, the ASCII lower-case words "high", "medium", "low", "crack", "tree", "branch", "debris" and "zone".
- `ReportParser.ScoreColor`: a present but non-numeric urgency score, which JavaScript would coerce before comparing, yields `None`.
- `ReportParser.PrefillLog`: the clock is a parameter. `handleSubmit`, the fetch around it and its loading/error setters are UI plumbing.
- `MetricsChart.History`: the metric record and its `Number(...)` parsing are left abstract as the element type. The socket lifecycle is not modelled.
- The telemetry socket server is left out: it sends random values on a timer.
- JSX rendering, styles and dates shown with `toLocaleString` are left out. So are the other components (page, live metrics, predictor, image analyzer, chat box, maintenance logs): they are UI and fetch plumbing.
