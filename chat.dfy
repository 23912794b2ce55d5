/** The `/chat` router (api-gateway/chat.js): the message list sent to the
    chat-completions provider, the extraction of the reply, and the error
    envelope. The provider call is a parameter, like every upstream call of the
    gateway; the API key and its header are not modelled. */
module Chat {
  import opened Json
  import opened Gateway

  const SystemPrompt := "You are a helpful railways assistant. Reply concisely and professionally."
  const ChatError := "Chatbot error"
  const ChatModel := "deepseek/deepseek-r1:free"

  /** What the handler does with a request: write a response, or let an
      exception thrown before its `try` escape, in which case it writes nothing. */
  datatype Handled = NoResponse | Wrote(response: Response)

  function Message(role: string, content: Json): (m: Json)
    ensures m.Obj? && m.fields.Keys == {"role", "content"}
  {
    Obj(map["role" := Str(role), "content" := content])
  }

  function SystemMessage(): Json {
    Message("system", Str(SystemPrompt))
  }

  /** `const { history = [] } = body`: the default replaces only `undefined`. */
  function HistoryOf(body: Json): (h: Json)
    requires !Nullish(body)
    ensures Field(body, "history").Absent? ==> h == Arr([])
    ensures !Field(body, "history").Absent? ==> h == Field(body, "history")
  {
    var h := Field(body, "history");
    if h.Absent? then Arr([]) else h
  }

  /** `...v` inside an array literal: an array gives its elements, a string one
      string per character; anything else is not iterable and throws. */
  function Spread(v: Json): (r: Eval<seq<Json>>)
    ensures r.Throw? <==> !v.Arr? && !v.Str?
    ensures v.Arr? ==> r == Value(v.items)
    ensures v.Str? ==> r.Value? && |r.value| == |v.s|
    ensures v.Str? ==> forall i :: 0 <= i < |v.s| ==> r.value[i] == Str([v.s[i]])
  {
    match v
    case Arr(items) => Value(items)
    case Str(s) => Value(seq(|s|, i requires 0 <= i < |s| => Str([s[i]])))
    case _ => Throw("history is not iterable")
  }

  /** `[system, ...history, {role: 'user', content: message}]`. */
  function Messages(body: Json): (r: Eval<seq<Json>>)
    requires !Nullish(body)
    ensures r.Throw? <==> Spread(HistoryOf(body)).Throw?
    ensures r.Value? ==> var h := Spread(HistoryOf(body)).value;
      && |r.value| == |h| + 2
      && r.value[0] == SystemMessage()
      && r.value[1..|r.value| - 1] == h
      && r.value[|r.value| - 1] == Message("user", Field(body, "message"))
  {
    match Spread(HistoryOf(body))
    case Throw(m) => Throw(m)
    case Value(h) => Value([SystemMessage()] + h + [Message("user", Field(body, "message"))])
  }

  /** The JSON body posted to the provider. */
  function CompletionRequest(messages: seq<Json>): (p: Json)
    ensures p.Obj? && p.fields.Keys == {"model", "messages"}
    ensures p.fields["model"] == Str(ChatModel) && p.fields["messages"] == Arr(messages)
  {
    Obj(map["model" := Str(ChatModel), "messages" := Arr(messages)])
  }

  /** `data.choices[0].message.content`: each step before the last throws when
      it meets `null` or `undefined`. */
  function ReplyContent(data: Json): (r: Eval<Json>)
    ensures r.Value? ==> exists choices, first, message ::
      Prop(data, "choices") == Value(choices) && Index0(choices) == Value(first)
      && Prop(first, "message") == Value(message) && Prop(message, "content") == r
    ensures forall choices, first, message ::
      (Prop(data, "choices") == Value(choices) && Index0(choices) == Value(first)
       && Prop(first, "message") == Value(message)) ==> r == Prop(message, "content")
    ensures Prop(data, "choices").Throw? ==> r.Throw?
    ensures Prop(data, "choices").Value? && Index0(Prop(data, "choices").value).Throw? ==> r.Throw?
    ensures (Prop(data, "choices").Value? && Index0(Prop(data, "choices").value).Value?
       && Prop(Index0(Prop(data, "choices").value).value, "message").Throw?) ==> r.Throw?
  {
    match Prop(data, "choices")
    case Throw(m) => Throw(m)
    case Value(choices) =>
      match Index0(choices)
      case Throw(m) => Throw(m)
      case Value(first) =>
        match Prop(first, "message")
        case Throw(m) => Throw(m)
        case Value(message) => Prop(message, "content")
  }

  function ErrorBody(details: string): (b: Json)
    ensures b.Obj? && b.fields.Keys == {"error", "details"}
  {
    Obj(map["error" := Str(ChatError), "details" := Str(details)])
  }

  /** POST /chat. */
  function HandleChat(body: Json, up: Upstream): (r: Handled)
    ensures Nullish(body) ==> r == NoResponse
    ensures !Nullish(body) && Messages(body).Throw? ==>
      r == Wrote(Response(500, ErrorBody(Messages(body).message)))
    ensures !Nullish(body) && Messages(body).Value? && up.Failure? ==>
      r == Wrote(Response(500, ErrorBody(up.message)))
    ensures !Nullish(body) && Messages(body).Value? && up.Reply? ==>
      match ReplyContent(up.data)
      case Throw(m) => r == Wrote(Response(500, ErrorBody(m)))
      case Value(c) => r == Wrote(Response(200, Single("content", c)))
  {
    if Nullish(body) then NoResponse
    else match Messages(body)
      case Throw(m) => Wrote(Response(500, ErrorBody(m)))
      case Value(_) =>
        match up
        case Failure(m) => Wrote(Response(500, ErrorBody(m)))
        case Reply(data) =>
          match ReplyContent(data)
          case Throw(m) => Wrote(Response(500, ErrorBody(m)))
          case Value(c) => Wrote(Response(200, Single("content", c)))
  }

  /** Every caller-supplied history entry reaches the provider, in order and
      unchanged, between the system prompt and the new message. */
  lemma HistoryPreserved(body: Json, i: nat)
    requires !Nullish(body) && Field(body, "history").Arr?
    requires i < |Field(body, "history").items|
    ensures Messages(body).Value?
    ensures |Messages(body).value| == |Field(body, "history").items| + 2
    ensures Messages(body).value[i + 1] == Field(body, "history").items[i]
  {
    var h := Field(body, "history").items;
    var r := Messages(body).value;
    assert r[1..|r| - 1][i] == r[i + 1];
  }

  /** A provider reply of the usual shape, `{choices: [{message: {content}}]}`,
      is answered 200 `{content}` whatever the request's history array holds. */
  lemma WellFormedReplyAnswered(text: string, history: seq<Json>, content: string)
    ensures var body := Obj(map["message" := Str(text), "history" := Arr(history)]);
      var data := Single("choices", Arr([Single("message", Single("content", Str(content)))]));
      HandleChat(body, Reply(data)) == Wrote(Response(200, Single("content", Str(content))))
  {
    var body := Obj(map["message" := Str(text), "history" := Arr(history)]);
    assert Field(body, "history") == Arr(history);
    var message := Single("content", Str(content));
    var first := Single("message", message);
    var data := Single("choices", Arr([first]));
    assert Prop(data, "choices") == Value(Arr([first]));
    assert Index0(Arr([first])) == Value(first);
    assert Prop(first, "message") == Value(message);
  }

  /** A reply whose `choices` is empty reads `message` from `undefined`: the
      handler answers 500 with that TypeError as the details. */
  lemma EmptyChoicesAnswered500(text: string)
    ensures var body := Single("message", Str(text));
      HandleChat(body, Reply(Single("choices", Arr([]))))
        == Wrote(Response(500, ErrorBody("Cannot read properties of undefined (reading 'message')")))
  {
    var body := Single("message", Str(text));
    assert Field(body, "history") == Absent;
    assert Messages(body).Value?;
    var data := Single("choices", Arr([]));
    assert Prop(data, "choices") == Value(Arr([]));
    assert Index0(Arr([])) == Value(Absent);
    assert ReplyContent(data) == Throw(ReadError(Absent, "message"));
    UndefinedMessageRead();
  }

  lemma UndefinedMessageRead()
    ensures ReadError(Absent, "message") == "Cannot read properties of undefined (reading 'message')"
  {
  }

  /** A one-entry history and a new message make three messages upstream:
      the system prompt, the history entry, the new message. */
  lemma ThreeMessages(text: string, entry: Json)
    ensures var body := Obj(map["message" := Str(text), "history" := Arr([entry])]);
      Messages(body) == Value([SystemMessage(), entry, Message("user", Str(text))])
  {
    var body := Obj(map["message" := Str(text), "history" := Arr([entry])]);
    assert Field(body, "history") == Arr([entry]) && Field(body, "message") == Str(text);
    var r := Messages(body).value;
    assert r[1..|r| - 1] == [entry];
    assert r == [SystemMessage(), entry, Message("user", Str(text))];
  }
}
