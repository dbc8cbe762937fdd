/** The OpenAI provider adapter: its configuration mapping, the chat-completions
    request it sends, and the fragments it yields from the response, either the one
    message of a complete reply or the `data: ` lines of a server-sent event stream. */
module OpenAIProvider {
  import opened Wrappers
  import opened Js
  import opened Types
  import Text
  import LineStream

  const Url := "https://api.openai.com/v1/chat/completions"

  /** The prefix of an event line, and the payload that ends the stream. */
  const DataPrefix := "data: "
  const Done := "[DONE]"

  /** OpenAI's `mapConfig`: model, temperature, token limit and streaming flag are
      copied; the Gemini sensitivity settings are dropped. */
  function MapConfig(c: AIConfig): (p: GenerationParams)
    ensures p.model == c.model && p.temperature == c.temperature && p.maxTokens == c.maxTokens
    ensures p.stream == c.stream && p.geminiSensitivity.None?
  {
    GenerationParams(c.model, c.temperature, c.maxTokens, c.stream, None)
  }

  /** A chat message as `JSON.stringify` sees it. */
  function MessageJson(m: Message): Json
  {
    Obj(map["role" := Str(RoleName(m.role)), "content" := Str(m.content)])
  }

  /** The request body: the messages unchanged and in order, with the generation
      parameters under OpenAI's names. */
  function Body(messages: seq<Message>, params: GenerationParams): (body: Json)
    ensures body.Obj?
    ensures body.fields.Keys == {"model", "messages", "temperature", "max_tokens", "stream"}
    ensures Member(body, "messages").Arr? && |Member(body, "messages").items| == |messages|
  {
    Obj(map[
      "model" := Str(params.model),
      "messages" := Arr(seq(|messages|, i requires 0 <= i < |messages| => MessageJson(messages[i]))),
      "temperature" := Num(params.temperature),
      "max_tokens" := Num(params.maxTokens),
      "stream" := Bool(params.stream)])
  }

  /** The role a wire role name stands for. */
  function RoleNamed(name: string): Option<Role>
  {
    if name == "system" then Some(System)
    else if name == "user" then Some(User)
    else if name == "assistant" then Some(Assistant)
    else None
  }

  /** The message a `messages` entry stands for, read back from the wire. */
  function ReadMessage(j: Json): Option<Message>
  {
    var role := Member(j, "role");
    var content := Member(j, "content");
    if !role.Str? || !content.Str? then None
    else match RoleNamed(role.s)
      case None => None
      case Some(r) => Some(Message(r, content.s))
  }

  /** The body carries the model, the parameters and every message, in order, each
      recoverable from its entry. */
  lemma BodyReadBack(messages: seq<Message>, params: GenerationParams)
    ensures var body := Body(messages, params);
      && Member(body, "model") == Str(params.model)
      && Member(body, "temperature") == Num(params.temperature)
      && Member(body, "max_tokens") == Num(params.maxTokens)
      && Member(body, "stream") == Bool(params.stream)
      && Member(body, "messages").Arr?
      && |Member(body, "messages").items| == |messages|
      && forall i :: 0 <= i < |messages| ==> ReadMessage(Member(body, "messages").items[i]) == Some(messages[i])
  {
    var items := Member(Body(messages, params), "messages").items;
    forall i | 0 <= i < |messages|
      ensures ReadMessage(items[i]) == Some(messages[i])
    {
      var m := messages[i];
      assert items[i] == MessageJson(m);
      assert Member(MessageJson(m), "role") == Str(RoleName(m.role));
      assert Member(MessageJson(m), "content") == Str(m.content);
    }
  }

  /** The request `send` issues: the key travels as a bearer token. */
  function MakeRequest(messages: seq<Message>, params: GenerationParams, apiKey: string): (r: Request)
    ensures r.url == Url && r.body == Body(messages, params)
    ensures r.headers.Keys == {"Content-Type", "Authorization"}
    ensures r.headers["Content-Type"] == "application/json"
    ensures r.headers["Authorization"] == "Bearer " + apiKey
  {
    Request(Url, map["Content-Type" := "application/json", "Authorization" := "Bearer " + apiKey],
            Body(messages, params))
  }

  /** `data.choices[0].message.content`: each step but the last throws when the value
      it reads from is `null` or `undefined`. */
  function MessageContent(data: Json): (r: Result<Json, TypeError>)
    ensures r.Success? <==>
      && !data.IsNullish()
      && !Member(data, "choices").IsNullish()
      && !Element(Member(data, "choices"), 0).IsNullish()
      && !Member(Element(Member(data, "choices"), 0), "message").IsNullish()
    ensures r.Success? ==> r.value == Member(Member(Element(Member(data, "choices"), 0), "message"), "content")
  {
    var choices :- Prop(data, "choices");
    var first :- Index(choices, 0);
    var message :- Prop(first, "message");
    Prop(message, "content")
  }

  /** `parsed.choices[0]?.delta?.content`: only the first two steps can throw. */
  function DeltaContent(parsed: Json): (r: Result<Json, TypeError>)
    ensures r.Success? <==> !parsed.IsNullish() && !Member(parsed, "choices").IsNullish()
    ensures r.Success? ==> r.value == OptProp(OptProp(Element(Member(parsed, "choices"), 0), "delta"), "content")
  {
    var choices :- Prop(parsed, "choices");
    var first :- Index(choices, 0);
    Success(OptProp(OptProp(first, "delta"), "content"))
  }

  /** One complete line of the event stream. Only lines starting with `data: ` are
      read; their payload is the rest of the line. The `[DONE]` payload, a payload
      that does not parse or throws on access, and a falsy content produce nothing. */
  function DecodeLine(parse: string -> Option<Json>, line: string): (r: Option<Json>)
    ensures !Text.StartsWith(line, DataPrefix) ==> r.None?
    ensures Text.StartsWith(line, DataPrefix) && line[|DataPrefix|..] == Done ==> r.None?
    ensures r.Some? ==> Truthy(r.value)
    ensures r.Some? ==>
      && Text.StartsWith(line, DataPrefix)
      && parse(line[|DataPrefix|..]).Some?
      && DeltaContent(parse(line[|DataPrefix|..]).value) == Success(r.value)
  {
    if !Text.StartsWith(line, DataPrefix) then None
    else
      var payload := line[|DataPrefix|..];
      if payload == Done then None
      else
        match parse(payload)
        case None => None
        case Some(parsed) =>
          match DeltaContent(parsed)
          case Failure(_) => None
          case Success(content) => if Truthy(content) then Some(content) else None
  }

  /** Every `data: ` line whose payload has a truthy delta content yields it. */
  lemma DataLineYields(parse: string -> Option<Json>, payload: string, parsed: Json)
    requires payload != Done && parse(payload) == Some(parsed)
    requires DeltaContent(parsed).Success? && Truthy(DeltaContent(parsed).value)
    ensures DecodeLine(parse, DataPrefix + payload) == Some(DeltaContent(parsed).value)
  {
    var line := DataPrefix + payload;
    assert line[..|DataPrefix|] == DataPrefix;
    assert line[|DataPrefix|..] == payload;
  }

  function LineDecoder(parse: string -> Option<Json>): string -> Option<Json>
  {
    (line: string) => DecodeLine(parse, line)
  }

  /** What the generator `send` yields once the request has been answered. */
  function ReplyTo(params: GenerationParams, response: HttpResponse, parse: string -> Option<Json>): (r: Reply)
    ensures response.FetchFailed? ==> r == Reply([], Some(NetworkFailure))
    ensures response.Response? && !response.ok ==> r.fragments == [] && r.failure.Some?
    ensures response.Response? && !response.ok && !response.readFails ==>
      r.failure == Some(HttpStatus(OpenAI, response.status, ConcatStrings(response.chunks)))
    ensures response.Response? && response.ok && !params.stream ==>
      (r.failure.None? <==>
        && !response.readFails
        && parse(ConcatStrings(response.chunks)).Some?
        && MessageContent(parse(ConcatStrings(response.chunks)).value).Success?)
    ensures response.Response? && response.ok && !params.stream && r.failure.None? ==>
      r.fragments == [MessageContent(parse(ConcatStrings(response.chunks)).value).value]
    ensures response.Response? && response.ok && params.stream && response.readable ==>
      && r.fragments == LineStream.StreamFragments(response.chunks, LineDecoder(parse))
      && (r.failure.Some? <==> response.readFails)
    ensures response.Response? && response.ok && params.stream && !response.readable ==>
      r == Reply([], Some(BodyNotReadable))
  {
    match response
    case FetchFailed => Reply([], Some(NetworkFailure))
    case Response(ok, status, chunks, readable, readFails) =>
      var body := ConcatStrings(chunks);
      if !ok then
        Reply([], Some(if readFails then ReadFailure else HttpStatus(OpenAI, status, body)))
      else if !params.stream then
        if readFails then Reply([], Some(ReadFailure))
        else
          match parse(body)
          case None => Reply([], Some(MalformedJson))
          case Some(data) =>
            match MessageContent(data)
            case Failure(_) => Reply([], Some(ResponseTypeError))
            case Success(content) => Reply([content], None)
      else if !readable then Reply([], Some(BodyNotReadable))
      else
        Reply(LineStream.StreamFragments(chunks, LineDecoder(parse)),
              if readFails then Some(ReadFailure) else None)
  }

  /** The error a non-ok response raises carries its status and body text. */
  lemma HttpErrorMessage(params: GenerationParams, response: HttpResponse, parse: string -> Option<Json>)
    requires response.Response? && !response.ok && !response.readFails
    ensures var r := ReplyTo(params, response, parse);
      r.failure.Some? &&
      ErrorMessage(r.failure.value)
        == Some("OpenAI API error (" + Text.IntToString(response.status) + "): " + ConcatStrings(response.chunks))
  {
  }

  /** A response object whose first choice's message has the given content. */
  function ChoiceJson(content: Json): Json
  {
    Obj(map["choices" := Arr([Obj(map["message" := Obj(map["content" := content])])])])
  }

  /** A complete reply yields its message content as it is, with no `""` fallback: a
      missing content is yielded as `undefined`. */
  lemma NonStreamingContentVerbatim(params: GenerationParams, response: HttpResponse,
                                    parse: string -> Option<Json>, content: Json)
    requires !params.stream && response.Response? && response.ok && !response.readFails
    requires parse(ConcatStrings(response.chunks)) == Some(ChoiceJson(content))
    ensures ReplyTo(params, response, parse) == Reply([content], None)
  {
    var data := ChoiceJson(content);
    var message := Obj(map["content" := content]);
    var choices := Arr([Obj(map["message" := message])]);
    assert Member(data, "choices") == choices;
    assert Element(choices, 0) == Obj(map["message" := message]);
    assert Member(Element(choices, 0), "message") == message;
  }

  /** Every fragment of a streamed reply is truthy. */
  lemma StreamedFragmentsTruthy(chunks: seq<string>, parse: string -> Option<Json>)
    ensures forall i :: 0 <= i < |LineStream.StreamFragments(chunks, LineDecoder(parse))| ==>
      Truthy(LineStream.StreamFragments(chunks, LineDecoder(parse))[i])
  {
    LineStream.StreamFragmentsTruthy(chunks, LineDecoder(parse));
  }

  /** The streamed reply is the same however the body was cut into chunks. */
  lemma StreamReplyIgnoresChunking(params: GenerationParams, a: HttpResponse, b: HttpResponse,
                                   parse: string -> Option<Json>)
    requires params.stream
    requires a.Response? && b.Response? && a.ok && b.ok && a.readable && b.readable
    requires a.readFails == b.readFails
    requires ConcatStrings(a.chunks) == ConcatStrings(b.chunks)
    ensures ReplyTo(params, a, parse) == ReplyTo(params, b, parse)
  {
    LineStream.ChunkBoundariesIrrelevant(a.chunks, b.chunks, LineDecoder(parse));
  }

  /** An event payload whose first choice's delta has the given content. */
  function DeltaJson(content: Json): Json
  {
    Obj(map["choices" := Arr([Obj(map["delta" := Obj(map["content" := content])])])])
  }

  /** An event line holding a delta with truthy content yields that content. */
  lemma DeltaLineDecoded(parse: string -> Option<Json>, payload: string, content: Json)
    requires payload != Done && Truthy(content)
    requires parse(payload) == Some(DeltaJson(content))
    ensures DecodeLine(parse, DataPrefix + payload) == Some(content)
  {
    var delta := Obj(map["content" := content]);
    var choices := Arr([Obj(map["delta" := delta])]);
    assert Member(DeltaJson(content), "choices") == choices;
    assert Element(choices, 0) == Obj(map["delta" := delta]);
    assert OptProp(Element(choices, 0), "delta") == delta;
    DataLineYields(parse, payload, DeltaJson(content));
  }

  /** Two delta events with contents `"Hel"` and `"lo"` followed by the `[DONE]`
      marker yield `["Hel", "lo"]`. */
  lemma EventStreamExample(parse: string -> Option<Json>, p1: string, p2: string)
    requires '\n' !in p1 && '\n' !in p2 && p1 != Done && p2 != Done
    requires parse(p1) == Some(DeltaJson(Str("Hel")))
    requires parse(p2) == Some(DeltaJson(Str("lo")))
    ensures LineStream.StreamFragments([LineStream.Terminated([DataPrefix + p1, DataPrefix + p2, DataPrefix + Done])],
                                       LineDecoder(parse))
            == [Str("Hel"), Str("lo")]
  {
    var d := LineDecoder(parse);
    var lines := [DataPrefix + p1, DataPrefix + p2, DataPrefix + Done];
    EventLinesHaveNoLineFeed(p1, p2);
    LineStream.DecodeTerminatedLines(lines, d);
    DeltaLineDecoded(parse, p1, Str("Hel"));
    DeltaLineDecoded(parse, p2, Str("lo"));
    DoneLineSkipped(parse);
    LineStream.LinesOutputOfThree(lines, d);
  }

  lemma EventLinesHaveNoLineFeed(p1: string, p2: string)
    requires '\n' !in p1 && '\n' !in p2
    ensures var lines := [DataPrefix + p1, DataPrefix + p2, DataPrefix + Done];
      forall i :: 0 <= i < |lines| ==> '\n' !in lines[i]
  {
  }

  /** The `[DONE]` line yields nothing. */
  lemma DoneLineSkipped(parse: string -> Option<Json>)
    ensures DecodeLine(parse, DataPrefix + Done).None?
  {
    var line := DataPrefix + Done;
    assert line[..|DataPrefix|] == DataPrefix;
    assert line[|DataPrefix|..] == Done;
  }

  /** The end-of-stream marker does not end the stream: event lines after it are
      still decoded. */
  lemma DoneDoesNotStop(parse: string -> Option<Json>, before: seq<string>, after: seq<string>)
    ensures LineStream.LinesOutput(before + [DataPrefix + Done] + after, LineDecoder(parse))
            == LineStream.LinesOutput(before, LineDecoder(parse)) + LineStream.LinesOutput(after, LineDecoder(parse))
  {
    var line := DataPrefix + Done;
    assert line[..|DataPrefix|] == DataPrefix;
    assert line[|DataPrefix|..] == Done;
    assert LineDecoder(parse)(line).None?;
    LineStream.RejectedLineSkipped(before, line, after, LineDecoder(parse));
  }
}
