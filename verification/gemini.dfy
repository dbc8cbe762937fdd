/** The Gemini provider adapter: its configuration mapping, the request it sends
    (role-mapped contents, the joined system instruction, the safety settings table
    and the endpoint verb), and the fragments it yields from the response. */
module GeminiProvider {
  import opened Wrappers
  import opened Js
  import opened Types
  import Text
  import Seqs
  import LineStream

  const BaseUrl := "https://generativelanguage.googleapis.com/v1beta/models/"

  /** `mapSensitivityToThreshold`. */
  function MapSensitivityToThreshold(l: Level): string
  {
    match l
    case LevelNone => "BLOCK_NONE"
    case Low => "BLOCK_ONLY_HIGH"
    case Medium => "BLOCK_MEDIUM_AND_ABOVE"
    case High => "BLOCK_LOW_AND_ABOVE"
  }

  /** Different levels map to different thresholds. */
  lemma ThresholdInjective(a: Level, b: Level)
    requires MapSensitivityToThreshold(a) == MapSensitivityToThreshold(b)
    ensures a == b
  {
  }

  /** `mapping[level]` for whatever value the frontmatter holds: the value is turned
      into a property key, the four level names find their threshold, `"__proto__"`
      finds the object prototype (written out as `{}`), and every other key finds
      `undefined` or an inherited method, both of which the JSON encoding omits. */
  function ThresholdOf(level: Json): (r: Json)
    ensures forall l: Level :: JsString(level) == LevelName(l) ==> r == Str(MapSensitivityToThreshold(l))
  {
    var key := JsString(level);
    if key == "none" then Str(MapSensitivityToThreshold(LevelNone))
    else if key == "low" then Str(MapSensitivityToThreshold(Low))
    else if key == "medium" then Str(MapSensitivityToThreshold(Medium))
    else if key == "high" then Str(MapSensitivityToThreshold(High))
    else if key == "__proto__" then Obj(map[])
    else Undefined
  }

  /** The harm categories in the order the request lists them, each with its
      frontmatter key and its Gemini name. */
  const Categories: seq<(string, string)> := [
    ("harassment", "HARM_CATEGORY_HARASSMENT"),
    ("hate", "HARM_CATEGORY_HATE_SPEECH"),
    ("sexual", "HARM_CATEGORY_SEXUALLY_EXPLICIT"),
    ("dangerous", "HARM_CATEGORY_DANGEROUS_CONTENT")]

  /** One `safetySettings` entry. */
  function SafetyEntry(category: string, threshold: Json): Json
  {
    Obj(map["category" := Str(category), "threshold" := threshold])
  }

  /** The categories whose level is truthy in `sensitivity`, in the given order. */
  function SetCategories(sensitivity: Json, cats: seq<(string, string)>): seq<(string, string)>
  {
    Seqs.Filter(cats, LevelSet(sensitivity))
  }

  /** The category's level is truthy in `sensitivity`. */
  function LevelSet(sensitivity: Json): ((string, string)) -> bool
  {
    (c: (string, string)) => Truthy(Member(sensitivity, c.0))
  }

  /** The loop over the categories: each category contributes its entry, in order. */
  function SafetyEntries(sensitivity: Json, cats: seq<(string, string)>): seq<Json>
  {
    if |cats| == 0 then []
    else
      CategoryEntry(sensitivity, cats[0]) + SafetyEntries(sensitivity, cats[1..])
  }

  /** The loop's entries are one per category with a truthy level, in order, each
      carrying the threshold that level maps to. */
  lemma {:induction false} SafetyEntriesFollowFilter(sensitivity: Json, cats: seq<(string, string)>)
    ensures var r := SafetyEntries(sensitivity, cats);
      var kept := SetCategories(sensitivity, cats);
      && |r| == |kept|
      && forall i :: 0 <= i < |r| ==>
           r[i] == SafetyEntry(kept[i].1, ThresholdOf(Member(sensitivity, kept[i].0)))
  {
    if |cats| > 0 {
      SafetyEntriesFollowFilter(sensitivity, cats[1..]);
      var rest := SafetyEntries(sensitivity, cats[1..]);
      var keptRest := SetCategories(sensitivity, cats[1..]);
      var level := Member(sensitivity, cats[0].0);
      Seqs.FilterCons(cats, LevelSet(sensitivity));
      if Truthy(level) {
        var e := SafetyEntry(cats[0].1, ThresholdOf(level));
        assert SetCategories(sensitivity, cats) == [cats[0]] + keptRest;
        assert SafetyEntries(sensitivity, cats) == [e] + rest;
        EntriesCons(sensitivity, cats[0], rest, keptRest);
      } else {
        assert SetCategories(sensitivity, cats) == keptRest;
        assert SafetyEntries(sensitivity, cats) == rest;
      }
    }
  }

  /** Entries that match their categories still match after one more category's
      entry is put in front. */
  lemma EntriesCons(sensitivity: Json, c: (string, string), rest: seq<Json>, keptRest: seq<(string, string)>)
    requires |rest| == |keptRest|
    requires forall i :: 0 <= i < |rest| ==>
      rest[i] == SafetyEntry(keptRest[i].1, ThresholdOf(Member(sensitivity, keptRest[i].0)))
    ensures var r := [SafetyEntry(c.1, ThresholdOf(Member(sensitivity, c.0)))] + rest;
      var kept := [c] + keptRest;
      forall i :: 0 <= i < |r| ==> r[i] == SafetyEntry(kept[i].1, ThresholdOf(Member(sensitivity, kept[i].0)))
  {
  }

  /** The safety settings of a request: none without truthy sensitivity settings,
      and otherwise one entry per category whose level is set, in category order. */
  function SafetySettings(params: GenerationParams): (r: seq<Json>)
    ensures params.geminiSensitivity.None? ==> r == []
    ensures params.geminiSensitivity.Some? && !Truthy(params.geminiSensitivity.value) ==> r == []
    ensures |r| <= |Categories|
    ensures params.geminiSensitivity.Some? && Truthy(params.geminiSensitivity.value) ==>
      var s := params.geminiSensitivity.value;
      var kept := SetCategories(s, Categories);
      && |r| == |kept|
      && forall i :: 0 <= i < |r| ==> r[i] == SafetyEntry(kept[i].1, ThresholdOf(Member(s, kept[i].0)))
  {
    match params.geminiSensitivity
    case None => []
    case Some(s) =>
      if Truthy(s) then
        SafetyEntriesFollowFilter(s, Categories);
        SafetyEntries(s, Categories)
      else []
  }

  /** The safety settings a typed sensitivity record stands for: one entry per level
      it sets, in the order harassment, hate, sexual, dangerous. */
  function TypedSafetySettings(s: Sensitivity): seq<Json>
  {
    TypedEntry("HARM_CATEGORY_HARASSMENT", s.harassment)
      + TypedEntry("HARM_CATEGORY_HATE_SPEECH", s.hate)
      + TypedEntry("HARM_CATEGORY_SEXUALLY_EXPLICIT", s.sexual)
      + TypedEntry("HARM_CATEGORY_DANGEROUS_CONTENT", s.dangerous)
  }

  function TypedEntry(category: string, l: Option<Level>): seq<Json>
  {
    match l
    case None => []
    case Some(v) => [SafetyEntry(category, Str(MapSensitivityToThreshold(v)))]
  }

  /** The entries one category contributes. */
  function CategoryEntry(sensitivity: Json, c: (string, string)): seq<Json>
  {
    var level := Member(sensitivity, c.0);
    if Truthy(level) then [SafetyEntry(c.1, ThresholdOf(level))] else []
  }

  /** A frontmatter level as the typed settings hold it. */
  function LevelJson(l: Option<Level>): Json
  {
    match l
    case None => Undefined
    case Some(v) => Str(LevelName(v))
  }

  lemma CategoryEntryOfLevel(sensitivity: Json, c: (string, string), l: Option<Level>)
    requires Member(sensitivity, c.0) == LevelJson(l)
    ensures CategoryEntry(sensitivity, c) == TypedEntry(c.1, l)
  {
    if l.Some? {
      assert JsString(Str(LevelName(l.value))) == LevelName(l.value);
    }
  }

  /** The loop over four categories, unrolled. */
  lemma SafetyEntriesOfFour(sensitivity: Json, cats: seq<(string, string)>)
    requires |cats| == 4
    ensures SafetyEntries(sensitivity, cats)
            == CategoryEntry(sensitivity, cats[0]) + CategoryEntry(sensitivity, cats[1])
               + CategoryEntry(sensitivity, cats[2]) + CategoryEntry(sensitivity, cats[3])
  {
    var j := sensitivity;
    assert cats[3..][1..] == [];
    assert cats[2..][1..] == cats[3..];
    assert cats[1..][1..] == cats[2..];
    assert SafetyEntries(j, cats[3..]) == CategoryEntry(j, cats[3]);
    assert SafetyEntries(j, cats[2..]) == CategoryEntry(j, cats[2]) + SafetyEntries(j, cats[3..]);
    assert SafetyEntries(j, cats[1..]) == CategoryEntry(j, cats[1]) + SafetyEntries(j, cats[2..]);
  }

  /** Each key of typed settings written as frontmatter holds that category's level. */
  lemma SensitivityMembers(s: Sensitivity)
    ensures Member(SensitivityJson(s), "harassment") == LevelJson(s.harassment)
    ensures Member(SensitivityJson(s), "hate") == LevelJson(s.hate)
    ensures Member(SensitivityJson(s), "sexual") == LevelJson(s.sexual)
    ensures Member(SensitivityJson(s), "dangerous") == LevelJson(s.dangerous)
  {
  }

  /** For sensitivity settings of the documented shape, the request carries exactly
      the entries the typed settings describe. */
  lemma SafetySettingsOfTypedSensitivity(s: Sensitivity, params: GenerationParams)
    requires params.geminiSensitivity == Some(SensitivityJson(s))
    ensures SafetySettings(params) == TypedSafetySettings(s)
  {
    var j := SensitivityJson(s);
    var cats := Categories;
    SensitivityMembers(s);
    CategoryEntryOfLevel(j, cats[0], s.harassment);
    CategoryEntryOfLevel(j, cats[1], s.hate);
    CategoryEntryOfLevel(j, cats[2], s.sexual);
    CategoryEntryOfLevel(j, cats[3], s.dangerous);
    SafetyEntriesOfFour(j, cats);
  }

  /** Gemini's `mapConfig`: model, temperature, token limit, streaming flag and
      sensitivity settings, each copied unchanged. */
  function MapConfig(c: AIConfig): (p: GenerationParams)
    ensures p.model == c.model && p.temperature == c.temperature && p.maxTokens == c.maxTokens
    ensures p.stream == c.stream && p.geminiSensitivity == c.geminiSensitivity
  {
    GenerationParams(c.model, c.temperature, c.maxTokens, c.stream, c.geminiSensitivity)
  }

  /** The messages other than system messages, in order. */
  function ChatMessages(messages: seq<Message>): seq<Message>
  {
    Seqs.Filter(messages, (m: Message) => m.role != System)
  }

  /** The contents of the system messages, in order. */
  function SystemContents(messages: seq<Message>): seq<string>
  {
    var sys := Seqs.Filter(messages, (m: Message) => m.role == System);
    seq(|sys|, i requires 0 <= i < |sys| => sys[i].content)
  }

  /** The role a chat message has on the wire: `model` for the assistant, `user`
      for everything else. */
  function WireRole(r: Role): string
  {
    if r == Assistant then "model" else "user"
  }

  /** One entry of `contents`. */
  function Turn(m: Message): Json
  {
    Obj(map["role" := Str(WireRole(m.role)), "parts" := Arr([Obj(map["text" := Str(m.content)])])])
  }

  /** The `contents` of a request. */
  function Contents(messages: seq<Message>): seq<Json>
  {
    var chat := ChatMessages(messages);
    seq(|chat|, i requires 0 <= i < |chat| => Turn(chat[i]))
  }

  /** The message a `contents` entry stands for, read back from the wire. */
  function ReadTurn(j: Json): Option<Message>
  {
    var role := Member(j, "role");
    var text := Member(Element(Member(j, "parts"), 0), "text");
    if !text.Str? then None
    else if role == Str("model") then Some(Message(Assistant, text.s))
    else if role == Str("user") then Some(Message(User, text.s))
    else None
  }

  /** `contents` holds the non-system messages in order, each recoverable from its
      entry: the role mapping loses nothing once system messages are set apart. */
  lemma ContentsReadBack(messages: seq<Message>)
    ensures var chat := ChatMessages(messages);
      && |Contents(messages)| == |chat|
      && forall i :: 0 <= i < |chat| ==> ReadTurn(Contents(messages)[i]) == Some(chat[i])
  {
    var chat := ChatMessages(messages);
    forall i | 0 <= i < |chat|
      ensures ReadTurn(Contents(messages)[i]) == Some(chat[i])
    {
      assert chat[i] in messages && chat[i].role != System;
      var t := Turn(chat[i]);
      assert Member(Element(Member(t, "parts"), 0), "text") == Str(chat[i].content);
    }
  }

  /** The system instruction text: the system contents joined by a blank line. */
  function SystemText(messages: seq<Message>): string
  {
    Text.Join(SystemContents(messages), "\n\n")
  }

  /** The request body for the given contents, system text and safety settings:
      `contents` and `generationConfig` always, `systemInstruction` only for a
      non-empty system text, `safetySettings` only when there are some. */
  function Assemble(contents: seq<Json>, sys: string, safety: seq<Json>, params: GenerationParams): (body: Json)
    ensures body.Obj?
    ensures Member(body, "contents") == Arr(contents)
    ensures Member(body, "generationConfig")
            == Obj(map["temperature" := Num(params.temperature), "maxOutputTokens" := Num(params.maxTokens)])
    ensures "systemInstruction" in body.fields <==> sys != ""
    ensures "systemInstruction" in body.fields ==>
      body.fields["systemInstruction"] == Obj(map["parts" := Arr([Obj(map["text" := Str(sys)])])])
    ensures "safetySettings" in body.fields <==> |safety| > 0
    ensures "safetySettings" in body.fields ==> body.fields["safetySettings"] == Arr(safety)
    ensures body.fields.Keys <= {"contents", "generationConfig", "systemInstruction", "safetySettings"}
  {
    var required := map[
      "contents" := Arr(contents),
      "generationConfig" := Obj(map["temperature" := Num(params.temperature),
                                    "maxOutputTokens" := Num(params.maxTokens)])];
    var instruction := if sys != "" then map["systemInstruction" := Obj(map["parts" := Arr([Obj(map["text" := Str(sys)])])])]
                       else map[];
    var settings := if |safety| > 0 then map["safetySettings" := Arr(safety)] else map[];
    Obj(required + instruction + settings)
  }

  /** The body `send` posts for a chat: the non-system messages as `contents`, a
      system instruction only when the system messages say something, and safety
      settings only when some level is set. */
  function Body(messages: seq<Message>, params: GenerationParams): (body: Json)
    ensures body.Obj?
    ensures Member(body, "contents") == Arr(Contents(messages))
    ensures var sys := SystemContents(messages);
      "systemInstruction" in body.fields <==> |sys| >= 2 || (|sys| == 1 && sys[0] != "")
    ensures "safetySettings" in body.fields <==> |SafetySettings(params)| > 0
    ensures params.geminiSensitivity.None? ==> "safetySettings" !in body.fields
  {
    SystemInstructionPresence(messages);
    Assemble(Contents(messages), SystemText(messages), SafetySettings(params), params)
  }

  /** The endpoint verb. */
  function Verb(stream: bool): string
  {
    if stream then "streamGenerateContent" else "generateContent"
  }

  /** The request `send` issues: the key travels in the URL's query string. */
  function MakeRequest(messages: seq<Message>, params: GenerationParams, apiKey: string): (r: Request)
    ensures r.url == BaseUrl + params.model + ":" + Verb(params.stream) + "?key=" + apiKey
    ensures r.headers == map["Content-Type" := "application/json"]
    ensures r.body == Body(messages, params)
  {
    Request(BaseUrl + params.model + ":" + Verb(params.stream) + "?key=" + apiKey,
            map["Content-Type" := "application/json"],
            Body(messages, params))
  }

  /** A system instruction is sent exactly when there are two or more system messages
      or one with non-empty content. */
  lemma SystemInstructionPresence(messages: seq<Message>)
    ensures var sys := SystemContents(messages);
      SystemText(messages) != "" <==> |sys| >= 2 || (|sys| == 1 && sys[0] != "")
  {
    Text.JoinEmpty(SystemContents(messages), "\n\n");
  }

  /** `candidates?.[0]?.content?.parts?.[0]?.text`, from the value of `candidates`. */
  function CandidateText(candidates: Json): Json
  {
    OptProp(OptIndex(OptProp(OptProp(OptIndex(candidates, 0), "content"), "parts"), 0), "text")
  }

  /** One complete line of the streamed body: blank lines and lines that do not parse
      or do not have the expected shape produce nothing, and neither does a falsy text. */
  function DecodeLine(parse: string -> Option<Json>, line: string): (r: Option<Json>)
    ensures Text.Trim(line) == "" ==> r.None?
    ensures parse(line).None? ==> r.None?
    ensures r.Some? ==> Truthy(r.value)
    ensures r.Some? ==> parse(line).Some? && r.value == CandidateText(Member(parse(line).value, "candidates"))
    ensures Text.Trim(line) != "" && parse(line).Some? && !parse(line).value.IsNullish()
            && Truthy(CandidateText(Member(parse(line).value, "candidates")))
            ==> r == Some(CandidateText(Member(parse(line).value, "candidates")))
  {
    if Text.Trim(line) == "" then None
    else
      match parse(line)
      case None => None
      case Some(parsed) =>
        match Prop(parsed, "candidates")
        case Failure(_) => None
        case Success(candidates) =>
          var text := CandidateText(candidates);
          if Truthy(text) then Some(text) else None
  }

  function LineDecoder(parse: string -> Option<Json>): string -> Option<Json>
  {
    (line: string) => DecodeLine(parse, line)
  }

  /** What the generator `send` yields once the request has been answered. */
  function ReplyTo(params: GenerationParams, response: HttpResponse, parse: string -> Option<Json>): (r: Reply)
    ensures response.FetchFailed? ==> r == Reply([], Some(NetworkFailure))
    ensures response.Response? && !response.ok ==> r.fragments == [] && r.failure.Some?
    ensures response.Response? && !response.ok && !response.readFails ==>
      r.failure == Some(HttpStatus(Gemini, response.status, ConcatStrings(response.chunks)))
    ensures response.Response? && response.ok && !params.stream && r.failure.None? ==>
      |r.fragments| == 1
    ensures response.Response? && response.ok && params.stream && response.readable ==>
      && r.fragments == LineStream.StreamFragments(response.chunks, LineDecoder(parse))
      && (r.failure.Some? <==> response.readFails)
    ensures response.Response? && response.ok && params.stream && !response.readable ==>
      r == Reply([], Some(BodyNotReadable))
  {
    match response
    case FetchFailed => Reply([], Some(NetworkFailure))
    case Response(ok, status, chunks, readable, readFails) =>
      var body := ConcatStrings(chunks);
      if !ok then
        Reply([], Some(if readFails then ReadFailure else HttpStatus(Gemini, status, body)))
      else if !params.stream then
        if readFails then Reply([], Some(ReadFailure))
        else
          match parse(body)
          case None => Reply([], Some(MalformedJson))
          case Some(data) =>
            match Prop(data, "candidates")
            case Failure(_) => Reply([], Some(ResponseTypeError))
            case Success(candidates) =>
              var text := CandidateText(candidates);
              Reply([if Truthy(text) then text else Str("")], None)
      else if !readable then Reply([], Some(BodyNotReadable))
      else
        Reply(LineStream.StreamFragments(chunks, LineDecoder(parse)),
                    if readFails then Some(ReadFailure) else None)
  }

  /** Every fragment of a streamed reply is truthy. */
  lemma StreamedFragmentsTruthy(chunks: seq<string>, parse: string -> Option<Json>)
    ensures forall i :: 0 <= i < |LineStream.StreamFragments(chunks, LineDecoder(parse))| ==>
      Truthy(LineStream.StreamFragments(chunks, LineDecoder(parse))[i])
  {
    LineStream.StreamFragmentsTruthy(chunks, LineDecoder(parse));
  }

  /** The streamed reply is the same however the body was cut into chunks. */
  lemma StreamReplyIgnoresChunking(params: GenerationParams, a: HttpResponse, b: HttpResponse,
                                   parse: string -> Option<Json>)
    requires params.stream
    requires a.Response? && b.Response? && a.ok && b.ok && a.readable && b.readable
    requires a.readFails == b.readFails
    requires ConcatStrings(a.chunks) == ConcatStrings(b.chunks)
    ensures ReplyTo(params, a, parse) == ReplyTo(params, b, parse)
  {
    LineStream.ChunkBoundariesIrrelevant(a.chunks, b.chunks, LineDecoder(parse));
  }

  /** A non-streaming reply is one fragment: the candidate's text, or `""` when it is
      missing or falsy. */
  lemma NonStreamingReply(params: GenerationParams, response: HttpResponse, parse: string -> Option<Json>,
                          data: Json)
    requires !params.stream
    requires response.Response? && response.ok && !response.readFails
    requires parse(ConcatStrings(response.chunks)) == Some(data) && !data.IsNullish()
    ensures var text := CandidateText(Member(data, "candidates"));
      ReplyTo(params, response, parse) == Reply([if Truthy(text) then text else Str("")], None)
  {
  }

  /** A response object whose first candidate's first part has the given text. */
  function CandidateJson(text: Json): Json
  {
    Obj(map["candidates" := Arr([Obj(map["content" := Obj(map["parts" := Arr([Obj(map["text" := text])])])])])])
  }

  lemma CandidateTextOf(text: Json)
    ensures CandidateText(Member(CandidateJson(text), "candidates")) == text
  {
    var parts := Arr([Obj(map["text" := text])]);
    var content := Obj(map["parts" := parts]);
    var candidates := Arr([Obj(map["content" := content])]);
    assert Member(CandidateJson(text), "candidates") == candidates;
    assert OptIndex(candidates, 0) == Obj(map["content" := content]);
    assert OptProp(OptIndex(candidates, 0), "content") == content;
    assert OptProp(content, "parts") == parts;
    assert OptIndex(parts, 0) == Obj(map["text" := text]);
  }

  /** A non-blank line holding a candidate with truthy text yields that text. */
  lemma CandidateLineDecoded(parse: string -> Option<Json>, line: string, text: Json)
    requires Text.Trim(line) != "" && Truthy(text)
    requires parse(line) == Some(CandidateJson(text))
    ensures DecodeLine(parse, line) == Some(text)
  {
    CandidateTextOf(text);
  }

  /** Two JSON lines whose texts are `"A"` and `"B"` yield `["A", "B"]`. */
  lemma TwoLineExample(parse: string -> Option<Json>, l1: string, l2: string)
    requires '\n' !in l1 && '\n' !in l2 && Text.Trim(l1) != "" && Text.Trim(l2) != ""
    requires parse(l1) == Some(CandidateJson(Str("A")))
    requires parse(l2) == Some(CandidateJson(Str("B")))
    ensures LineStream.StreamFragments([LineStream.Terminated([l1, l2])], LineDecoder(parse)) == [Str("A"), Str("B")]
  {
    var d := LineDecoder(parse);
    LineStream.DecodeTerminatedLines([l1, l2], d);
    CandidateLineDecoded(parse, l1, Str("A"));
    CandidateLineDecoded(parse, l2, Str("B"));
    assert d(l1) == Some(Str("A")) && d(l2) == Some(Str("B"));
    assert [l1, l2][1..] == [l2];
    assert [l2][1..] == [];
    assert LineStream.LinesOutput([l2], d) == [Str("B")];
  }
}
