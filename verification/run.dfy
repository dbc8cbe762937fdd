/** The orchestrator `runAIPersonality`: a sequence of checks, each of which can end
    the run with one notice, followed by the editor operations that make room for
    the reply and write it. A run is described by the effects it issues, in order;
    the editor, the vault, the network and `JSON.parse` are the host's and enter as
    inputs. */
module Run {
  import opened Wrappers
  import opened Js
  import opened Types
  import Config
  import Prompt
  import GeminiProvider
  import OpenAIProvider

  /** A position in the editor. */
  datatype Pos = Pos(line: nat, ch: nat)

  /** What `replaceRange` is given: text, or (in the non-streaming branch as written)
      the generator object `send` returned. */
  datatype Insert = Chars(s: string) | GeneratorObject

  /** One observable effect of a run. */
  datatype Effect =
    | Show(message: string)
    | ShowError(error: AIError)
    | SetCursor(pos: Pos)
    | ReplaceRange(insert: Insert, from: Pos)
    | Fetch(request: Request)

  predicate IsEditorOp(e: Effect) {
    e.SetCursor? || e.ReplaceRange?
  }

  /** A notice shown to the user, as opposed to an editor operation or a request. */
  predicate IsNotice(e: Effect) {
    e.Show? || e.ShowError?
  }

  /** The editor as the run finds it: the cursor, the selected text and the end of
      the selection. */
  datatype EditorState = EditorState(cursor: Pos, selection: string, selectionEnd: Pos)

  /** The host's part of a run: the personality note's cached frontmatter
      (`Undefined` when there is none) and text (`None` when it cannot be read), the
      text selected in the active view, the editor, where the editor's cursor is after
      `"\n\n"` is inserted at a position, the server, and `JSON.parse`. */
  datatype Host = Host(
    frontmatter: Json,
    noteContent: Option<string>,
    selectedText: string,
    editor: EditorState,
    cursorAfterInsert: Pos -> Pos,
    server: Request -> HttpResponse,
    parse: string -> Option<Json>)

  /** The plugin settings a run reads. */
  datatype Settings = Settings(openaiKey: string, geminiKey: string, allowNetwork: bool)

  /** Why a run stops before touching the editor. */
  datatype Abort =
    | NetworkDisabled
    | NoFrontmatter
    | Failed(error: AIError)
    | UnknownProvider(name: string)
    | NoSelection

  /** The one notice an aborted run shows. */
  function AbortNotice(a: Abort): (e: Effect)
    ensures IsNotice(e) && e != Show("Processing with AI...")
  {
    match a
    case NetworkDisabled => Show("Network calls are disabled. Enable in plugin settings.")
    case NoFrontmatter => Show("No frontmatter found in personality note")
    case Failed(e) => ShowError(e)
    case UnknownProvider(name) =>
      assert ("Unknown provider: " + name)[0] == 'U';
      Show("Unknown provider: " + name)
    case NoSelection => Show("Please select some text to process")
  }

  /** What the checks establish: the configuration, the key, the messages and the
      generation parameters of the provider the configuration names. */
  datatype Plan = Plan(config: AIConfig, apiKey: string, messages: seq<Message>, params: GenerationParams)

  /** `PROVIDERS[name]`: the registry holds exactly the two adapters. */
  function Registry(name: string): Option<ProviderName>
  {
    if name == "openai" then Some(OpenAI)
    else if name == "gemini" then Some(Gemini)
    else None
  }

  /** The adapter's `mapConfig`. */
  function MapConfig(p: ProviderName, c: AIConfig): GenerationParams
  {
    match p
    case OpenAI => OpenAIProvider.MapConfig(c)
    case Gemini => GeminiProvider.MapConfig(c)
  }

  /** The request the adapter's `send` issues. */
  function MakeRequest(p: ProviderName, messages: seq<Message>, params: GenerationParams, apiKey: string): Request
  {
    match p
    case OpenAI => OpenAIProvider.MakeRequest(messages, params, apiKey)
    case Gemini => GeminiProvider.MakeRequest(messages, params, apiKey)
  }

  /** What the adapter's `send` yields for a response. */
  function ReplyTo(p: ProviderName, params: GenerationParams, response: HttpResponse,
                   parse: string -> Option<Json>): Reply
  {
    match p
    case OpenAI => OpenAIProvider.ReplyTo(params, response, parse)
    case Gemini => GeminiProvider.ReplyTo(params, response, parse)
  }

  /** Every check passes: network use is allowed, there is frontmatter, it is a valid
      configuration, the provider's key is set, the note can be read and text is
      selected. */
  predicate ChecksPass(settings: Settings, host: Host) {
    && settings.allowNetwork
    && Truthy(host.frontmatter)
    && Config.ParseAIConfig(host.frontmatter).Success?
    && Config.ValidateApiKey(ProviderText(Config.ParseAIConfig(host.frontmatter).value.provider),
                             settings.openaiKey, settings.geminiKey).Success?
    && host.noteContent.Some?
    && host.selectedText != ""
  }

  /** The checks, in the order the run makes them; the first that fails decides the
      notice. */
  function Validate(settings: Settings, host: Host): (r: Result<Plan, Abort>)
    ensures r.Success? <==> ChecksPass(settings, host)
    ensures !settings.allowNetwork ==> r == Failure(NetworkDisabled)
    ensures settings.allowNetwork && !Truthy(host.frontmatter) ==> r == Failure(NoFrontmatter)
    ensures settings.allowNetwork && Truthy(host.frontmatter) && Config.ParseAIConfig(host.frontmatter).Failure?
            ==> r == Failure(Failed(Config(Config.ParseAIConfig(host.frontmatter).error)))
    ensures settings.allowNetwork && Truthy(host.frontmatter) && Config.ParseAIConfig(host.frontmatter).Success? ==>
      var key := Config.ValidateApiKey(ProviderText(Config.ParseAIConfig(host.frontmatter).value.provider),
                                       settings.openaiKey, settings.geminiKey);
      && (key.Failure? ==> r == Failure(Failed(Key(key.error))))
      && (key.Success? && host.noteContent.None? ==> r == Failure(Failed(NoteUnreadable)))
      && (key.Success? && host.noteContent.Some? && host.selectedText == "" ==> r == Failure(NoSelection))
    ensures r.Success? ==>
      var c := Config.ParseAIConfig(host.frontmatter).value;
      && r.value.config == c
      && Config.ValidateApiKey(ProviderText(c.provider), settings.openaiKey, settings.geminiKey)
         == Success(r.value.apiKey)
      && r.value.messages == Prompt.BuildMessages(Prompt.ExtractPromptBody(host.noteContent.value), host.selectedText)
      && r.value.params == MapConfig(c.provider, c)
  {
    if !settings.allowNetwork then Failure(NetworkDisabled)
    else if !Truthy(host.frontmatter) then Failure(NoFrontmatter)
    else
      match Config.ParseAIConfig(host.frontmatter)
      case Failure(e) => Failure(Failed(Config(e)))
      case Success(config) =>
        var name := ProviderText(config.provider);
        match Config.ValidateApiKey(name, settings.openaiKey, settings.geminiKey)
        case Failure(e) => Failure(Failed(Key(e)))
        case Success(apiKey) =>
          match Registry(name)
          case None => Failure(UnknownProvider(name))
          case Some(provider) =>
            match host.noteContent
            case None => Failure(Failed(NoteUnreadable))
            case Some(content) =>
              if host.selectedText == "" then Failure(NoSelection)
              else
                var messages := Prompt.BuildMessages(Prompt.ExtractPromptBody(content), host.selectedText);
                Success(Plan(config, apiKey, messages, MapConfig(provider, config)))
  }

  /** Every configuration names a registered provider, so the `Unknown provider`
      notice is never shown. */
  lemma UnknownProviderUnreachable(settings: Settings, host: Host)
    ensures !Validate(settings, host).Failure? || !Validate(settings, host).error.UnknownProvider?
  {
  }

  /** Frontmatter that is present is never nullish, so reading `note-type` from it
      never throws. */
  lemma NoFrontmatterTypeError(settings: Settings, host: Host)
    ensures Validate(settings, host) != Failure(Failed(Config(FrontmatterTypeError)))
  {
  }

  /** Where the reply goes: the cursor moves to the end of a non-empty selection,
      `"\n\n"` is inserted at the cursor, and the reply is written where the cursor
      is afterwards. Returns the editor operations and that position. */
  function InsertionPoint(editor: EditorState, cursorAfterInsert: Pos -> Pos): (r: (seq<Effect>, Pos))
    ensures var at := if editor.selection != "" then editor.selectionEnd else editor.cursor;
      && |r.0| >= 1
      && r.0[|r.0| - 1] == ReplaceRange(Chars("\n\n"), at)
      && r.1 == cursorAfterInsert(at)
    ensures forall i :: 0 <= i < |r.0| ==> IsEditorOp(r.0[i])
    ensures forall i :: 0 <= i < |r.0| - 1 ==> r.0[i] == SetCursor(editor.selectionEnd)
    ensures |r.0| == 2 <==> editor.selection != ""
    ensures |r.0| <= 2
  {
    if editor.selection != "" then
      ([SetCursor(editor.selectionEnd), ReplaceRange(Chars("\n\n"), editor.selectionEnd)],
       cursorAfterInsert(editor.selectionEnd))
    else
      ([ReplaceRange(Chars("\n\n"), editor.cursor)], cursorAfterInsert(editor.cursor))
  }

  /** The streaming loop's writes: the k-th replaces at `insertPos` with the running
      text of the first k fragments. */
  function StreamWrites(fragments: seq<Json>, insertPos: Pos): (r: seq<Effect>)
    ensures |r| == |fragments|
    ensures forall k :: 0 <= k < |r| ==> r[k].ReplaceRange? && r[k].from == insertPos && r[k].insert.Chars?
  {
    seq(|fragments|, k requires 0 <= k < |fragments| => ReplaceRange(Chars(ConcatText(fragments[..k + 1])), insertPos))
  }

  /** Each streamed write extends the previous one by the next fragment's text, the
      first holds the first fragment's text, and the last holds the whole reply. */
  lemma StreamWritesAccumulate(fragments: seq<Json>, insertPos: Pos)
    ensures var w := StreamWrites(fragments, insertPos);
      && (|w| > 0 ==> w[0].insert.s == JsString(fragments[0]))
      && (forall k :: 0 < k < |w| ==> w[k].insert.s == w[k - 1].insert.s + JsString(fragments[k]))
      && (|w| > 0 ==> w[|w| - 1].insert.s == ConcatText(fragments))
  {
    var w := StreamWrites(fragments, insertPos);
    forall k | 0 < k < |w|
      ensures w[k].insert.s == w[k - 1].insert.s + JsString(fragments[k])
    {
      assert fragments[..k + 1][..k] == fragments[..k];
    }
    if |w| > 0 {
      assert fragments[..1][..0] == [];
      assert ConcatText(fragments[..1]) == ConcatText(fragments[..1][..0]) + JsString(fragments[..1][0]);
      assert fragments[..|fragments|] == fragments;
    }
  }

  /** The notice that ends a run that reached the provider. */
  function Finish(failure: Option<AIError>): Effect
  {
    match failure
    case None => Show("AI response complete")
    case Some(e) => ShowError(e)
  }

  /** The request a plan sends. */
  function PlanRequest(plan: Plan): Request
  {
    MakeRequest(plan.config.provider, plan.messages, plan.params, plan.apiKey)
  }

  /** What the provider's generator yields for a plan. */
  function PlanReply(plan: Plan, host: Host): Reply
  {
    ReplyTo(plan.config.provider, plan.params, host.server(PlanRequest(plan)), host.parse)
  }

  /** The effects of a streaming run after the insertion point is fixed: the request
      goes out when the loop first asks for a fragment, each fragment is written, and
      the first error ends the loop without undoing the writes made. */
  function StreamEffects(plan: Plan, insertPos: Pos, host: Host): (r: seq<Effect>)
    ensures |r| >= 2 && IsNotice(r[|r| - 1])
  {
    var reply := PlanReply(plan, host);
    [Fetch(PlanRequest(plan))] + StreamWrites(reply.fragments, insertPos) + [Finish(reply.failure)]
  }

  /** The non-streaming branch as written: `send` is an async generator, so the
      awaited `result` is the generator object itself. Its body never runs: no request
      is sent, and the object is what is written. */
  function AsWrittenSingleEffects(insertPos: Pos): (r: seq<Effect>)
    ensures |r| >= 1 && IsNotice(r[|r| - 1])
  {
    [ReplaceRange(GeneratorObject, insertPos), Show("AI response complete")]
  }

  /** The non-streaming branch as intended: the generator is drained and its text
      written once. */
  function SingleEffects(plan: Plan, insertPos: Pos, host: Host): (r: seq<Effect>)
    ensures |r| >= 2 && IsNotice(r[|r| - 1])
  {
    var reply := PlanReply(plan, host);
    [Fetch(PlanRequest(plan))]
      + (match reply.failure
         case None => [ReplaceRange(Chars(ConcatText(reply.fragments)), insertPos), Show("AI response complete")]
         case Some(e) => [ShowError(e)])
  }

  /** The effects of a run whose checks passed, before the provider is called: the
      processing notice and the insertion-point operations. */
  function Prelude(host: Host): (r: seq<Effect>)
    ensures 2 <= |r| <= 3 && r[0] == Show("Processing with AI...")
    ensures forall i :: 1 <= i < |r| ==> IsEditorOp(r[i])
  {
    [Show("Processing with AI...")] + InsertionPoint(host.editor, host.cursorAfterInsert).0
  }

  /** Where a run whose checks passed writes its reply. */
  function InsertPos(host: Host): Pos
  {
    InsertionPoint(host.editor, host.cursorAfterInsert).1
  }

  /** What a run whose checks passed does, as written. */
  function ProceedAsWritten(plan: Plan, host: Host): (r: seq<Effect>)
    ensures |r| >= 3 && r[0] == Show("Processing with AI...") && IsNotice(r[|r| - 1])
  {
    var rest := if plan.config.stream then StreamEffects(plan, InsertPos(host), host)
                else AsWrittenSingleEffects(InsertPos(host));
    Prelude(host) + rest
  }

  /** What a run whose checks passed does, with the generator drained. */
  function Proceed(plan: Plan, host: Host): (r: seq<Effect>)
    ensures |r| >= 3 && r[0] == Show("Processing with AI...") && IsNotice(r[|r| - 1])
  {
    var rest := if plan.config.stream then StreamEffects(plan, InsertPos(host), host)
                else SingleEffects(plan, InsertPos(host), host);
    Prelude(host) + rest
  }

  /** `runAIPersonality` as written. */
  function RunAsWritten(settings: Settings, host: Host): seq<Effect>
  {
    Outcome(Validate(settings, host), host, false)
  }

  /** `runAIPersonality` with the non-streaming branch draining the generator. */
  function RunAIPersonality(settings: Settings, host: Host): seq<Effect>
  {
    Outcome(Validate(settings, host), host, true)
  }

  /** The effects of a run once the checks have been made: the one notice of an
      aborted run, or the run proper, drained or as written. */
  function Outcome(v: Result<Plan, Abort>, host: Host, drained: bool): (r: seq<Effect>)
    ensures |r| >= 1 && IsNotice(r[|r| - 1])
    ensures r[0] == Show("Processing with AI...") <==> v.Success?
  {
    match v
    case Failure(a) => [AbortNotice(a)]
    case Success(plan) => if drained then Proceed(plan, host) else ProceedAsWritten(plan, host)
  }

  /** With network use disabled the only effect is the notice saying so. */
  lemma NetworkDisabledOnlyNotice(settings: Settings, host: Host)
    requires !settings.allowNetwork
    ensures RunAIPersonality(settings, host) == [Show("Network calls are disabled. Enable in plugin settings.")]
    ensures RunAsWritten(settings, host) == RunAIPersonality(settings, host)
  {
  }

  /** A run that fails a check shows one notice and nothing else: no editor operation
      and no request. */
  lemma FailedCheckTouchesNothing(settings: Settings, host: Host)
    requires !ChecksPass(settings, host)
    ensures |RunAIPersonality(settings, host)| == 1
    ensures !IsEditorOp(RunAIPersonality(settings, host)[0]) && !RunAIPersonality(settings, host)[0].Fetch?
    ensures RunAsWritten(settings, host) == RunAIPersonality(settings, host)
  {
    var v := Validate(settings, host);
    assert v.Failure?;
    assert RunAIPersonality(settings, host) == [AbortNotice(v.error)];
    assert RunAsWritten(settings, host) == [AbortNotice(v.error)];
  }

  /** A run issues an editor operation exactly when every check passes, and then the
      processing notice comes first and an editor operation right after it. */
  lemma EditorOpsIffChecksPass(settings: Settings, host: Host)
    ensures (exists i :: 0 <= i < |RunAIPersonality(settings, host)| && IsEditorOp(RunAIPersonality(settings, host)[i]))
            <==> ChecksPass(settings, host)
    ensures ChecksPass(settings, host) ==>
      RunAIPersonality(settings, host)[0] == Show("Processing with AI...") && IsEditorOp(RunAIPersonality(settings, host)[1])
  {
    var t := RunAIPersonality(settings, host);
    if ChecksPass(settings, host) {
      RunProceeds(settings, host);
      ProceedOpensWithEditorOp(Validate(settings, host).value, host);
      assert IsEditorOp(t[1]);
    } else {
      FailedCheckTouchesNothing(settings, host);
    }
  }

  /** A run that proceeds performs an editor operation right after the processing
      notice. */
  lemma ProceedOpensWithEditorOp(plan: Plan, host: Host)
    ensures |Proceed(plan, host)| >= 2 && IsEditorOp(Proceed(plan, host)[1])
  {
    var pre := Prelude(host);
    var rest := if plan.config.stream then StreamEffects(plan, InsertPos(host), host)
                else SingleEffects(plan, InsertPos(host), host);
    assert Proceed(plan, host) == pre + rest;
    assert Proceed(plan, host)[1] == pre[1];
  }

  /** Either version of a run ends with a notice, and opens with the processing notice
      exactly when every check passes. */
  lemma RunShape(settings: Settings, host: Host)
    ensures var r := RunAIPersonality(settings, host);
      |r| >= 1 && IsNotice(r[|r| - 1]) && (r[0] == Show("Processing with AI...") <==> ChecksPass(settings, host))
    ensures var w := RunAsWritten(settings, host);
      |w| >= 1 && IsNotice(w[|w| - 1]) && (w[0] == Show("Processing with AI...") <==> ChecksPass(settings, host))
  {
    if ChecksPass(settings, host) {
      RunProceeds(settings, host);
    } else {
      AbortedRun(settings, host);
    }
  }

  /** A run that fails a check consists of that check's notice. */
  lemma AbortedRun(settings: Settings, host: Host)
    requires !ChecksPass(settings, host)
    ensures Validate(settings, host).Failure?
    ensures RunAIPersonality(settings, host) == [AbortNotice(Validate(settings, host).error)]
    ensures RunAsWritten(settings, host) == [AbortNotice(Validate(settings, host).error)]
  {
    var v := Validate(settings, host);
    assert v.Failure?;
  }

  /** A run whose checks pass goes on with the plan they establish. */
  lemma RunProceeds(settings: Settings, host: Host)
    requires ChecksPass(settings, host)
    ensures RunAIPersonality(settings, host) == Proceed(Validate(settings, host).value, host)
    ensures RunAsWritten(settings, host) == ProceedAsWritten(Validate(settings, host).value, host)
  {
  }

  /** Both versions of a streaming run go on with the streaming loop. */
  lemma StreamingProceed(plan: Plan, host: Host)
    requires plan.config.stream
    ensures Proceed(plan, host) == Prelude(host) + StreamEffects(plan, InsertPos(host), host)
    ensures ProceedAsWritten(plan, host) == Proceed(plan, host)
  {
  }

  /** In a streaming run, the insertion point is fixed once, the request follows it,
      then come the writes of the running text, all at that point, and the closing
      notice; an error after some writes leaves them in place and is reported last.
      The run as written behaves the same. */
  lemma StreamingRun(plan: Plan, host: Host)
    requires plan.config.stream
    ensures var reply := PlanReply(plan, host);
      && Proceed(plan, host)
         == Prelude(host) + ([Fetch(PlanRequest(plan))]
                             + StreamWrites(reply.fragments, InsertPos(host)) + [Finish(reply.failure)])
      && ProceedAsWritten(plan, host) == Proceed(plan, host)
  {
    var reply := PlanReply(plan, host);
    var w := StreamWrites(reply.fragments, InsertPos(host));
    var fetch := [Fetch(PlanRequest(plan))];
    StreamingProceed(plan, host);
    assert StreamEffects(plan, InsertPos(host), host) == fetch + w + [Finish(reply.failure)];
  }

  /** As written, a non-streaming run never sends its request and writes the
      generator object where the reply should go. */
  lemma AsWrittenNonStreamingNeverFetches(plan: Plan, host: Host)
    requires !plan.config.stream
    ensures var t := ProceedAsWritten(plan, host);
      && (forall i :: 0 <= i < |t| ==> !t[i].Fetch?)
      && t == Prelude(host) + [ReplaceRange(GeneratorObject, InsertPos(host)), Show("AI response complete")]
  {
    var t := ProceedAsWritten(plan, host);
    var pre := Prelude(host);
    forall i | 0 <= i < |t|
      ensures !t[i].Fetch?
    {
      if i == 0 {
        assert t[i] == pre[0];
      } else if i < |pre| {
        assert t[i] == pre[i] && IsEditorOp(pre[i]);
      }
    }
  }

  /** A non-streaming run, with the generator drained, goes on with the single write. */
  lemma NonStreamingProceed(plan: Plan, host: Host)
    requires !plan.config.stream
    ensures Proceed(plan, host) == Prelude(host) + SingleEffects(plan, InsertPos(host), host)
  {
  }

  /** With the generator drained, a non-streaming run sends its request and writes the
      reply's text once at the insertion point, or reports the error and writes
      nothing more. */
  lemma NonStreamingRun(plan: Plan, host: Host)
    requires !plan.config.stream
    ensures var reply := PlanReply(plan, host);
      var t := Proceed(plan, host);
      && (reply.failure.None? ==>
            t == Prelude(host) + ([Fetch(PlanRequest(plan))]
                                  + [ReplaceRange(Chars(ConcatText(reply.fragments)), InsertPos(host)),
                                     Show("AI response complete")]))
      && (reply.failure.Some? ==>
            t == Prelude(host) + ([Fetch(PlanRequest(plan))] + [ShowError(reply.failure.value)]))
  {
    NonStreamingProceed(plan, host);
  }

  /** A concrete run that shows the difference: a Gemini note with `stream: false`,
      text selected, nothing selected in the editor, and a server whose answer has
      the text `"Hi"`. */
  ghost predicate IsExampleRun(settings: Settings, host: Host) {
    && settings == Settings("", "k", true)
    && host.frontmatter == ExampleFrontmatter()
    && host.noteContent == Some("")
    && host.selectedText == "Hello"
    && host.editor == EditorState(Pos(0, 0), "", Pos(0, 0))
    && host.cursorAfterInsert(Pos(0, 0)) == Pos(2, 0)
    && (forall r :: host.server(r) == Response(true, 200, ["{}"], true, false))
    && (forall s :: host.parse(s) == Some(GeminiProvider.CandidateJson(Str("Hi"))))
  }

  function ExampleFrontmatter(): Json
  {
    Obj(map["note-type" := Str("ai-personality"), "provider" := Str("gemini"), "model" := Str("m"),
            "stream" := Bool(false)])
  }

  lemma ExampleConfig()
    ensures var c := Config.ParseAIConfig(ExampleFrontmatter());
      c.Success? && c.value.provider == Gemini && !c.value.stream
  {
    var fm := ExampleFrontmatter();
    assert Member(fm, "note-type") == Str("ai-personality");
    assert Member(fm, "provider") == Str("gemini");
    assert Member(fm, "model") == Str("m");
    assert Member(fm, "stream") == Bool(false);
  }

  lemma ExampleReply(plan: Plan, host: Host)
    requires plan.config.provider == Gemini && !plan.params.stream
    requires forall r :: host.server(r) == Response(true, 200, ["{}"], true, false)
    requires forall s :: host.parse(s) == Some(GeminiProvider.CandidateJson(Str("Hi")))
    ensures PlanReply(plan, host) == Reply([Str("Hi")], None)
  {
    var response := host.server(PlanRequest(plan));
    ExampleResponseReply(plan.params, response, host.parse);
  }

  /** The example server's answer, decoded by Gemini's adapter, is the one text `"Hi"`. */
  lemma ExampleResponseReply(params: GenerationParams, response: HttpResponse, parse: string -> Option<Json>)
    requires !params.stream && response == Response(true, 200, ["{}"], true, false)
    requires forall s :: parse(s) == Some(GeminiProvider.CandidateJson(Str("Hi")))
    ensures GeminiProvider.ReplyTo(params, response, parse) == Reply([Str("Hi")], None)
  {
    var data := GeminiProvider.CandidateJson(Str("Hi"));
    assert parse(ConcatStrings(response.chunks)) == Some(data);
    GeminiProvider.CandidateTextOf(Str("Hi"));
    GeminiProvider.NonStreamingReply(params, response, parse, data);
  }

  /** Whenever the drained reply is one text, the run writes that text at the
      insertion point, while the run as written writes the generator object there and
      never the text (a reply that is itself the two line feeds inserted before it
      cannot be told apart from them, and is set aside). */
  lemma NonStreamingDifference(plan: Plan, host: Host, text: string)
    requires !plan.config.stream && text != "\n\n"
    requires PlanReply(plan, host) == Reply([Str(text)], None)
    ensures ReplaceRange(Chars(text), InsertPos(host)) in Proceed(plan, host)
    ensures ReplaceRange(Chars(text), InsertPos(host)) !in ProceedAsWritten(plan, host)
    ensures ReplaceRange(GeneratorObject, InsertPos(host)) in ProceedAsWritten(plan, host)
  {
    DrainedReplyWritten(plan, host, text);
    AsWrittenNeverWritesText(plan, host, text);
  }

  /** With a one-fragment reply, the corrected run writes exactly that fragment. */
  lemma DrainedReplyWritten(plan: Plan, host: Host, text: string)
    requires !plan.config.stream
    requires PlanReply(plan, host) == Reply([Str(text)], None)
    ensures ReplaceRange(Chars(text), InsertPos(host)) in Proceed(plan, host)
  {
    SingleFragmentText(text);
    NonStreamingRun(plan, host);
    var pre := Prelude(host);
    var t := Proceed(plan, host);
    assert t[|pre| + 1] == ReplaceRange(Chars(text), InsertPos(host));
  }

  /** The running text of a single string fragment is that string. */
  lemma SingleFragmentText(text: string)
    ensures ConcatText([Str(text)]) == text
  {
    assert [Str(text)][..0] == [];
  }

  /** The run as written writes the generator object, and no write of the prelude
      carries any text other than the blank-line separator. */
  lemma AsWrittenNeverWritesText(plan: Plan, host: Host, text: string)
    requires !plan.config.stream && text != "\n\n"
    ensures ReplaceRange(Chars(text), InsertPos(host)) !in ProceedAsWritten(plan, host)
    ensures ReplaceRange(GeneratorObject, InsertPos(host)) in ProceedAsWritten(plan, host)
  {
    var pre := Prelude(host);
    var at := InsertPos(host);
    AsWrittenNonStreamingNeverFetches(plan, host);
    var t := ProceedAsWritten(plan, host);
    assert t == pre + [ReplaceRange(GeneratorObject, at), Show("AI response complete")];
    assert t[|pre|] == ReplaceRange(GeneratorObject, at);
    var ip := InsertionPoint(host.editor, host.cursorAfterInsert);
    forall i | 0 <= i < |t|
      ensures t[i] != ReplaceRange(Chars(text), at)
    {
      if i == 0 {
        assert t[i] == pre[0];
      } else if i < |pre| {
        assert t[i] == ip.0[i - 1];
        if i - 1 < |ip.0| - 1 {
          assert t[i] == SetCursor(host.editor.selectionEnd);
        } else {
          assert t[i].insert == Chars("\n\n");
        }
      }
    }
  }

  /** In that run the reply `"Hi"` is written once the generator is drained, while the
      run as written writes the generator object instead and never contacts the server. */
  lemma NonStreamingExample(settings: Settings, host: Host)
    requires IsExampleRun(settings, host)
    ensures ReplaceRange(Chars("Hi"), Pos(2, 0)) in RunAIPersonality(settings, host)
    ensures ReplaceRange(Chars("Hi"), Pos(2, 0)) !in RunAsWritten(settings, host)
    ensures ReplaceRange(GeneratorObject, Pos(2, 0)) in RunAsWritten(settings, host)
  {
    ExampleConfig();
    assert ChecksPass(settings, host);
    var plan := Validate(settings, host).value;
    assert plan.config.provider == Gemini && !plan.config.stream;
    assert plan.params == GeminiProvider.MapConfig(plan.config);
    ExampleReply(plan, host);
    assert InsertPos(host) == Pos(2, 0);
    RunProceeds(settings, host);
    NonStreamingDifference(plan, host, "Hi");
  }
}
