/** The records of the AI-personality pipeline: provider names, Gemini sensitivity
    settings, messages, the normalised configuration, the generation parameters a
    provider receives, HTTP requests and responses, and the errors raised. */
module Types {
  import opened Wrappers
  import opened Js
  import Text

  /** The two supported providers. */
  datatype ProviderName = OpenAI | Gemini

  /** The provider's name as written in frontmatter and used as the registry key. */
  function ProviderText(p: ProviderName): string
  {
    match p
    case OpenAI => "openai"
    case Gemini => "gemini"
  }

  /** The provider a name denotes, if any. */
  function ProviderNamed(name: string): (r: Option<ProviderName>)
    ensures r.Some? ==> ProviderText(r.value) == name
    ensures forall p: ProviderName :: ProviderText(p) == name ==> r == Some(p)
  {
    if name == "openai" then Some(OpenAI)
    else if name == "gemini" then Some(Gemini)
    else None
  }

  /** A Gemini content-filter sensitivity level. */
  datatype Level = LevelNone | Low | Medium | High

  /** The level's name as written in frontmatter. */
  function LevelName(l: Level): string
  {
    match l
    case LevelNone => "none"
    case Low => "low"
    case Medium => "medium"
    case High => "high"
  }

  /** The typed Gemini sensitivity settings: one optional level per harm category. */
  datatype Sensitivity = Sensitivity(
    harassment: Option<Level>,
    hate: Option<Level>,
    sexual: Option<Level>,
    dangerous: Option<Level>)

  /** Typed sensitivity settings written as the frontmatter object that holds them. */
  function SensitivityJson(s: Sensitivity): Json
  {
    Obj(LevelEntry("harassment", s.harassment) + LevelEntry("hate", s.hate)
      + LevelEntry("sexual", s.sexual) + LevelEntry("dangerous", s.dangerous))
  }

  function LevelEntry(key: string, l: Option<Level>): map<string, Json>
  {
    match l
    case None => map[]
    case Some(v) => map[key := Str(LevelName(v))]
  }

  /** The author of a chat message. */
  datatype Role = System | User | Assistant

  function RoleName(r: Role): string
  {
    match r
    case System => "system"
    case User => "user"
    case Assistant => "assistant"
  }

  /** One chat message. */
  datatype Message = Message(role: Role, content: string)

  /** The normalised configuration of a personality note. `outputTarget` is whatever
      truthy value the frontmatter supplied, and `geminiSensitivity` is the
      frontmatter's sensitivity value, copied without inspection. */
  datatype AIConfig = AIConfig(
    provider: ProviderName,
    model: string,
    temperature: Number,
    maxTokens: Number,
    stream: bool,
    outputTarget: Json,
    geminiSensitivity: Option<Json>)

  /** The parameters a provider's `send` receives. */
  datatype GenerationParams = GenerationParams(
    model: string,
    temperature: Number,
    maxTokens: Number,
    stream: bool,
    geminiSensitivity: Option<Json>)

  /** A POST request with a JSON body. */
  datatype Request = Request(url: string, headers: map<string, string>, body: Json)

  /** What the network returns for a request: `fetch` rejected, or a response with its
      status and its body as already-decoded chunks. `readable` is false when the body
      cannot be read incrementally, and `readFails` when reading fails after the last
      chunk delivered. */
  datatype HttpResponse =
    | FetchFailed
    | Response(ok: bool, status: int, chunks: seq<string>, readable: bool, readFails: bool)

  /** Why `parseAIConfig` throws. `FrontmatterTypeError` is the TypeError of reading
      `note-type` from a nullish frontmatter. */
  datatype ConfigError = FrontmatterTypeError | NotAPersonality | InvalidProvider | InvalidModel

  /** Why `validateApiKey` throws. */
  datatype KeyError = MissingOpenAIKey | MissingGeminiKey | UnknownProviderKey(name: string)

  /** Every error the orchestrator can catch and report. */
  datatype AIError =
    | Config(config: ConfigError)
    | Key(key: KeyError)
    | NoteUnreadable
    | NetworkFailure
    | HttpStatus(provider: ProviderName, status: int, body: string)
    | BodyNotReadable
    | ReadFailure
    | MalformedJson
    | ResponseTypeError

  /** The message text of an error, as the `AI error:` notice shows it. Errors raised
      by the host (an unreadable note, a failed fetch or read, a JSON syntax error, a
      TypeError) carry host-defined text, which is left abstract here. */
  function ErrorMessage(e: AIError): Option<string>
  {
    match e
    case Config(FrontmatterTypeError) => None
    case Config(NotAPersonality) => Some("Note must have note-type: ai-personality in frontmatter")
    case Config(InvalidProvider) => Some("Provider must be either \"openai\" or \"gemini\"")
    case Config(InvalidModel) => Some("Model must be specified as a string")
    case Key(MissingOpenAIKey) =>
      Some("OpenAI API key is not configured. Please set it in plugin settings.")
    case Key(MissingGeminiKey) =>
      Some("Gemini API key is not configured. Please set it in plugin settings.")
    case Key(UnknownProviderKey(name)) => Some("Unknown provider: " + name)
    case HttpStatus(OpenAI, status, body) =>
      Some("OpenAI API error (" + Text.IntToString(status) + "): " + body)
    case HttpStatus(Gemini, status, body) =>
      Some("Gemini API error (" + Text.IntToString(status) + "): " + body)
    case BodyNotReadable => Some("Response body is not readable")
    case _ => None
  }

  /** The fragments a provider's `send` generator yields, in order, and the error it
      throws after them, if any. */
  datatype Reply = Reply(fragments: seq<Json>, failure: Option<AIError>)
}
