/** The config normaliser: turning the loosely typed frontmatter of a personality note
    into an `AIConfig`, and picking the API key of the configured provider. */
module Config {
  import opened Wrappers
  import opened Js
  import opened Types

  /** The defaults of the optional fields. */
  const DefaultTemperature := Number("0.7")
  const DefaultMaxTokens := Number("1024")
  const DefaultStream := true
  const DefaultOutputTarget := Str("insert")

  /** The provider a frontmatter value names: only the exact strings `"openai"` and
      `"gemini"` name one. */
  function ProviderOf(v: Json): (r: Option<ProviderName>)
    ensures r.Some? <==> v == Str("openai") || v == Str("gemini")
    ensures r.Some? ==> v == Str(ProviderText(r.value))
  {
    if v.Str? then ProviderNamed(v.s) else None
  }

  /** A frontmatter value that is a model name: a non-empty string. */
  predicate IsModelName(v: Json) {
    v.Str? && v.s != ""
  }

  /** The configurations `ParseAIConfig` can produce. */
  predicate WellFormedConfig(c: AIConfig) {
    && c.model != ""
    && Truthy(c.outputTarget)
    && (c.geminiSensitivity.Some? ==> c.provider == Gemini && Truthy(c.geminiSensitivity.value))
  }

  /** `parseAIConfig`. The checks run in the order note type, provider, model, and the
      first one that fails decides the error; the optional fields then take the
      supplied value when it has the right primitive type and the default otherwise,
      never failing. */
  function ParseAIConfig(fm: Json): (r: Result<AIConfig, ConfigError>)
    ensures fm.IsNullish() ==> r == Failure(FrontmatterTypeError)
    ensures !fm.IsNullish() ==>
      var noteType := Member(fm, "note-type");
      var provider := Member(fm, "provider");
      var model := Member(fm, "model");
      && (r == Failure(NotAPersonality) <==> noteType != Str("ai-personality"))
      && (r == Failure(InvalidProvider) <==>
            noteType == Str("ai-personality") && provider != Str("openai") && provider != Str("gemini"))
      && (r == Failure(InvalidModel) <==>
            noteType == Str("ai-personality") && ProviderOf(provider).Some? && !IsModelName(model))
      && (r.Success? <==>
            noteType == Str("ai-personality") && ProviderOf(provider).Some? && IsModelName(model))
    ensures r.Success? ==>
      var c := r.value;
      var temperature := Member(fm, "temperature");
      var maxTokens := Member(fm, "maxTokens");
      var stream := Member(fm, "stream");
      var target := OptProp(Member(fm, "output"), "target");
      var sensitivity := OptProp(Member(fm, "gemini"), "sensitivity");
      && WellFormedConfig(c)
      && Member(fm, "provider") == Str(ProviderText(c.provider))
      && Member(fm, "model") == Str(c.model)
      && c.temperature == (if temperature.Num? then temperature.n else DefaultTemperature)
      && c.maxTokens == (if maxTokens.Num? then maxTokens.n else DefaultMaxTokens)
      && c.stream == (if stream.Bool? then stream.b else DefaultStream)
      && c.outputTarget == (if Truthy(target) then target else DefaultOutputTarget)
      && (c.geminiSensitivity.Some? <==> c.provider == Gemini && Truthy(sensitivity))
      && (c.geminiSensitivity.Some? ==> c.geminiSensitivity.value == sensitivity)
  {
    if fm.IsNullish() then Failure(FrontmatterTypeError)
    else if Member(fm, "note-type") != Str("ai-personality") then Failure(NotAPersonality)
    else
      match ProviderOf(Member(fm, "provider"))
      case None => Failure(InvalidProvider)
      case Some(provider) =>
        var model := Member(fm, "model");
        if !Truthy(model) || !model.Str? then Failure(InvalidModel)
        else
          var temperature := match Member(fm, "temperature")
            case Num(n) => n
            case _ => DefaultTemperature;
          var maxTokens := match Member(fm, "maxTokens")
            case Num(n) => n
            case _ => DefaultMaxTokens;
          var stream := match Member(fm, "stream")
            case Bool(b) => b
            case _ => DefaultStream;
          var target := OptProp(Member(fm, "output"), "target");
          var outputTarget := if Truthy(target) then target else DefaultOutputTarget;
          var geminiSensitivity :=
            if provider == Gemini && Truthy(OptProp(Member(fm, "gemini"), "sensitivity"))
            then Some(OptProp(Member(fm, "gemini"), "sensitivity"))
            else None;
          Success(AIConfig(provider, model.s, temperature, maxTokens, stream, outputTarget,
                           geminiSensitivity))
  }

  /** A configuration written back as the frontmatter that states it. */
  function ToFrontmatter(c: AIConfig): Json
  {
    Obj(map[
          "note-type" := Str("ai-personality"),
          "provider" := Str(ProviderText(c.provider)),
          "model" := Str(c.model),
          "temperature" := Num(c.temperature),
          "maxTokens" := Num(c.maxTokens),
          "stream" := Bool(c.stream),
          "output" := Obj(map["target" := c.outputTarget])]
        + (match c.geminiSensitivity
           case None => map[]
           case Some(s) => map["gemini" := Obj(map["sensitivity" := s])]))
  }

  /** Every configuration the normaliser can produce is recovered from the frontmatter
      that states it: normalisation loses nothing of a well-formed configuration. */
  lemma ParseRoundTrip(c: AIConfig)
    requires WellFormedConfig(c)
    ensures ParseAIConfig(ToFrontmatter(c)) == Success(c)
  {
    FrontmatterMembers(c);
  }

  /** What each field of the written-back frontmatter reads as. */
  lemma FrontmatterMembers(c: AIConfig)
    ensures var fm := ToFrontmatter(c);
      && !fm.IsNullish()
      && Member(fm, "note-type") == Str("ai-personality")
      && Member(fm, "provider") == Str(ProviderText(c.provider))
      && Member(fm, "model") == Str(c.model)
      && Member(fm, "temperature") == Num(c.temperature)
      && Member(fm, "maxTokens") == Num(c.maxTokens)
      && Member(fm, "stream") == Bool(c.stream)
      && OptProp(Member(fm, "output"), "target") == c.outputTarget
      && OptProp(Member(fm, "gemini"), "sensitivity")
         == (if c.geminiSensitivity.Some? then c.geminiSensitivity.value else Undefined)
  {
    var fm := ToFrontmatter(c);
    assert Member(fm, "note-type") == Str("ai-personality");
    assert Member(fm, "provider") == Str(ProviderText(c.provider));
    assert Member(fm, "model") == Str(c.model);
    assert Member(fm, "temperature") == Num(c.temperature);
    assert Member(fm, "maxTokens") == Num(c.maxTokens);
    assert Member(fm, "stream") == Bool(c.stream);
    assert OptProp(Member(fm, "output"), "target") == c.outputTarget;
    match c.geminiSensitivity {
      case None =>
        assert Member(fm, "gemini") == Undefined;
      case Some(s) =>
        assert OptProp(Member(fm, "gemini"), "sensitivity") == s;
    }
  }

  /** A model name made only of white space is accepted as it is. */
  lemma WhitespaceModelAccepted()
    ensures var fm := Obj(map["note-type" := Str("ai-personality"), "provider" := Str("openai"),
                              "model" := Str("  ")]);
      ParseAIConfig(fm).Success? && ParseAIConfig(fm).value.model == "  "
  {
  }

  /** The output target is not validated: any truthy value, `"append"` say, is taken. */
  lemma OutputTargetUnvalidated()
    ensures var fm := Obj(map["note-type" := Str("ai-personality"), "provider" := Str("gemini"),
                              "model" := Str("m"), "output" := Obj(map["target" := Str("append")])]);
      ParseAIConfig(fm).Success? && ParseAIConfig(fm).value.outputTarget == Str("append")
  {
    var fm := Obj(map["note-type" := Str("ai-personality"), "provider" := Str("gemini"),
                      "model" := Str("m"), "output" := Obj(map["target" := Str("append")])]);
    assert OptProp(Member(fm, "output"), "target") == Str("append");
  }

  /** `validateApiKey`: exactly the selected provider's key, which must be non-empty;
      the other provider's key is never used. */
  function ValidateApiKey(provider: string, openaiKey: string, geminiKey: string)
    : (r: Result<string, KeyError>)
    ensures r.Success? ==> r.value != ""
    ensures r.Success? ==>
      (provider == "openai" && r.value == openaiKey) || (provider == "gemini" && r.value == geminiKey)
    ensures provider == "openai" ==>
      if openaiKey == "" then r == Failure(MissingOpenAIKey) else r.Success?
    ensures provider == "gemini" ==>
      if geminiKey == "" then r == Failure(MissingGeminiKey) else r.Success?
    ensures r.Failure? && r.error.UnknownProviderKey? <==> provider != "openai" && provider != "gemini"
  {
    if provider == "openai" then
      if openaiKey == "" then Failure(MissingOpenAIKey) else Success(openaiKey)
    else if provider == "gemini" then
      if geminiKey == "" then Failure(MissingGeminiKey) else Success(geminiKey)
    else Failure(UnknownProviderKey(provider))
  }

  /** The closing "Unknown provider" throw is unreachable for every provider name. */
  lemma KeyCheckNeverUnknown(p: ProviderName, openaiKey: string, geminiKey: string)
    ensures var r := ValidateApiKey(ProviderText(p), openaiKey, geminiKey);
      !(r.Failure? && r.error.UnknownProviderKey?)
  {
  }
}
