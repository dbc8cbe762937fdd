# AI personalities for an Obsidian plugin, in Dafny

This project models the AI-personality pipeline of a note-taking plugin. A
personality is a note whose frontmatter configures a call to a language model
(OpenAI or Gemini). Running one against selected text goes through these steps:

- the frontmatter is normalised into a configuration and the provider's API key is
  chosen;
- the note's body, without its leading `---` block and trimmed, becomes the system
  message, and the selection becomes the user message;
- the provider adapter builds its HTTP request and turns the response into a
  sequence of text fragments, either one fragment or a stream of lines;
- the orchestrator checks everything first, then makes room below the selection and
  writes the reply at one fixed position.

Around that pipeline the project also models three smaller pieces:

- the personality picker's suggestion filter;
- the single "last personality" slot that three commands read and write;
- the `YYYY/MM` filing path of the note processor.

The modules follow the source files:

| module | file | models |
|---|---|---|
| `Js` | json.dfy | JavaScript values: property access that throws or short-circuits (`.` / `?.`), truthiness, `String()` |
| `Text` | text.dfy | the string operations the code uses (`split`, `join`, `startsWith`, `includes`, `lastIndexOf`, `trim`, integer rendering) |
| `Seqs` | seqs.dfy | `Array.prototype.filter` |
| `Types` | types.dfy | the records of `src/ai/types.ts`, requests and responses, the errors raised |
| `Config` | config.dfy | `src/ai/config.ts` |
| `Prompt` | prompt.dfy | `src/ai/prompt.ts` |
| `LineStream` | linestream.dfy | the buffered line splitter the two adapters share |
| `GeminiProvider` | gemini.dfy | `src/ai/providers/gemini.ts` |
| `OpenAIProvider` | openai.dfy | `src/ai/providers/openai.ts` |
| `Run` | run.dfy | `src/ai/run.ts` |
| `Paths` | path.dfy | `utils/path.ts` |
| `Commands` | commands.dfy | `src/commands/ai.ts` |

Everything is pure. Anything that belongs to the host enters as a value or a
function parameter:

- `JSON.parse` is a `string -> Option<Json>`;
- the server is a `Request -> HttpResponse`;
- the editor's cursor after an insertion is a `Pos -> Pos`;
- `toLowerCase` is a `string -> string`;
- link resolution is a `(Json, string) -> Option<File>`.

A run is described by the ordered list of effects it issues: notices, editor
operations and the request. A provider's `send` generator is described by the
fragments it yields and the error it ends with, if any.

## Model

| member | source | states |
|---|---|---|
| Js.Truthy | src/ai/config.ts:27-33 | `null`, `undefined` and `false` are falsy, and every array and object is truthy. A string is truthy exactly when it is non-empty, and a boolean exactly when it is `true` |
| Js.Prop | src/ai/providers/openai.ts:50 | reading a property with `.` throws a TypeError exactly when the value is `null` or `undefined`. Otherwise it gives the own property, or `undefined` when there is none |
| Js.OptProp | src/ai/config.ts:50 | reading with `?.` gives `undefined` for a nullish value and the property otherwise, and never throws |
| Js.ConcatTextAppend | src/ai/run.ts:100-103 | the running text of two runs of fragments is the running text of the first followed by that of the second |
| Seqs.Filter | src/commands/ai.ts:22-25 | `filter` keeps exactly the elements that pass the test, in their original order |
| Seqs.FilterFilter | src/commands/ai.ts:22-35 | filtering by one test and then by another is filtering once by both |
| Text.SplitJoin | src/ai/providers/gemini.ts:132 | `split` loses nothing: joining the pieces with the separator gives back the text |
| Text.SplitPiecesFree | src/ai/providers/gemini.ts:132 | no piece of `split` contains the separator |
| Text.SplitAppend | src/ai/providers/gemini.ts:131-133 | splitting `x + y` keeps every complete piece of `x`, and re-splits the last piece of `x` followed by `y` |
| Text.LastIndexOf | utils/path.ts:21 | `lastIndexOf` gives the index of the last occurrence of the character, or -1 when it does not occur |
| Text.LastPieceAfterLastIndex | utils/path.ts:20-21 | the last piece of `split` is the text after the character's last occurrence |
| Text.Trim | src/ai/prompt.ts:17 | `trim` removes only white space, from both ends, and its result neither starts nor ends with white space |
| Text.TrimNoop | src/ai/prompt.ts:17 | text with no white space at either end is unchanged by `trim` |
| Text.IntToStringRoundTrip | utils/path.ts:8-9 | the decimal rendering of an integer is a sign and digits that read back as the integer |
| Config.ProviderOf | src/ai/config.ts:26-29 | a frontmatter value names a provider exactly when it is the string `"openai"` or `"gemini"`, and the name can be read back from the result |
| Config.ParseAIConfig | src/ai/config.ts:19-67 | nullish frontmatter throws a TypeError. Each error holds exactly when the earlier checks pass and its own fails, in the order note type, provider, model. Frontmatter that is not nullish and passes all three checks always parses. On success, provider and model are the frontmatter's. Temperature, maxTokens and stream take the supplied value exactly when it is a number, number or boolean, and 0.7, 1024 or true otherwise. The output target is any truthy `output.target`, else `"insert"`. The Gemini sensitivity is present exactly when the provider is gemini and `gemini.sensitivity` is truthy, and then it is copied verbatim |
| Config.ParseRoundTrip | src/ai/config.ts:19-67 | every configuration the normaliser can produce is reproduced exactly from frontmatter stating it |
| Config.WhitespaceModelAccepted | src/ai/config.ts:32-35 | a model name of only spaces passes the model check and is kept unchanged |
| Config.OutputTargetUnvalidated | src/ai/config.ts:50 | an output target of `"append"` is accepted, because the target is not validated |
| Config.ValidateApiKey | src/ai/config.ts:77-94 | a returned key is non-empty and is the selected provider's own key. A selected provider with an empty key fails with that provider's error. The unknown-provider error happens exactly for names other than the two providers |
| Config.KeyCheckNeverUnknown | src/ai/config.ts:93 | the closing "Unknown provider" throw is unreachable for every provider name |
| Prompt.FirstClose | src/ai/prompt.ts:14 | the lazy `([\s\S]*?)` finds the first closing `\n---\n` at or after the start of the body, and no earlier one |
| Prompt.StripFrontmatter | src/ai/prompt.ts:14-15 | content with no leading block is unchanged; otherwise exactly the shortest leading `---\n … \n---\n` block is removed |
| Prompt.ExtractPromptBody | src/ai/prompt.ts:13-17 | the body is the note without its leading frontmatter block, with only white space cut from its two ends. It neither starts nor ends with white space, and it is never longer than the note |
| Prompt.StripRemovesOneBlock | src/ai/prompt.ts:14-15 | a leading block followed by any text, later `---` blocks included, loses exactly that one block |
| Prompt.NoBlockOnlyTrimmed | src/ai/prompt.ts:14-17 | content that does not start with `---` and a line feed, such as CRLF frontmatter, is only trimmed |
| Prompt.EmptyDelimitersNotABlock | src/ai/prompt.ts:14-15 | `"---\n---\n"` is not a block and survives stripping |
| Prompt.BuildMessages | src/ai/prompt.ts:39-59 | the length is one for a non-empty prompt body plus one for non-empty input. The system message comes first and the user message last, both with verbatim contents. No message is empty or from the assistant |
| GeminiProvider.ThresholdInjective | src/ai/providers/gemini.ts:6-14 | different sensitivity levels map to different thresholds |
| GeminiProvider.ThresholdOf | src/ai/providers/gemini.ts:64-68 | looking up the frontmatter value in the mapping gives the level's threshold whenever the value's text is one of the four level names |
| GeminiProvider.SafetyEntriesFollowFilter | src/ai/providers/gemini.ts:54-72 | the loop produces one entry per category whose level is truthy, in category order, each with its category name and the threshold of its level |
| GeminiProvider.SafetySettingsOfTypedSensitivity | src/ai/providers/gemini.ts:54-72 | for sensitivity settings of the documented shape, the request lists exactly the levels set, in the order harassment, hate, sexual, dangerous |
| GeminiProvider.SafetySettings | src/ai/providers/gemini.ts:53-72 | there are no safety settings unless the sensitivity settings are present and truthy. Otherwise there is one entry per category whose level is truthy, in category order, with that category's name and its level's threshold, so never more than four |
| GeminiProvider.MapConfig | src/ai/providers/gemini.ts:23-31 | model, temperature, token limit, stream flag and sensitivity settings all reach the adapter unchanged |
| GeminiProvider.ContentsReadBack | src/ai/providers/gemini.ts:39-51 | `contents` holds the non-system messages in order, and each message can be recovered from its entry, so mapping assistant to `model` and everything else to `user` loses nothing |
| GeminiProvider.Assemble | src/ai/providers/gemini.ts:74-92 | the body always has `contents` and `generationConfig`. It has `systemInstruction` exactly when the system text is non-empty, and `safetySettings` exactly when there are entries. It has no other keys |
| GeminiProvider.SystemInstructionPresence | src/ai/providers/gemini.ts:84-88 | a system instruction is sent exactly when there are two or more system messages, or one with non-empty content |
| GeminiProvider.Body | src/ai/providers/gemini.ts:39-92 | the body holds the non-system messages as `contents`. It has a system instruction exactly when there are two or more system messages, or one with non-empty content. It has safety settings exactly when some are built, and never without sensitivity settings |
| GeminiProvider.MakeRequest | src/ai/providers/gemini.ts:94-103 | the URL is the base, the model, `:`, then `streamGenerateContent` or `generateContent` by the stream flag, then `?key=` and the key. The only header is the JSON content type |
| GeminiProvider.DecodeLine | src/ai/providers/gemini.ts:135-146 | blank and unparseable lines yield nothing. Whatever a line yields is truthy and is the first candidate's first part text. Conversely, a non-blank line that parses to a value that is not nullish, with truthy first-candidate text, yields that text |
| GeminiProvider.ReplyTo | src/ai/providers/gemini.ts:97-152 | a failed fetch or a non-ok status ends the reply with an error before any fragment. A non-ok response whose body can be read fails with its status and body text. A complete reply without error is one fragment. A readable stream yields the line decoder's fragments and fails exactly when reading fails. An unreadable stream fails with "Response body is not readable" |
| GeminiProvider.NonStreamingReply | src/ai/providers/gemini.ts:110-115 | a complete reply is exactly one fragment: the candidate's text, or `""` when it is missing or falsy |
| GeminiProvider.StreamedFragmentsTruthy | src/ai/providers/gemini.ts:140-143 | every streamed fragment is truthy |
| GeminiProvider.StreamReplyIgnoresChunking | src/ai/providers/gemini.ts:123-148 | two responses with the same body text give the same reply, however the body was cut into chunks |
| GeminiProvider.CategoryEntryOfLevel | src/ai/providers/gemini.ts:63-70 | a category whose frontmatter value is a level name contributes one entry with that level's threshold, and an absent level contributes none |
| GeminiProvider.SafetyEntriesOfFour | src/ai/providers/gemini.ts:56-71 | the loop over the four categories is each category's contribution, concatenated in order |
| GeminiProvider.CandidateTextOf | src/ai/providers/gemini.ts:112 | the optional chain reads the text of the first part of the first candidate |
| GeminiProvider.CandidateLineDecoded | src/ai/providers/gemini.ts:138-143 | a non-blank line holding a candidate with truthy text yields that text |
| GeminiProvider.TwoLineExample | src/ai/providers/gemini.ts:126-148 | two JSON lines with texts `"A"` and `"B"` yield `["A", "B"]` |
| OpenAIProvider.MapConfig | src/ai/providers/openai.ts:10-17 | model, temperature, token limit and stream flag are copied, and the Gemini settings are dropped |
| OpenAIProvider.Body | src/ai/providers/openai.ts:26-32 | the body has exactly the keys `model`, `messages`, `temperature`, `max_tokens` and `stream`, with one `messages` entry per message |
| OpenAIProvider.BodyReadBack | src/ai/providers/openai.ts:26-32 | the body carries the model, temperature, `max_tokens` and stream, plus every message in order, each recoverable from its entry |
| OpenAIProvider.MakeRequest | src/ai/providers/openai.ts:24-41 | the request goes to the chat-completions URL with exactly the JSON content type and `Bearer` plus the key as headers |
| OpenAIProvider.MessageContent | src/ai/providers/openai.ts:49-50 | `data.choices[0].message.content` succeeds exactly when none of `data`, `choices`, `choices[0]` and `message` is nullish, and its value is the content |
| OpenAIProvider.DeltaContent | src/ai/providers/openai.ts:79 | `choices[0]?.delta?.content` throws exactly when the payload or its `choices` is nullish |
| OpenAIProvider.DecodeLine | src/ai/providers/openai.ts:72-86 | a line not starting with `data: ` yields nothing, and neither does the payload `[DONE]`. Whatever a line yields is truthy and is the delta content of the parsed payload |
| OpenAIProvider.DataLineYields | src/ai/providers/openai.ts:73-82 | every `data: ` line whose payload parses and has truthy delta content yields that content |
| OpenAIProvider.DeltaLineDecoded | src/ai/providers/openai.ts:73-82 | an event whose first choice's delta content is truthy yields that content |
| OpenAIProvider.ReplyTo | src/ai/providers/openai.ts:34-92 | a failed fetch or a non-ok status ends the reply with an error before any fragment. A non-ok response whose body can be read fails with its status and body text. A complete reply succeeds exactly when it can be read and parsed and the message path does not throw, and it is then that one content. A readable stream yields the line decoder's fragments and fails exactly when reading fails. An unreadable stream fails with "Response body is not readable" |
| OpenAIProvider.HttpErrorMessage | src/ai/providers/openai.ts:43-46 | a non-ok response's error message carries its status and body text |
| OpenAIProvider.NonStreamingContentVerbatim | src/ai/providers/openai.ts:48-52 | a complete reply yields the message content as it is, with no `""` fallback |
| OpenAIProvider.StreamedFragmentsTruthy | src/ai/providers/openai.ts:79-82 | every streamed fragment is truthy |
| OpenAIProvider.StreamReplyIgnoresChunking | src/ai/providers/openai.ts:60-88 | two responses with the same body text give the same reply, however the body was cut into chunks |
| OpenAIProvider.DoneLineSkipped | src/ai/providers/openai.ts:75 | the line `data: [DONE]` yields nothing |
| OpenAIProvider.DoneDoesNotStop | src/ai/providers/openai.ts:75 | the `[DONE]` line is skipped, and the event lines after it are still decoded |
| OpenAIProvider.EventStreamExample | src/ai/providers/openai.ts:63-88 | the events `"Hel"`, `"lo"` and `[DONE]` yield `["Hel", "lo"]` |
| LineStream.DecodeMatchesWholeText | src/ai/providers/gemini.ts:123-148 | after any sequence of reads, the buffer is the text after the last line feed of everything read, and the fragments are those of every line before it |
| LineStream.ChunkBoundariesIrrelevant | src/ai/providers/gemini.ts:127-133 | the fragments depend only on the concatenated body text, not on the chunk boundaries |
| LineStream.BufferHasNoLineFeed | src/ai/providers/gemini.ts:131-133 | the kept partial line never contains a line feed |
| LineStream.TrailingPartialLineDropped | src/ai/providers/gemini.ts:126-133 | text without a line feed at the end of the stream yields nothing |
| LineStream.RejectedLineSkipped | src/ai/providers/gemini.ts:135-146 | a line the decoder rejects is skipped, and decoding carries on with the lines after it |
| LineStream.LinesOutputTruthy | src/ai/providers/gemini.ts:135-146 | when the line decoder yields only truthy values, every fragment of a run of complete lines is truthy |
| LineStream.StreamFragmentsTruthy | src/ai/providers/gemini.ts:126-148 | when the line decoder yields only truthy values, every fragment of the whole stream is truthy |
| LineStream.DecodeTerminatedLines | src/ai/providers/gemini.ts:131-135 | a body of complete lines yields exactly the fragments of those lines |
| Run.Validate | src/ai/run.ts:34-76 | a run gets a plan exactly when every check passes. Otherwise the first failing check decides the notice, in the order network, frontmatter, configuration, key, note text, selection. The plan holds the parsed configuration, the provider's key, the built messages and the adapter's parameters |
| Run.UnknownProviderUnreachable | src/ai/run.ts:56-60 | the "Unknown provider" notice is never shown |
| Run.NoFrontmatterTypeError | src/ai/run.ts:44-50 | the configuration check never meets nullish frontmatter, so it never throws a TypeError |
| Run.InsertionPoint | src/ai/run.ts:82-93 | with a selection, the cursor is moved to its end first. Then `"\n\n"` is inserted at the cursor, and the reply position is where the cursor is afterwards |
| Run.StreamWrites | src/ai/run.ts:98-106 | one write per fragment, all at the same fixed insertion position |
| Run.StreamWritesAccumulate | src/ai/run.ts:100-106 | the first write is the first fragment's text, and each later write extends the previous one by the next fragment. The last write is the whole reply |
| Run.Prelude | src/ai/run.ts:79-92 | a run that passed its checks shows the processing notice first, followed only by editor operations |
| Run.RunShape | src/ai/run.ts:25-120 | both the run as written (`Run.RunAsWritten`) and the run with the generator drained (`Run.RunAIPersonality`) end with a notice, and each opens with the processing notice exactly when every check passes |
| Run.AbortedRun | src/ai/run.ts:34-70 | a run that fails a check, in either version, is exactly the notice of the first failing check |
| Run.NetworkDisabledOnlyNotice | src/ai/run.ts:34-37 | with network use disabled, the only effect is the notice saying so |
| Run.FailedCheckTouchesNothing | src/ai/run.ts:39-70 | a run failing a check has one effect, a notice. There is no editor operation and no request |
| Run.EditorOpsIffChecksPass | src/ai/run.ts:34-93 | a run performs an editor operation exactly when every check passes, and then the processing notice comes first and an editor operation right after it |
| Run.RunProceeds | src/ai/run.ts:72-96 | a run whose checks pass goes on with the plan they established |
| Run.StreamingRun | src/ai/run.ts:96-108 | a streaming run's effects in order: insertion point, request, one write of the running text per fragment, then the success notice or the error. An error leaves earlier writes in place |
| Run.AsWrittenNonStreamingNeverFetches | src/ai/run.ts:109-113 | as written, a non-streaming run sends no request and writes the generator object |
| Run.NonStreamingRun | src/ai/run.ts:109-113 | with the generator drained, a non-streaming run sends its request and then either writes the reply's text once at the insertion point, or shows the error |
| Run.NonStreamingDifference | src/ai/run.ts:109-113 | a one-text reply is written by the drained run and never by the run as written, which writes the generator object instead |
| Run.NonStreamingExample | src/ai/run.ts:109-113 | in a concrete Gemini run with `stream: false`, the reply `"Hi"` is written once the generator is drained. As written, the generator object is written at the reply position and `"Hi"` never is |
| Paths.PadStart | utils/path.ts:8 | the padded text has length at least `n`, ends with the original text, and is filled in front with the pad character |
| Paths.MonthTwoDigits | utils/path.ts:8 | the padded month is two digits that read back as the month, with a leading zero exactly before October |
| Paths.YearMonthReadBack | utils/path.ts:5-10 | the folder name's last slash separates the year's rendering from the two-digit month |
| Paths.FileName | utils/path.ts:20 | the file name is the text after the last `/`, or the whole path when that text is empty |
| Paths.ParentDir | utils/path.ts:21 | the parent is the text before the last `/`, and empty when there is none |
| Paths.YearMonth | utils/path.ts:5-10 | the folder name is the year's rendering, a slash, and exactly two digits that read back as the month |
| Paths.TargetPath | utils/path.ts:18-30 | the target ends with the folder name, `/` and the file name. It is exactly that for a note without a parent directory, and otherwise the parent directory and `/` come first. So it always ends with `/` and the file name |
| Paths.TargetPathShape | utils/path.ts:18-30 | a path with no `/` after its first character is filed as folder/file name. Any other path is filed as parent/folder/file name |
| Paths.TargetPathLonger | utils/path.ts:18-30 | for a non-empty folder name, the target is strictly longer than the path, so it never equals it |
| Paths.AlreadyFiledUnreachable | commands/processNote.ts:21-27 | the "already in target location" branch is dead for every path and every year and month |
| Commands.Suggestions | src/commands/ai.ts:18-36 | suggestions are exactly the personality notes (those whose `note-type` is `"ai-personality"`) that match the query, in vault order, each as often as it occurs in the vault. An empty query matches all of them, and otherwise the lower-cased base name must contain the lower-cased query |
| Commands.EmptyQueryKeepsAll | src/commands/ai.ts:28-30 | an empty query returns every personality note, in vault order |
| Commands.OpenPickerOutcome | src/commands/ai.ts:62-83 | the picker command is always available and leaves the slot alone until a choice is made |
| Commands.ChooseOutcome | src/commands/ai.ts:69-71 | the chosen note is recorded in the slot and run |
| Commands.RerunOutcome | src/commands/ai.ts:90-107 | re-running is available exactly when the slot holds a note. Executing it runs that note and leaves the slot unchanged |
| Commands.UseReferencedOutcome | src/commands/ai.ts:114-152 | there is no active file, or its `personality` value is falsy: unavailable, or on execution the "No personality reference" notice. An unresolved reference returns false with its notice and leaves the slot unchanged. A resolved reference is recorded and run |
| Commands.Step | src/commands/ai.ts:59-153 | checking a command's availability never runs a note or shows a notice. A notice comes only with a `false` result and nothing run, and a note is run only with a `true` result |
| Commands.StepKeepsSlotInvariant | src/commands/ai.ts:59-153 | a run note is the one the slot holds afterwards, a filled slot is never emptied, and a step that runs nothing leaves the slot as it was |
| Commands.SlotIsLastRun | src/commands/ai.ts:51 | after any sequence of invocations, the slot holds the note run last, and it is empty until a note is run |
| Commands.RerunRunsLastRun | src/commands/ai.ts:90-104 | re-running is available exactly when some note has been run, and it runs the note run last |

## Left out

- `fetch`, `response.text()`/`json()`, `TextDecoder` and `reader.releaseLock` are foreign I/O. A response is its status and its body as already-decoded chunks, plus two flags: the body cannot be read incrementally, or reading fails after the chunks delivered. Releasing the reader has no observable effect here.
- `JSON.parse` is a parameter, and so are the server, the editor's cursor after an insertion, `toLowerCase` and link resolution. They are the host's behaviour.
- The Obsidian host is not part of this model: vault reads, metadata cache, workspace, `Notice`, the suggestion modal's rendering, command registration and the settings tab. A run receives the cached frontmatter, the note text (absent when it cannot be read), the selection and the editor state as inputs.
- The clock is not modelled. `getCurrentYearMonth` takes the year and the month as arguments.
- The folder creation and rename I/O of `commands/processNote.ts` is left out; only its dead branch is stated.
- Floating point is not modelled. A JavaScript number is carried as the text `String()` renders for it, because the code only copies numbers, tests their truthiness and concatenates them.
- Unicode case mapping is the `lower` parameter. `trim` strips the ECMAScript WhiteSpace and LineTerminator characters, with no normalisation.
- Concurrency between overlapping runs and the interleaving at `await` points is not modelled. A run is one sequential trace.
- `replaceRange(text, pos)` with no end position is recorded as an operation, and its effect on the document is left to the host, as is the final document after streaming.
- Run.AsWrittenSingleEffects: assumes every editor operation returns normally, including the as-written `replaceRange` of the generator object where the editor expects a string (src/ai/run.ts:111-112). A host that throws there would show the `AI error:` notice of src/ai/run.ts:116-119 instead of the completion notice. Whether it throws is host behaviour outside this model, so `Run.AsWrittenNonStreamingNeverFetches` and `Run.NonStreamingExample` rest on that assumption for their final notice. Their other claims, that no request is sent and the object is what is written, do not depend on it.
- Js.JsString: turns every object into `[object Object]`. An object with its own `toString` key, reached at top level or as an array element (for example `{toString: 1}`, which YAML frontmatter or a server's JSON can hold), makes JavaScript's string conversion throw a TypeError instead, because the own `toString` cannot be called and the inherited `valueOf` returns the object itself. The source would then throw at src/ai/providers/gemini.ts:13 (`mapping[level]` inside `send`, shown as an `AI error:` notice), at src/ai/run.ts:103 (`accumulatedText += chunk`) and at src/commands/ai.ts:137 (the template with the personality path). In those cases `GeminiProvider.ThresholdOf` gives an undefined threshold, `Js.ConcatText`, `Run.StreamWrites` and `Run.SingleEffects` write the text `[object Object]`, and `Commands.UseReferencedOutcome` shows `Personality file not found: [object Object]`. Modelling the conversion as fallible would thread a TypeError through every string conversion of the run, for values that only a hand-written frontmatter key or an unusual server reply can produce.
- Errors raised by the host carry text this model leaves abstract (`Types.ErrorMessage` returns `None` for them): an unreadable note, a failed fetch or read, a JSON syntax error, a TypeError. A run shows such an error as `ShowError` of the error itself.
- Property access covers an object's own properties, array elements and string characters. Inherited properties, `length` and getters are not modelled, because the keys the code reads never hit them. The one exception is `"__proto__"` as a Gemini level, which `GeminiProvider.ThresholdOf` handles.
- `getSelectedText` returning `""` without an active view is folded into the selected text the host supplies.
- Run.NonStreamingDifference: requires the reply text to differ from `"\n\n"`, because the two line feeds inserted before the reply are themselves a range write and cannot be told apart from such a reply.

Three behaviours of the code are easy to misread, and the model follows the code in each:

- `data: [DONE]` does not end an OpenAI stream. The line is skipped and reading continues (src/ai/providers/openai.ts:75, `OpenAIProvider.DoneDoesNotStop`).
- The output target is not limited to the `'insert'` that src/ai/types.ts:7 declares as its type. Any truthy `output.target` is taken (src/ai/config.ts:50, `Config.OutputTargetUnvalidated`).
- A non-streaming run does not write the model's reply (see Findings).

## Findings

| source | as written | input that shows it | evidently intended | confidence | as-written member | corrected member |
|---|---|---|---|---|---|---|
| src/ai/run.ts:109-113 | the non-streaming branch awaits `send`'s result as a promise, but both adapters' `send` is an async generator. The awaited value is the generator object itself, its body never runs, no request is sent, and the object is what `replaceRange` receives | a Gemini personality with `stream: false`, selected text `"Hello"`, an empty editor selection, and a server whose reply has the text `"Hi"` | drain the generator and write its text once at the insertion point, then show the completion notice | not executed | Run.NonStreamingExample | Run.NonStreamingRun |

`Run.RunAsWritten` models the code as written, and `Run.AsWrittenNonStreamingNeverFetches` states that it never fetches. `Run.RunAIPersonality` is the corrected run that the rest of the model uses.
