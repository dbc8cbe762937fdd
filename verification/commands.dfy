/** The AI commands: the personality picker's suggestion filter, and the
    "last personality" slot that the three commands read and write. Each command
    callback is a function of the slot and what the host reports, returning the
    callback's result, the new slot, the personality it runs (if any) and the notice
    it shows (if any). */
module Commands {
  import opened Wrappers
  import opened Js
  import Text
  import Seqs

  /** A markdown file of the vault with its cached frontmatter (`Undefined` when the
      file has no cache entry or no frontmatter). */
  datatype File = File(path: string, basename: string, frontmatter: Json)

  /** `cache?.frontmatter?.['note-type'] === 'ai-personality'`. */
  predicate IsPersonality(f: File) {
    OptProp(f.frontmatter, "note-type") == Str("ai-personality")
  }

  /** The personality notes among the files, in vault order. */
  function PersonalityFiles(files: seq<File>): seq<File>
  {
    Seqs.Filter(files, IsPersonality)
  }

  /** The suggestion matches the query: its lower-cased base name contains the
      lower-cased query. `lower` is the host's `toLowerCase`. */
  predicate Matches(f: File, query: string, lower: string -> string) {
    Text.Includes(lower(f.basename), lower(query))
  }

  /** `getSuggestions`: every personality note for an empty query, and otherwise
      those whose name matches it, in vault order. */
  function Suggestions(files: seq<File>, query: string, lower: string -> string): (r: seq<File>)
    ensures forall i :: 0 <= i < |r| ==> r[i] in files && IsPersonality(r[i])
    ensures forall i :: 0 <= i < |r| ==> query == "" || Matches(r[i], query, lower)
    ensures forall i :: 0 <= i < |files| && IsPersonality(files[i]) && (query == "" || Matches(files[i], query, lower))
                        ==> files[i] in r
    ensures Seqs.IsSubsequence(r, files)
    ensures forall x :: multiset(r)[x]
                        == if IsPersonality(x) && (query == "" || Matches(x, query, lower)) then multiset(files)[x] else 0
  {
    var personalities := PersonalityFiles(files);
    if query == "" then personalities
    else
      var keep := (f: File) => Matches(f, query, lower);
      Seqs.FilterFilter(files, IsPersonality, keep);
      Seqs.Filter(personalities, keep)
  }

  /** An empty query keeps every personality note, in vault order. */
  lemma EmptyQueryKeepsAll(files: seq<File>, lower: string -> string)
    ensures Suggestions(files, "", lower) == PersonalityFiles(files)
  {
  }

  /** What a command callback (or the picker's choice) does. */
  datatype Outcome = Outcome(result: bool, slot: Option<File>, runs: Option<File>, notice: Option<string>)

  /** The invocations the slot sees: the picker's choice, and the three commands'
      check callbacks in checking (availability) or executing mode. The referenced
      personality command reads the active view's file, if any. */
  datatype Invocation =
    | OpenPicker(checking: bool)
    | Choose(file: File)
    | Rerun(checking: bool)
    | UseReferenced(view: Option<File>, checking: bool)

  /** "Run AI with Personality…": always available; executing it opens the picker. */
  function OpenPickerOutcome(slot: Option<File>): (o: Outcome)
    ensures o.result && o.slot == slot && o.runs.None? && o.notice.None?
  {
    Outcome(true, slot, None, None)
  }

  /** The picker's choice: the slot takes the chosen note, which is then run. */
  function ChooseOutcome(file: File): (o: Outcome)
    ensures o.slot == Some(file) && o.runs == Some(file)
  {
    Outcome(true, Some(file), Some(file), None)
  }

  /** "Re-run last Personality": available exactly when the slot holds a note;
      executing it runs that note and leaves the slot as it is. */
  function RerunOutcome(slot: Option<File>, checking: bool): (o: Outcome)
    ensures checking ==> (o.result <==> slot.Some?) && o.runs.None?
    ensures !checking ==> o.result && o.runs == slot
    ensures o.slot == slot && o.notice.None?
  {
    if checking then Outcome(slot.Some?, slot, None, None)
    else Outcome(true, slot, slot, None)
  }

  /** "Use personality referenced by current note": the `personality` value of the
      active file's frontmatter, resolved as a link from that file by the host's
      `resolve`. Available exactly when there is an active file and the value is
      truthy; executing it runs the resolved note and records it, or shows why it
      cannot and returns false with the slot unchanged. */
  function UseReferencedOutcome(slot: Option<File>, view: Option<File>, checking: bool,
                                resolve: (Json, string) -> Option<File>): (o: Outcome)
    ensures view.None? ==> o == Outcome(false, slot, None, None)
    ensures view.Some? && checking ==>
      o.result == Truthy(OptProp(view.value.frontmatter, "personality")) && o.slot == slot && o.runs.None?
    ensures view.Some? && !checking && !Truthy(OptProp(view.value.frontmatter, "personality")) ==>
      o == Outcome(false, slot, None, Some("No personality reference found in frontmatter"))
    ensures view.Some? && !checking && Truthy(OptProp(view.value.frontmatter, "personality")) ==>
      var reference := OptProp(view.value.frontmatter, "personality");
      match resolve(reference, view.value.path)
      case None => o == Outcome(false, slot, None, Some("Personality file not found: " + JsString(reference)))
      case Some(target) => o == Outcome(true, Some(target), Some(target), None)
  {
    match view
    case None => Outcome(false, slot, None, None)
    case Some(file) =>
      var reference := OptProp(file.frontmatter, "personality");
      if checking then Outcome(Truthy(reference), slot, None, None)
      else if !Truthy(reference) then Outcome(false, slot, None, Some("No personality reference found in frontmatter"))
      else
        match resolve(reference, file.path)
        case None => Outcome(false, slot, None, Some("Personality file not found: " + JsString(reference)))
        case Some(target) => Outcome(true, Some(target), Some(target), None)
  }

  /** One invocation against the slot. A check of availability never runs a note or
      shows a notice; a notice comes only with a `false` result and nothing run; a
      note is run only with a `true` result. */
  function Step(slot: Option<File>, inv: Invocation, resolve: (Json, string) -> Option<File>): (o: Outcome)
    ensures !inv.Choose? && inv.checking ==> o.runs.None? && o.notice.None?
    ensures o.notice.Some? ==> !o.result && o.runs.None?
    ensures o.runs.Some? ==> o.result && o.notice.None?
  {
    match inv
    case OpenPicker(_) => OpenPickerOutcome(slot)
    case Choose(file) => ChooseOutcome(file)
    case Rerun(checking) => RerunOutcome(slot, checking)
    case UseReferenced(view, checking) => UseReferencedOutcome(slot, view, checking, resolve)
  }

  /** A note that is run is the one the slot holds afterwards, and a slot that holds
      a note is never emptied. */
  lemma StepKeepsSlotInvariant(slot: Option<File>, inv: Invocation, resolve: (Json, string) -> Option<File>)
    ensures var o := Step(slot, inv, resolve);
      && (o.runs.Some? ==> o.slot == o.runs)
      && (slot.Some? ==> o.slot.Some?)
      && (o.runs.None? ==> o.slot == slot)
  {
  }

  /** The slot after a sequence of invocations, starting empty. */
  function SlotAfter(invs: seq<Invocation>, resolve: (Json, string) -> Option<File>): Option<File>
  {
    if |invs| == 0 then None
    else Step(SlotAfter(invs[..|invs| - 1], resolve), invs[|invs| - 1], resolve).slot
  }

  /** The notes a sequence of invocations runs, in order. */
  function RunsOf(invs: seq<Invocation>, resolve: (Json, string) -> Option<File>): seq<File>
  {
    if |invs| == 0 then []
    else
      var o := Step(SlotAfter(invs[..|invs| - 1], resolve), invs[|invs| - 1], resolve);
      RunsOf(invs[..|invs| - 1], resolve) + (if o.runs.Some? then [o.runs.value] else [])
  }

  /** The slot holds the note run last, and is empty until a note is run. */
  lemma {:induction false} SlotIsLastRun(invs: seq<Invocation>, resolve: (Json, string) -> Option<File>)
    ensures var runs := RunsOf(invs, resolve);
      SlotAfter(invs, resolve) == if |runs| == 0 then None else Some(runs[|runs| - 1])
    decreases |invs|
  {
    if |invs| > 0 {
      var pre := invs[..|invs| - 1];
      SlotIsLastRun(pre, resolve);
      StepKeepsSlotInvariant(SlotAfter(pre, resolve), invs[|invs| - 1], resolve);
    }
  }

  /** Re-running is available exactly when some note has been run, and it runs the
      note run last. */
  lemma RerunRunsLastRun(invs: seq<Invocation>, resolve: (Json, string) -> Option<File>)
    ensures var runs := RunsOf(invs, resolve);
      var slot := SlotAfter(invs, resolve);
      && (RerunOutcome(slot, true).result <==> |runs| > 0)
      && (|runs| > 0 ==> RerunOutcome(slot, false).runs == Some(runs[|runs| - 1]))
  {
    SlotIsLastRun(invs, resolve);
  }
}
