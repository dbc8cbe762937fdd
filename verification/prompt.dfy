/** The message builder: the prompt body of a personality note (its text after the
    frontmatter block, trimmed) and the zero-, one- or two-message chat it starts. */
module Prompt {
  import opened Wrappers
  import opened Types
  import Text

  /** The opening and closing delimiters of a frontmatter block. */
  const Open := "---\n"
  const Close := "\n---\n"

  /** The closing delimiter occurs at index `j` of `s`. */
  predicate CloseAt(s: string, j: int) {
    0 <= j && j + |Close| <= |s| && s[j..j + |Close|] == Close
  }

  /** `s` starts with a frontmatter block whose closing delimiter begins at index `j`,
      that is `s` starts with `Open + s[4..j] + Close`. */
  predicate BlockEndsAt(s: string, j: int) {
    Text.StartsWith(s, Open) && |Open| <= j && CloseAt(s, j)
  }

  /** The first index at or after `from` where the closing delimiter occurs. */
  function FirstClose(s: string, from: nat): (r: Option<nat>)
    ensures r.Some? ==> from <= r.value && CloseAt(s, r.value)
    ensures r.Some? ==> forall k :: from <= k < r.value ==> !CloseAt(s, k)
    ensures r.None? ==> forall k :: from <= k ==> !CloseAt(s, k)
    decreases |s| - from
  {
    if from + |Close| > |s| then None
    else if CloseAt(s, from) then Some(from)
    else FirstClose(s, from + 1)
  }

  /** `content.replace(/^---\n([\s\S]*?)\n---\n/, '')`: the regular expression is
      anchored at the start, its body is lazy and it has no global flag, so at most
      the shortest leading block is removed; content without one is unchanged. */
  function StripFrontmatter(content: string): (r: string)
    ensures (forall j :: !BlockEndsAt(content, j)) ==> r == content
    ensures forall j :: BlockEndsAt(content, j) && (forall k :: k < j ==> !BlockEndsAt(content, k))
                        ==> r == content[j + |Close|..]
  {
    if !Text.StartsWith(content, Open) then content
    else
      match FirstClose(content, |Open|)
      case None => content
      case Some(j) =>
        assert BlockEndsAt(content, j);
        content[j + |Close|..]
  }

  /** The pure part of `extractPromptBody`: the note's text without its leading
      frontmatter block, trimmed. */
  function ExtractPromptBody(content: string): (r: string)
    ensures |r| <= |content|
    ensures exists i :: Text.TrimmedAt(StripFrontmatter(content), r, i)
    ensures r == "" || (!Text.IsJsSpace(r[0]) && !Text.IsJsSpace(r[|r| - 1]))
  {
    Text.Trim(StripFrontmatter(content))
  }

  /** A block followed by any text loses exactly the block, whatever the text holds,
      further `---` blocks included: only one block is ever removed. */
  lemma StripRemovesOneBlock(b: string, rest: string)
    requires forall k :: 0 <= k < |b| ==> !CloseAt(b + Close, k)
    ensures StripFrontmatter(Open + b + Close + rest) == rest
  {
    var s := Open + b + Close + rest;
    var j := |Open| + |b|;
    assert s[..|Open|] == Open;
    assert s[j..j + |Close|] == Close;
    assert BlockEndsAt(s, j);
    forall k | k < j
      ensures !BlockEndsAt(s, k)
    {
      if |Open| <= k {
        var k' := k - |Open|;
        assert !CloseAt(b + Close, k');
        assert (b + Close)[k'..k' + |Close|] == s[k..k + |Close|];
      }
    }
    assert s[j + |Close|..] == rest;
  }

  /** Text that does not start with `---` and a line feed, CRLF-delimited frontmatter
      for one, is only trimmed. */
  lemma NoBlockOnlyTrimmed(content: string)
    requires !Text.StartsWith(content, Open)
    ensures ExtractPromptBody(content) == Text.Trim(content)
  {
    assert !BlockEndsAt(content, |Open|);
  }

  /** Two delimiter lines with nothing between them are not a block. */
  lemma EmptyDelimitersNotABlock()
    ensures StripFrontmatter("---\n---\n") == "---\n---\n"
  {
    var s := "---\n---\n";
    forall j ensures !BlockEndsAt(s, j) {
    }
  }

  /** `buildMessages`: a system message for a non-empty prompt body, then a user
      message for non-empty input, each holding its text unchanged. */
  function BuildMessages(promptBody: string, userInput: string): (r: seq<Message>)
    ensures |r| == (if promptBody != "" then 1 else 0) + (if userInput != "" then 1 else 0)
    ensures promptBody != "" ==> r[0] == Message(System, promptBody)
    ensures userInput != "" ==> r[|r| - 1] == Message(User, userInput)
    ensures forall i :: 0 <= i < |r| ==> r[i].content != "" && r[i].role != Assistant
  {
    (if promptBody != "" then [Message(System, promptBody)] else [])
      + (if userInput != "" then [Message(User, userInput)] else [])
  }
}
