/**
 How the action computes the new pull-request body (index.js:11-12, 53-73).

 The body pattern is modelled as a literal, non-empty string with a global
 flag (see module Text); the four-way cascade, the defaulting of the pattern
 inputs, the file-content switch and the string operations of each branch
 follow index.js.
 */
module Transformer {
  import opened Wrappers
  import opened Text

  /** The default `regex` input, taken literally by this model. */
  const DefaultRegex := "---.*"
  /** The default `regexFlags` input. */
  const DefaultRegexFlags := ""
  /** The only value of `contentIsFilePath` and `appendContentOnMatchOnly` that switches them on. */
  const On := "true"

  /** The body pattern: literal text, and whether every occurrence is replaced. */
  datatype Pattern = Pattern(literal: string, global: bool)

  /** The branch of the cascade at index.js:59-73 that fires. */
  datatype Branch = Replace | Append | Set | Skip

  /** `core.getInput(name) || default`: an empty input falls back to the default. */
  function OrDefault(input: string, default: string): (r: string)
    ensures input != "" ==> r == input
    ensures input == "" ==> r == default
  {
    if input != "" then input else default
  }

  /** The pattern built from the `regex` and `regexFlags` inputs (index.js:11-12, 58).
      It is never empty, and it is global exactly when the flags hold `g`. */
  function MakePattern(regexInput: string, flagsInput: string): (pat: Pattern)
    ensures |pat.literal| > 0
    ensures pat.literal == regexInput || (regexInput == "" && pat.literal == DefaultRegex)
    ensures pat.global <==> exists i :: 0 <= i < |flagsInput| && flagsInput[i] == 'g'
  {
    Pattern(OrDefault(regexInput, DefaultRegex), 'g' in OrDefault(flagsInput, DefaultRegexFlags))
  }

  /** The text to place into the body (index.js:53-56): the `content` input itself, or,
      when `contentIsFilePath` is "true", the text of the file it names. `files` maps
      the readable paths to their text; `None` is a failed read. */
  function ContentText(content: string, contentIsFilePath: string, files: map<string, string>): (r: Option<string>)
    ensures contentIsFilePath != On ==> r == Some(content)
    ensures contentIsFilePath == On ==> (r.Some? <==> content in files)
    ensures contentIsFilePath == On && r.Some? ==> r.value == files[content]
  {
    if contentIsFilePath == On then
      if content in files then Some(files[content]) else None
    else Some(content)
  }

  /** JavaScript truthiness of `body`: neither `null` nor empty. */
  predicate Truthy(body: Option<string>) {
    body.Some? && body.value != ""
  }

  /** `body.match(re)` succeeds. */
  predicate Matches(body: string, pat: Pattern) {
    Find(body, pat.literal).Some?
  }

  /** The branch that fires; the four cases are exclusive and cover every input. */
  function SelectBranch(body: Option<string>, pat: Pattern, matchOnly: string): (b: Branch)
    ensures b == Replace <==> Truthy(body) && Contains(body.value, pat.literal)
    ensures b == Append <==> Truthy(body) && !Contains(body.value, pat.literal) && matchOnly != On
    ensures b == Set <==> !Truthy(body) && matchOnly != On
    ensures b == Skip <==> !(Truthy(body) && Contains(body.value, pat.literal)) && matchOnly == On
  {
    if Truthy(body) && Matches(body.value, pat) then Replace
    else if Truthy(body) && matchOnly != On then Append
    else if matchOnly != On then Set
    else Skip
  }

  /** `body.replace(re, output)`, with the replacement text taken literally. */
  function ReplaceMatched(body: string, pat: Pattern, output: string): (r: string)
    requires |pat.literal| > 0
    ensures !Matches(body, pat) ==> r == body
  {
    if pat.global then ReplaceAll(body, pat.literal, output) else ReplaceFirst(body, pat.literal, output)
  }

  /** The body written back, or `None` when nothing is written (the Skip branch). */
  function NewBody(body: Option<string>, output: string, pat: Pattern, matchOnly: string): (r: Option<string>)
    requires |pat.literal| > 0
    ensures r.None? <==> SelectBranch(body, pat, matchOnly) == Skip
  {
    match SelectBranch(body, pat, matchOnly)
    case Replace => Some(ReplaceMatched(body.value, pat, output))
    case Append => Some(body.value + output)
    case Set => Some(output)
    case Skip => None
  }

  /** Appending keeps the whole old body and adds `output` after it, with no separator. */
  lemma AppendKeepsBody(body: Option<string>, output: string, pat: Pattern, matchOnly: string)
    requires |pat.literal| > 0
    requires SelectBranch(body, pat, matchOnly) == Append
    ensures var t := NewBody(body, output, pat, matchOnly).value;
      |t| == |body.value| + |output| && t[..|body.value|] == body.value && t[|body.value|..] == output
  {
  }

  /** A null or empty body is replaced by exactly `output` unless match-only mode is on,
      and then nothing is written. */
  lemma EmptyBodyIsSetOrSkipped(body: Option<string>, output: string, pat: Pattern, matchOnly: string)
    requires |pat.literal| > 0
    requires !Truthy(body)
    ensures matchOnly != On ==> NewBody(body, output, pat, matchOnly) == Some(output)
    ensures matchOnly == On ==> NewBody(body, output, pat, matchOnly) == None
  {
  }

  /** Without the global flag only the leftmost occurrence is replaced; the text before
      and after it is kept. */
  lemma ReplaceChangesFirstOnly(body: Option<string>, output: string, pat: Pattern, matchOnly: string)
    requires |pat.literal| > 0 && !pat.global
    requires SelectBranch(body, pat, matchOnly) == Replace
    ensures exists k: nat :: (IsFirstOccurrence(body.value, pat.literal, k) &&
                              NewBody(body, output, pat, matchOnly) == Some(body.value[..k] + output + body.value[k + |pat.literal|..]))
  {
    var k := Find(body.value, pat.literal).value;
    assert IsFirstOccurrence(body.value, pat.literal, k);
  }

  /** With the global flag the body is cut at every occurrence, left to right, and the
      pieces are joined with `output`: each occurrence is replaced and nothing else is. */
  lemma ReplaceChangesEveryOccurrence(body: Option<string>, output: string, pat: Pattern, matchOnly: string)
    requires |pat.literal| > 0 && pat.global
    requires SelectBranch(body, pat, matchOnly) == Replace
    ensures var parts := Split(body.value, pat.literal);
      |parts| > 1 && Join(parts, pat.literal) == body.value &&
      NewBody(body, output, pat, matchOnly) == Some(Join(parts, output))
  {
    ReplaceAllIsSplitJoin(body.value, pat.literal, output);
  }

  /** Match-only mode changes nothing when the pattern matches: it only turns the
      Append and Set branches into Skip. */
  lemma MatchOnlyOnlySuppresses(body: Option<string>, output: string, pat: Pattern, other: string)
    requires |pat.literal| > 0
    ensures NewBody(body, output, pat, On) == None ||
            NewBody(body, output, pat, On) == NewBody(body, output, pat, other)
    ensures NewBody(body, output, pat, On) == None <==>
            SelectBranch(body, pat, other) != Replace
  {
  }
}
