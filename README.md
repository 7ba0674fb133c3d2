# pr-description, modelled in Dafny

A model of the GitHub Action that edits a pull request's description. A run
does four things in order:

1. It decides which pull request to edit. This is the number in the
   `pull_request` event payload, or else the first open pull request on the
   pushed branch among those the host associates with the commit.
2. It fetches that pull request's body.
3. It computes the new body. One of four branches fires: replace the matched
   text, append the content, set the body to the content, or skip.
4. Unless it skipped, it writes the new body back.

Modules:

- `Wrappers` (wrappers.dfy): `Option`.
- `Text` (text.dfy): matching and replacement with a literal pattern. This
  stands in for `RegExp`, `String.prototype.match` and
  `String.prototype.replace`. `Find` returns the leftmost match, `ReplaceFirst`
  replaces it, and `ReplaceAll` replaces every non-overlapping match from left
  to right. `Split`/`Join` give an independent reference for global
  replacement.
- `Resolver` (resolver.dfy): the candidate filter, the first-candidate choice,
  JavaScript truthiness of the pull-request number, and the failure message.
  The predicate `IsCandidate` is the filter callback of index.js:30-32.
  `TruthyNumber` is the negation of the `!prNumber` test at index.js:20 and 38.
- `Transformer` (transformer.dfy): defaults for the `regex` and `regexFlags`
  inputs, the file-content switch, the four-way cascade, and the new body.
- `Action` (action.dfy): the host, modelled as a class `Remote`. Its fields are
  the commit→pull-requests associations, the pull-request bodies, and the
  pull requests whose update the host refuses. A ghost call log records each
  call. `Plan` is a pure function giving the calls a run makes and how the
  run ends. `Edit` is the part of `Plan` after the body is fetched. `Run` is
  the step-by-step procedure of index.js, proved to follow `Plan`. Its second
  half, `WriteBack`, is proved to follow `Edit`. Lemmas about `Plan` state
  the call-ordering guarantees.
- `Scenarios` (scenarios.dfy): the concrete cases in tests/index.test.js,
  stated as lemmas.

Inputs from the environment are parameters:

- `Context`: `github.context`.
- `Inputs`: the values `core.getInput` returns.
- `files`: a map from path to text, standing for the file system that
  `fs.readFileSync` reads.

Where tests/index.test.js and index.js disagree, the model follows index.js:

- The tests exercise a `contentRegex` extraction step that index.js does not
  have. The model has no such step.
- The tests expect different notice texts (tests/index.test.js:104 and 228
  against index.js:60 and 69-71). Notices are not modelled.

`body = data.body` (index.js:51) assigns an undeclared variable. The model
treats it as a local.

## Model

| member | source | states |
|---|---|---|
| `Text.FindFrom` | index.js:59 | the result is an occurrence at or after the start index, and no position between the start and the result (or anywhere after the start, when there is none) is an occurrence |
| `Text.Find` | index.js:59 | `body.match(re)` succeeds exactly when the pattern occurs in the body, and it reports the leftmost occurrence |
| `Text.ReplaceFirst` | index.js:61 | non-global `replace`: with no occurrence the text is unchanged; otherwise, for the leftmost occurrence k, the result is the text before k, then the replacement, then the text after the match |
| `Text.ReplaceAll` | index.js:61 | global `replace`: a text without the pattern is returned unchanged |
| `Text.Split` | index.js:61 | the text cut at every non-overlapping occurrence, left to right: joining the parts with the pattern gives the text back, no part contains the pattern, and every cut is at the leftmost occurrence in what remains after the previous cut |
| `Text.ReplaceAllIsSplitJoin` | index.js:61 | global replacement equals splitting at the pattern and joining with the replacement, so each occurrence found left to right after the previous one is replaced and nothing else changes |
| `Text.ReplaceAllSelf` | index.js:61 | replacing every occurrence of the pattern by the pattern itself gives back the original text |
| `Resolver.Candidates` | index.js:29-33 | a pull request is kept exactly when it is in the list, its `"refs/heads/" + head.ref` equals the payload ref and its state is "open"; the result is never longer than the list |
| `Resolver.CandidatesHead` | index.js:29-35 | the filtered list is empty exactly when no entry qualifies; otherwise its head is the entry at the first qualifying position in list order |
| `Resolver.FirstCandidate` | index.js:35 | `candidatePullRequests?.[0]`: none exactly when no entry qualifies, otherwise the entry at the first qualifying position |
| `Resolver.ResolveNumber` | index.js:19-38 | a resolved number is never 0; a truthy payload number is used as is, and the list is ignored; otherwise the number is that of the first open pull request on the pushed branch, and nothing is resolved when there is no such entry or its number is 0 |
| `Resolver.ChosenIsOpenOnBranch` | index.js:29-35 | a number taken from the list always belongs to an open pull request whose head branch is the pushed ref, so drafts, other states and other branches are never chosen |
| `Resolver.NotFoundMessage` | index.js:39-41 | the failure text is "No open pull request found for ", then the event name, then ", ", then the commit sha |
| `Transformer.OrDefault` | index.js:11-12 | `input \|\| default`: an empty input yields the default, and any other input is kept |
| `Transformer.MakePattern` | index.js:11-12 | the body pattern is never empty: it is the `regex` input, or "---.*" when that input is empty; it is global exactly when `regexFlags` holds `g` |
| `Transformer.ContentText` | index.js:53-56 | when `contentIsFilePath` is exactly "true", the content is the named file's text, and the read fails when the path is unreadable; for any other value it is the `content` input |
| `Transformer.SelectBranch` | index.js:59-73 | Replace iff the body is non-empty and the pattern occurs in it; Append iff the body is non-empty, does not match, and match-only is not "true"; Set iff the body is null or empty and match-only is not "true"; Skip iff there is no match and match-only is "true" |
| `Transformer.ReplaceMatched` | index.js:61 | `body.replace(re, output)`: a body without a match is returned unchanged; what the replacement does is stated by `Transformer.ReplaceChangesFirstOnly` (without `g`) and `Transformer.ReplaceChangesEveryOccurrence` (with `g`) |
| `Transformer.NewBody` | index.js:59-73 | nothing is written exactly in the Skip branch |
| `Transformer.AppendKeepsBody` | index.js:62-64 | Append gives the old body followed by the content, with no separator: the length is the sum, and the body and the content are its prefix and suffix |
| `Transformer.EmptyBodyIsSetOrSkipped` | index.js:65-72 | a null or empty body becomes exactly the content when match-only is not "true", and nothing is written when it is |
| `Transformer.ReplaceChangesFirstOnly` | index.js:58-61 | without `g`, only the leftmost occurrence is replaced, and the text before and after it is kept |
| `Transformer.ReplaceChangesEveryOccurrence` | index.js:58-61 | with `g`, the body splits into at least two pattern-free parts that rejoin to the body, and the new body is those parts joined by the content |
| `Transformer.MatchOnlyOnlySuppresses` | index.js:59-73 | match-only mode either suppresses the write or yields the same body as without it; it suppresses exactly when the branch would not be Replace |
| `Action.Remote.ListPullRequestsAssociatedWithCommit` | index.js:22-27 | logs the lookup call; returns the host's list for the sha, or fails for an unknown sha |
| `Action.Remote.Get` | index.js:45-49 | logs the fetch call; returns the body (possibly null), or fails for an unknown number |
| `Action.Remote.Update` | index.js:75-80 | logs the update call; the host refuses it exactly for the numbers in `rejectsUpdate`; an accepted update sets that pull request's body to the given text, and no other body changes; a refused one changes no body |
| `Action.Plan` | index.js:19-80 | the reference `Run` is proved to follow: a run makes between one and three calls, and a run that ends Updated wrote a non-zero number that the host knows and accepts updates for; `UpdateOnceAfterGet`, `UpdateIffUpdated`, `DirectNumberSkipsLookup`, `LookupFetchesFirstCandidate`, `NotFoundStopsRun`, `FailureWritesNothing` and `SkipFetchesButWritesNothing` characterise it |
| `Action.Edit` | index.js:53-80 | what happens once the body is fetched: at most one more call; an Updated end is for the fetched number and one the host accepts updates for; a Skipped end implies match-only mode is "true" |
| `Action.Run` | index.js:5-81 | the calls appended to the log and the outcome are exactly those of `Plan`; the associations and the refused set never change; bodies change only when the run ends Updated, and then only the updated pull request gets the new body |
| `Action.WriteBack` | index.js:53-80 | the calls appended to the log and the outcome are exactly those of `Edit`; bodies change only when it ends Updated, and then only pull request `n` gets the new body |
| `Action.UpdateOnceAfterGet` | index.js:45-80 | a run makes at most one update call; it is the last call, and it comes right after the fetch of the same pull request |
| `Action.UpdateIffUpdated` | index.js:72-80 | an update call happens exactly when the run reaches the write; the run then ends Updated, and the call wrote the reported body to the reported number, or it ends Failed because the host refused that very call |
| `Action.DirectNumberSkipsLookup` | index.js:19-20 | with a truthy payload number, the commit lookup is never made and the first call fetches that number |
| `Action.LookupFetchesFirstCandidate` | index.js:20-49 | without a truthy payload number, the first call is the commit lookup, and any fetch is of the first open pull request on the pushed branch |
| `Action.NotFoundStopsRun` | index.js:38-43 | when no entry qualifies, the run is the lookup call alone, followed by failure with the fixed message |
| `Action.FailureWritesNothing` | index.js:38-56 | a failed run makes no update call, unless the failure is the host refusing the update; a failure to find the pull request leaves only lookup calls in the log |
| `Action.SkipFetchesButWritesNothing` | index.js:68-73 | a skipped run has match-only mode "true" and a body that did not match; it ends with the fetch and makes no update call |
| `Scenarios.LookupScenarios` | tests/index.test.js:67-89 | from the three associated pull requests, the lookup picks 123 and skips the "other" entry and the draft; it finds nothing for "branch-without-pr"; a payload number is used directly |
| `Scenarios.ReplaceScenario` | tests/index.test.js:113-127 | "existing body" with pattern "existing" becomes "new content body" |
| `Scenarios.GlobalReplaceScenario` | tests/index.test.js:168-190 | "existing body existing" with pattern "existing", flag `g` and content "new" becomes "new body new" |
| `Scenarios.AppendScenario` | tests/index.test.js:192-204 | with no match, "existing body" becomes "existing bodynew content" |
| `Scenarios.EmptyBodyScenarios` | tests/index.test.js:273-305 | an empty body is set to the content, or left unwritten in match-only mode |
| `Scenarios.FileContentScenario` | tests/index.test.js:307-322 | with `contentIsFilePath` "true", the file's text replaces the matched body, and only a fetch and an update are made |
| `Scenarios.PushEventScenario` | tests/index.test.js:324-339 | a push event makes exactly the lookup, then the fetch of 123, then the update writing "new content" over the fully matched body, in that order |
| `Scenarios.NotFoundScenario` | tests/index.test.js:341-358 | a failed lookup makes one call and fails with "No open pull request found for other, sha" |

## Left out

- Regular expressions: the body pattern is a literal, non-empty string, and the `regexFlags` value only decides whether `g` is present. The `i`, `s`, `m`, `y`, `u` and `d` flags, pattern syntax, empty matches, and the exception `RegExp` throws for an invalid pattern or flag are not modelled. The default "---.*" is taken literally.
- Transformer.ReplaceMatched: treats the replacement text literally. `String.prototype.replace` expands `$&`, `` $` ``, `$'`, `$$` and `$n` in it, and the model does not.
- Network I/O: the octokit calls become the methods of `Remote` on an in-memory host. A rejected call is modelled as a lookup for an unknown commit, a fetch of an unknown number, or an update of a pull request the host refuses to update. Any of these ends the run Failed. Other network failures, authentication, owner/repo routing and the `token` input are not modelled.
- `core.getInput`: its required-input failures for `content` and `token`, and its whitespace trimming, come from @actions/core, which is not part of this model. Inputs are taken as `getInput` would return them.
- `core.notice`, `core.warning` and `core.setFailed` texts: only the branch and the failure kind are modelled, plus the not-found message. Message texts of rejected calls and failed reads are not modelled.
- `fs.readFileSync` and UTF-8 decoding: the file system is a map from path to text, and a missing path is a failed read.
- The async machinery and the top-level `.catch` (index.js:83), which only forward error messages to `setFailed`.
