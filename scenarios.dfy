/**
 The concrete cases pinned down by tests/index.test.js, stated on the model.
 */
module Scenarios {
  import opened Wrappers
  import opened Text
  import opened Resolver
  import opened Transformer
  import opened Action

  /** The three pull requests the host associates with commit "sha" in the tests:
      one in state "other", one draft, one open on "branch-with-pr". */
  const Associated: seq<PullRequest> := [
    PullRequest(124, "branch-without-pr", "other"),
    PullRequest(125, "draft-branch-with-pr", "draft"),
    PullRequest(123, "branch-with-pr", "open")
  ]

  /** A position whose character differs from the pattern's first character is not a match. */
  lemma NoMatchAt(s: string, p: string, j: nat)
    requires |p| > 0 && j < |s| && s[j] != p[0]
    ensures !OccursAt(s, p, j)
  {
    if j + |p| <= |s| {
      assert s[j..j + |p|][0] == s[j];
    }
  }

  /** Lookup by commit picks 123, skipping the entry in state "other" and the draft;
      on the branch whose only pull request is not open nothing is found. */
  lemma LookupScenarios()
    ensures ResolveNumber(None, Associated, Some("refs/heads/branch-with-pr")) == Some(123)
    ensures ResolveNumber(None, Associated, Some("refs/heads/branch-without-pr")) == None
    ensures ResolveNumber(Some(123), [], Some("refs/heads/branch-with-pr")) == Some(123)
  {
    assert BranchRefPrefix + "branch-with-pr" == "refs/heads/branch-with-pr";
    assert !IsCandidate(Associated[0], Some("refs/heads/branch-with-pr"));
    assert !IsCandidate(Associated[1], Some("refs/heads/branch-with-pr"));
    assert IsFirstCandidateAt(Associated, Some("refs/heads/branch-with-pr"), 2);
    assert !IsCandidate(Associated[0], Some("refs/heads/branch-without-pr"));
  }

  /** Partial match: "existing body" with pattern "existing" becomes "new content body". */
  lemma ReplaceScenario()
    ensures NewBody(Some("existing body"), "new content", MakePattern("existing", ""), "") == Some("new content body")
  {
    var s, p := "existing body", "existing";
    assert OccursAt(s, p, 0);
    assert IsFirstOccurrence(s, p, 0);
    assert s[..0] == "" && s[8..] == " body";
    assert ReplaceFirst(s, p, "new content") == "" + "new content" + " body";
    assert "" + "new content" + " body" == "new content body";
    var pat := MakePattern(p, "");
    assert pat == Pattern(p, false);
    assert SelectBranch(Some(s), pat, "") == Replace;
  }

  /** Global match: "existing body existing" with pattern "existing" and flags "g" and
      content "new" becomes "new body new". */
  lemma GlobalReplaceScenario()
    ensures NewBody(Some("existing body existing"), "new", MakePattern("existing", "g"), "") == Some("new body new")
  {
    var s, p := "existing body existing", "existing";
    var rest := s[8..];
    assert rest == " body existing";
    assert OccursAt(s, p, 0);
    assert Find(s, p) == Some(0);
    assert ReplaceAll(s, p, "new") == "new" + ReplaceAll(rest, p, "new");
    RestReplaced(rest, p);
    assert "new" + " body new" == "new body new";
    var pat := MakePattern(p, "g");
    assert pat == Pattern(p, true);
    assert SelectBranch(Some(s), pat, "") == Replace;
  }

  /** The tail " body existing" of the global scenario. */
  lemma RestReplaced(rest: string, p: string)
    requires rest == " body existing" && p == "existing"
    ensures ReplaceAll(rest, p, "new") == " body new"
  {
    assert OccursAt(rest, p, 6);
    forall j: nat | j < 6 ensures !OccursAt(rest, p, j) {
      NoMatchAt(rest, p, j);
    }
    assert IsFirstOccurrence(rest, p, 6);
    assert Find(rest, p) == Some(6);
    assert rest[..6] == " body " && rest[14..] == "";
    assert ReplaceAll("", p, "new") == "";
    assert ReplaceAll(rest, p, "new") == " body " + "new" + "";
  }

  /** No match: the content is appended with no separator. */
  lemma AppendScenario()
    ensures NewBody(Some("existing body"), "new content", MakePattern("no match", ""), "") == Some("existing bodynew content")
  {
    var s, p := "existing body", "no match";
    forall j: nat | j <= |s| ensures !OccursAt(s, p, j) {
      if j < 6 { NoMatchAt(s, p, j); }
    }
    assert !Contains(s, p);
    var pat := MakePattern(p, "");
    assert pat == Pattern(p, false);
    assert SelectBranch(Some(s), pat, "") == Append;
    assert s + "new content" == "existing bodynew content";
  }

  /** An empty body is set to the content, or left alone in match-only mode. */
  lemma EmptyBodyScenarios()
    ensures NewBody(Some(""), "new content", MakePattern("", ""), "") == Some("new content")
    ensures NewBody(Some(""), "new content", MakePattern("", ""), "true") == None
  {
  }

  /** A push event finds pull request 123 by its commit, fetches it, and writes the
      content over the fully matched body: three calls, in that order. The tests take
      their body pattern from the environment and show only that it matches the whole
      body "existing body"; the pattern "existing body" here stands for it. */
  lemma PushEventScenario()
    ensures Plan(Context("push", None, Some("refs/heads/branch-with-pr"), "sha"),
                 Inputs("new content", "", "existing body", "", ""), map[],
                 map["sha" := Associated], map[123 := Some("existing body")], {}) ==
            Trace([ListPulls("sha"), GetPull(123), UpdatePull(123, "new content")],
                  Updated(123, Replace, "new content"))
  {
    LookupScenarios();
    assert map["sha" := Associated]["sha"] == Associated;
    var s := "existing body";
    assert OccursAt(s, s, 0);
    assert IsFirstOccurrence(s, s, 0);
    assert s[..0] + "new content" + s[13..] == "new content";
    var pat := MakePattern(s, "");
    assert pat == Pattern(s, false);
  }

  /** The failing lookup of the tests: one lookup call, then the fixed message. */
  lemma NotFoundScenario()
    ensures Plan(Context("other", None, Some("refs/heads/branch-without-pr"), "sha"),
                 Inputs("new content", "", "", "", ""), map[],
                 map["sha" := Associated], map[123 := Some("existing body")], {}) ==
            Trace([ListPulls("sha")], Failed(NoOpenPullRequest("No open pull request found for other, sha")))
  {
    LookupScenarios();
    assert map["sha" := Associated]["sha"] == Associated;
    assert NotFoundMessage("other", "sha") == "No open pull request found for other, sha";
  }

  /** Reading the content from a file uses the file's text in place of the path: the
      whole body "existing body" matches and is replaced by "file content". The tests
      take their body pattern from the environment and show only that it matches the
      whole body; the pattern "existing body" here stands for it. */
  lemma FileContentScenario()
    ensures Plan(Context("pull_request", Some(123), None, "sha"),
                 Inputs("tests/sample_content.txt", "true", "existing body", "", ""),
                 map["tests/sample_content.txt" := "file content"],
                 map[], map[123 := Some("existing body")], {}) ==
            Trace([GetPull(123), UpdatePull(123, "file content")], Updated(123, Replace, "file content"))
  {
    var s := "existing body";
    assert OccursAt(s, s, 0);
    assert IsFirstOccurrence(s, s, 0);
    assert s[..0] + "file content" + s[13..] == "file content";
    var pat := MakePattern(s, "");
    assert pat == Pattern(s, false);
  }
}
