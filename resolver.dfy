/**
 Which pull request the action edits (index.js:19-43).

 A `pull_request` event names the pull request directly. Any other event
 falls back to the pull requests the host associates with the triggering
 commit, keeping the open ones whose head branch is the pushed branch, and
 takes the first of those in the host's order. JavaScript truthiness is
 kept: a number 0 counts as "no pull request".
 */
module Resolver {
  import opened Wrappers

  /** One entry of the host's "pull requests associated with a commit" list. */
  datatype PullRequest = PullRequest(number: nat, headRef: string, state: string)

  const BranchRefPrefix := "refs/heads/"
  const OpenState := "open"
  const NotFoundPrefix := "No open pull request found for "

  /** `!prNumber` is false: the number is present and not 0. */
  predicate TruthyNumber(n: Option<nat>) {
    n.Some? && n.value != 0
  }

  /** The filter callback of index.js:30-32: the pull request's head branch is the
      pushed ref and it is open. A missing payload ref never matches. */
  predicate IsCandidate(pr: PullRequest, payloadRef: Option<string>) {
    payloadRef == Some(BranchRefPrefix + pr.headRef) && pr.state == OpenState
  }

  /** `prs.filter(IsCandidate)`, keeping the host's order. */
  function Candidates(prs: seq<PullRequest>, payloadRef: Option<string>): (cs: seq<PullRequest>)
    ensures |cs| <= |prs|
    ensures forall pr :: pr in cs <==> pr in prs && IsCandidate(pr, payloadRef)
  {
    if prs == [] then []
    else if IsCandidate(prs[0], payloadRef) then [prs[0]] + Candidates(prs[1..], payloadRef)
    else Candidates(prs[1..], payloadRef)
  }

  /** `i` is the position of the first candidate in `prs`. */
  predicate IsFirstCandidateAt(prs: seq<PullRequest>, payloadRef: Option<string>, i: nat) {
    i < |prs| && IsCandidate(prs[i], payloadRef) &&
    forall j :: 0 <= j < i ==> !IsCandidate(prs[j], payloadRef)
  }

  /** The head of the filtered list is the first candidate in list order. */
  lemma {:induction false} CandidatesHead(prs: seq<PullRequest>, payloadRef: Option<string>)
    ensures Candidates(prs, payloadRef) == [] <==> forall i :: 0 <= i < |prs| ==> !IsCandidate(prs[i], payloadRef)
    ensures Candidates(prs, payloadRef) != [] ==>
      exists i: nat :: IsFirstCandidateAt(prs, payloadRef, i) && prs[i] == Candidates(prs, payloadRef)[0]
  {
    if prs != [] {
      CandidatesHead(prs[1..], payloadRef);
      if !IsCandidate(prs[0], payloadRef) && Candidates(prs[1..], payloadRef) != [] {
        var i: nat :| IsFirstCandidateAt(prs[1..], payloadRef, i) && prs[1..][i] == Candidates(prs[1..], payloadRef)[0];
        assert IsFirstCandidateAt(prs, payloadRef, i + 1);
      }
      if IsCandidate(prs[0], payloadRef) {
        assert IsFirstCandidateAt(prs, payloadRef, 0);
      }
      if forall i :: 0 <= i < |prs[1..]| ==> !IsCandidate(prs[1..][i], payloadRef) {
        assert forall i :: 1 <= i < |prs| ==> prs[i] == prs[1..][i - 1];
      }
    }
  }

  /** `candidatePullRequests?.[0]`: the first open pull request on the pushed branch. */
  function FirstCandidate(prs: seq<PullRequest>, payloadRef: Option<string>): (r: Option<PullRequest>)
    ensures r.None? <==> forall i :: 0 <= i < |prs| ==> !IsCandidate(prs[i], payloadRef)
    ensures r.Some? ==> exists i: nat :: IsFirstCandidateAt(prs, payloadRef, i) && prs[i] == r.value
  {
    var cs := Candidates(prs, payloadRef);
    CandidatesHead(prs, payloadRef);
    if cs == [] then None else Some(cs[0])
  }

  /** The pull-request number the action settles on at index.js:38, or `None` when
      it reports that no open pull request was found. `listed` is what the commit
      lookup returned; it is consulted only when the payload carries no number. */
  function ResolveNumber(payloadNumber: Option<nat>, listed: seq<PullRequest>, payloadRef: Option<string>): (r: Option<nat>)
    ensures r.Some? ==> r.value != 0
    ensures TruthyNumber(payloadNumber) ==> r == payloadNumber
    ensures !TruthyNumber(payloadNumber) && r.Some? ==>
      exists i: nat :: IsFirstCandidateAt(listed, payloadRef, i) && listed[i].number == r.value
    ensures !TruthyNumber(payloadNumber) && r.None? ==>
      forall i: nat :: IsFirstCandidateAt(listed, payloadRef, i) ==> listed[i].number == 0
  {
    if TruthyNumber(payloadNumber) then payloadNumber
    else
      match FirstCandidate(listed, payloadRef)
      case None => None
      case Some(pr) =>
        assert forall i: nat, j: nat :: IsFirstCandidateAt(listed, payloadRef, i) && IsFirstCandidateAt(listed, payloadRef, j) ==> i == j;
        if pr.number != 0 then Some(pr.number) else None
  }

  /** Only an open pull request on the pushed branch can ever be chosen from the list. */
  lemma ChosenIsOpenOnBranch(payloadNumber: Option<nat>, listed: seq<PullRequest>, payloadRef: Option<string>)
    requires !TruthyNumber(payloadNumber) && ResolveNumber(payloadNumber, listed, payloadRef).Some?
    ensures exists pr :: (pr in listed && pr.number == ResolveNumber(payloadNumber, listed, payloadRef).value &&
                          payloadRef == Some("refs/heads/" + pr.headRef) && pr.state == "open")
  {
    var i: nat :| IsFirstCandidateAt(listed, payloadRef, i) && listed[i].number == ResolveNumber(payloadNumber, listed, payloadRef).value;
    assert listed[i] in listed;
  }

  /** The failure message of index.js:40. */
  function NotFoundMessage(eventName: string, sha: string): (m: string)
    ensures |m| == |NotFoundPrefix| + |eventName| + 2 + |sha|
    ensures m[..|NotFoundPrefix|] == NotFoundPrefix
    ensures m[|NotFoundPrefix|..|NotFoundPrefix| + |eventName|] == eventName
    ensures m[|NotFoundPrefix| + |eventName|..|m| - |sha|] == ", "
    ensures m[|m| - |sha|..] == sha
  {
    NotFoundPrefix + eventName + ", " + sha
  }
}
