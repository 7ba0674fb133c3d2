/**
 The action's `run` procedure (index.js:5-81) over the source-control host.

 The host is an object whose state is the pull requests associated with each
 commit and each pull request's body; every remote operation the action
 issues is appended to a ghost call log. `Plan` states, as a pure function of
 the inputs and the host's state, which calls `run` makes and how it ends;
 `Run` is the step-by-step procedure, proved to follow `Plan`, and the lemmas
 below state the ordering guarantees about `Plan`.
 */
module Action {
  import opened Wrappers
  import opened Text
  import opened Resolver
  import opened Transformer

  /** A remote operation, as recorded in the call log. */
  datatype Call =
    | ListPulls(sha: string)                  // repos.listPullRequestsAssociatedWithCommit
    | GetPull(number: nat)                    // pulls.get
    | UpdatePull(number: nat, body: string)   // pulls.update

  /** The event the action runs for (`github.context`). */
  datatype Context = Context(eventName: string, payloadNumber: Option<nat>, payloadRef: Option<string>, sha: string)

  /** The action's inputs, as `core.getInput` returns them. */
  datatype Inputs = Inputs(content: string, contentIsFilePath: string, regex: string, regexFlags: string,
                           appendContentOnMatchOnly: string)

  /** Why a run failed (`core.setFailed`). */
  datatype Failure =
    | NoOpenPullRequest(message: string)  // index.js:38-43
    | RemoteRejected(call: Call)          // a remote call rejected its promise
    | FileUnreadable(path: string)        // fs.readFileSync threw

  /** How a run ended. */
  datatype Outcome =
    | Failed(failure: Failure)
    | Skipped                                        // match-only mode, nothing written
    | Updated(number: nat, branch: Branch, body: string)

  /** The run reached the write and the host refused it. */
  predicate UpdateRejected(o: Outcome) {
    o.Failed? && o.failure.RemoteRejected? && o.failure.call.UpdatePull?
  }

  /** The calls a run issues and how it ends. */
  datatype Trace = Trace(calls: seq<Call>, outcome: Outcome)

  /** An in-memory source-control host. */
  class Remote {
    /** commit sha -> the pull requests associated with it, in the host's order; an
        unknown sha makes the lookup fail. */
    var associated: map<string, seq<PullRequest>>
    /** pull-request number -> its body (`null` is `None`); an unknown number makes
        the fetch fail. */
    var bodies: map<nat, Option<string>>
    /** pull-request numbers whose update the host refuses (a read-only token, a body
        over the host's size limit, ...). */
    var rejectsUpdate: set<nat>
    /** Every call made so far, oldest first. */
    ghost var log: seq<Call>

    constructor (associated: map<string, seq<PullRequest>>, bodies: map<nat, Option<string>>, rejectsUpdate: set<nat>)
      ensures this.associated == associated && this.bodies == bodies && this.rejectsUpdate == rejectsUpdate
      ensures log == []
    {
      this.associated := associated;
      this.bodies := bodies;
      this.rejectsUpdate := rejectsUpdate;
      log := [];
    }

    method ListPullRequestsAssociatedWithCommit(sha: string) returns (prs: Option<seq<PullRequest>>)
      modifies this`log
      ensures log == old(log) + [ListPulls(sha)]
      ensures prs == if sha in associated then Some(associated[sha]) else None
    {
      log := log + [ListPulls(sha)];
      prs := if sha in associated then Some(associated[sha]) else None;
    }

    method Get(number: nat) returns (body: Option<Option<string>>)
      modifies this`log
      ensures log == old(log) + [GetPull(number)]
      ensures body == if number in bodies then Some(bodies[number]) else None
    {
      log := log + [GetPull(number)];
      body := if number in bodies then Some(bodies[number]) else None;
    }

    method Update(number: nat, body: string) returns (ok: bool)
      modifies this`log, this`bodies
      ensures log == old(log) + [UpdatePull(number, body)]
      ensures ok <==> number !in rejectsUpdate
      ensures bodies == if ok then old(bodies)[number := Some(body)] else old(bodies)
    {
      log := log + [UpdatePull(number, body)];
      ok := number !in rejectsUpdate;
      if ok {
        bodies := bodies[number := Some(body)];
      }
    }
  }

  /** The calls `run` issues against a host in the given state and how it ends: the
      reference the procedure `Run` is proved to follow. */
  function Plan(ctx: Context, inputs: Inputs, files: map<string, string>,
                associated: map<string, seq<PullRequest>>, bodies: map<nat, Option<string>>,
                rejectsUpdate: set<nat>): (t: Trace)
    ensures 0 < |t.calls| <= 3
    ensures t.outcome.Updated? ==>
      t.outcome.number != 0 && t.outcome.number in bodies && t.outcome.number !in rejectsUpdate
  {
    var direct := TruthyNumber(ctx.payloadNumber);
    if !direct && ctx.sha !in associated then
      Trace([ListPulls(ctx.sha)], Failed(RemoteRejected(ListPulls(ctx.sha))))
    else
      var lookups := if direct then [] else [ListPulls(ctx.sha)];
      var listed := if direct then [] else associated[ctx.sha];
      match ResolveNumber(ctx.payloadNumber, listed, ctx.payloadRef)
      case None => Trace(lookups, Failed(NoOpenPullRequest(NotFoundMessage(ctx.eventName, ctx.sha))))
      case Some(n) =>
        var fetched := lookups + [GetPull(n)];
        if n !in bodies then Trace(fetched, Failed(RemoteRejected(GetPull(n))))
        else
          var edit := Edit(n, bodies[n], inputs, files, rejectsUpdate);
          Trace(fetched + edit.calls, edit.outcome)
  }

  /** What `run` does once it holds the body of pull request `n` (index.js:53-80): the
      calls it still issues and how it ends. */
  function Edit(n: nat, body: Option<string>, inputs: Inputs, files: map<string, string>,
                rejectsUpdate: set<nat>): (t: Trace)
    ensures |t.calls| <= 1
    ensures t.outcome.Updated? ==> t.outcome.number == n && n !in rejectsUpdate
    ensures t.outcome.Skipped? ==> inputs.appendContentOnMatchOnly == On
  {
    match ContentText(inputs.content, inputs.contentIsFilePath, files)
    case None => Trace([], Failed(FileUnreadable(inputs.content)))
    case Some(output) =>
      var pat := MakePattern(inputs.regex, inputs.regexFlags);
      match NewBody(body, output, pat, inputs.appendContentOnMatchOnly)
      case None => Trace([], Skipped)
      case Some(text) =>
        if n in rejectsUpdate then Trace([UpdatePull(n, text)], Failed(RemoteRejected(UpdatePull(n, text))))
        else Trace([UpdatePull(n, text)], Updated(n, SelectBranch(body, pat, inputs.appendContentOnMatchOnly), text))
  }

  /** `run`: resolve the pull request, fetch its body, compute the new body and write it. */
  method Run(remote: Remote, ctx: Context, inputs: Inputs, files: map<string, string>) returns (outcome: Outcome)
    modifies remote
    ensures var plan := Plan(ctx, inputs, files, old(remote.associated), old(remote.bodies), old(remote.rejectsUpdate));
      remote.log == old(remote.log) + plan.calls && outcome == plan.outcome
    ensures remote.associated == old(remote.associated) && remote.rejectsUpdate == old(remote.rejectsUpdate)
    ensures remote.bodies == if outcome.Updated? then old(remote.bodies)[outcome.number := Some(outcome.body)]
                             else old(remote.bodies)
  {
    var prNumber := ctx.payloadNumber;
    ghost var listed: seq<PullRequest> := [];
    if !TruthyNumber(prNumber) {
      var pullRequests := remote.ListPullRequestsAssociatedWithCommit(ctx.sha);
      if pullRequests.None? {
        return Failed(RemoteRejected(ListPulls(ctx.sha)));
      }
      listed := pullRequests.value;
      var first := FirstCandidate(pullRequests.value, ctx.payloadRef);
      prNumber := if first.Some? then Some(first.value.number) else None;
    }
    assert TruthyNumber(prNumber) ==> prNumber == ResolveNumber(ctx.payloadNumber, listed, ctx.payloadRef);
    assert !TruthyNumber(prNumber) ==> ResolveNumber(ctx.payloadNumber, listed, ctx.payloadRef).None?;

    if !TruthyNumber(prNumber) {
      return Failed(NoOpenPullRequest(NotFoundMessage(ctx.eventName, ctx.sha)));
    }
    var n := prNumber.value;

    var data := remote.Get(n);
    if data.None? {
      return Failed(RemoteRejected(GetPull(n)));
    }
    var body := data.value;

    outcome := WriteBack(remote, n, body, inputs, files);
  }

  /** The second half of `run` (index.js:53-80): compute the new body of pull request
      `n` from its current `body` and write it, unless the cascade skips. The pattern
      defaults of index.js:11-12 are applied here, where the pattern is first used. */
  method WriteBack(remote: Remote, n: nat, body: Option<string>, inputs: Inputs, files: map<string, string>)
    returns (outcome: Outcome)
    modifies remote
    ensures var edit := Edit(n, body, inputs, files, old(remote.rejectsUpdate));
      remote.log == old(remote.log) + edit.calls && outcome == edit.outcome
    ensures remote.associated == old(remote.associated) && remote.rejectsUpdate == old(remote.rejectsUpdate)
    ensures remote.bodies == if outcome.Updated? then old(remote.bodies)[n := Some(outcome.body)]
                             else old(remote.bodies)
  {
    var regex := OrDefault(inputs.regex, DefaultRegex);
    var regexFlags := OrDefault(inputs.regexFlags, DefaultRegexFlags);
    var output := inputs.content;
    if inputs.contentIsFilePath == On {
      if inputs.content !in files {
        return Failed(FileUnreadable(inputs.content));
      }
      output := files[inputs.content];
    }

    assert ContentText(inputs.content, inputs.contentIsFilePath, files) == Some(output);
    var re := Pattern(regex, 'g' in regexFlags);
    assert re == MakePattern(inputs.regex, inputs.regexFlags);
    var branch: Branch;
    var text: string;
    if Truthy(body) && Matches(body.value, re) {
      branch, text := Replace, ReplaceMatched(body.value, re, output);
    } else if Truthy(body) && inputs.appendContentOnMatchOnly != On {
      branch, text := Append, body.value + output;
    } else if inputs.appendContentOnMatchOnly != On {
      branch, text := Set, output;
    } else {
      return Skipped;
    }
    assert branch == SelectBranch(body, re, inputs.appendContentOnMatchOnly);
    assert NewBody(body, output, re, inputs.appendContentOnMatchOnly) == Some(text);

    var written := remote.Update(n, text);
    if !written {
      return Failed(RemoteRejected(UpdatePull(n, text)));
    }
    return Updated(n, branch, text);
  }

  /** Number of update calls in `calls`. */
  function Updates(calls: seq<Call>): nat {
    if calls == [] then 0 else (if calls[0].UpdatePull? then 1 else 0) + Updates(calls[1..])
  }

  /** Counting updates distributes over concatenation. */
  lemma {:induction false} UpdatesAppend(a: seq<Call>, b: seq<Call>)
    ensures Updates(a + b) == Updates(a) + Updates(b)
  {
    if a == [] {
      assert a + b == b;
    } else {
      UpdatesAppend(a[1..], b);
      assert (a + b)[0] == a[0] && (a + b)[1..] == a[1..] + b;
    }
  }

  /** A log with no update call counts no updates. */
  lemma {:induction false} NoUpdates(calls: seq<Call>)
    requires forall i :: 0 <= i < |calls| ==> !calls[i].UpdatePull?
    ensures Updates(calls) == 0
  {
    if calls != [] {
      NoUpdates(calls[1..]);
    }
  }

  /** A run issues at most one update, as its last call, and only after fetching that
      same pull request. */
  lemma UpdateOnceAfterGet(ctx: Context, inputs: Inputs, files: map<string, string>,
                           associated: map<string, seq<PullRequest>>, bodies: map<nat, Option<string>>,
                           rejectsUpdate: set<nat>)
    ensures var calls := Plan(ctx, inputs, files, associated, bodies, rejectsUpdate).calls;
      Updates(calls) <= 1 &&
      forall i :: 0 <= i < |calls| && calls[i].UpdatePull? ==>
        i == |calls| - 1 && i > 0 && calls[i - 1] == GetPull(calls[i].number)
  {
    var calls := Plan(ctx, inputs, files, associated, bodies, rejectsUpdate).calls;
    var direct := TruthyNumber(ctx.payloadNumber);
    var lookups := if direct then [] else [ListPulls(ctx.sha)];
    if !direct && ctx.sha !in associated {
      NoUpdates(calls);
    } else {
      var listed := if direct then [] else associated[ctx.sha];
      match ResolveNumber(ctx.payloadNumber, listed, ctx.payloadRef)
      case None =>
        NoUpdates(calls);
      case Some(n) =>
        var front := lookups + [GetPull(n)];
        NoUpdates(front);
        if n !in bodies {
          assert calls == front;
        } else {
          var edit := Edit(n, bodies[n], inputs, files, rejectsUpdate);
          assert calls == front + edit.calls;
          UpdatesAppend(front, edit.calls);
          if edit.calls != [] {
            assert edit.calls == [edit.calls[0]];
          }
        }
    }
  }

  /** An update is issued exactly when the run reaches the write: it then ends Updated,
      or Failed because the host refused that very update. The call writes the body
      the run reports. */
  lemma UpdateIffUpdated(ctx: Context, inputs: Inputs, files: map<string, string>,
                         associated: map<string, seq<PullRequest>>, bodies: map<nat, Option<string>>,
                         rejectsUpdate: set<nat>)
    ensures var plan := Plan(ctx, inputs, files, associated, bodies, rejectsUpdate);
      (exists i :: 0 <= i < |plan.calls| && plan.calls[i].UpdatePull?) <==>
        (plan.outcome.Updated? || UpdateRejected(plan.outcome))
    ensures var plan := Plan(ctx, inputs, files, associated, bodies, rejectsUpdate);
      plan.outcome.Updated? ==> plan.calls[|plan.calls| - 1] == UpdatePull(plan.outcome.number, plan.outcome.body)
    ensures var plan := Plan(ctx, inputs, files, associated, bodies, rejectsUpdate);
      UpdateRejected(plan.outcome) ==>
        plan.calls[|plan.calls| - 1] == plan.outcome.failure.call && plan.outcome.failure.call.number in rejectsUpdate
  {
    var plan := Plan(ctx, inputs, files, associated, bodies, rejectsUpdate);
    if plan.outcome.Updated? || UpdateRejected(plan.outcome) {
      assert plan.calls[|plan.calls| - 1].UpdatePull?;
    }
  }

  /** A payload carrying a pull-request number skips the commit lookup and fetches that
      pull request first. */
  lemma DirectNumberSkipsLookup(ctx: Context, inputs: Inputs, files: map<string, string>,
                                associated: map<string, seq<PullRequest>>, bodies: map<nat, Option<string>>,
                                rejectsUpdate: set<nat>)
    requires TruthyNumber(ctx.payloadNumber)
    ensures var calls := Plan(ctx, inputs, files, associated, bodies, rejectsUpdate).calls;
      |calls| > 0 && calls[0] == GetPull(ctx.payloadNumber.value) &&
      forall i :: 0 <= i < |calls| ==> !calls[i].ListPulls?
  {
  }

  /** Without a payload number the first call is the commit lookup, and the pull request
      fetched is the first open one on the pushed branch. */
  lemma LookupFetchesFirstCandidate(ctx: Context, inputs: Inputs, files: map<string, string>,
                                    associated: map<string, seq<PullRequest>>, bodies: map<nat, Option<string>>,
                                    rejectsUpdate: set<nat>)
    requires !TruthyNumber(ctx.payloadNumber)
    ensures var calls := Plan(ctx, inputs, files, associated, bodies, rejectsUpdate).calls;
      |calls| > 0 && calls[0] == ListPulls(ctx.sha) &&
      forall i :: 0 <= i < |calls| && calls[i].GetPull? ==>
        ctx.sha in associated &&
        exists k: nat :: IsFirstCandidateAt(associated[ctx.sha], ctx.payloadRef, k) &&
                         associated[ctx.sha][k].number == calls[i].number
  {
  }

  /** When no open pull request is found the run fails with the fixed message and makes
      no call after the lookup. */
  lemma NotFoundStopsRun(ctx: Context, inputs: Inputs, files: map<string, string>,
                         associated: map<string, seq<PullRequest>>, bodies: map<nat, Option<string>>,
                         rejectsUpdate: set<nat>)
    requires !TruthyNumber(ctx.payloadNumber) && ctx.sha in associated
    requires forall i :: 0 <= i < |associated[ctx.sha]| ==> !IsCandidate(associated[ctx.sha][i], ctx.payloadRef)
    ensures Plan(ctx, inputs, files, associated, bodies, rejectsUpdate) ==
      Trace([ListPulls(ctx.sha)], Failed(NoOpenPullRequest(NotFoundMessage(ctx.eventName, ctx.sha))))
  {
  }

  /** Any failure other than a refused write leaves no update in the log, and a failure
      to find the pull request leaves no fetch either. */
  lemma FailureWritesNothing(ctx: Context, inputs: Inputs, files: map<string, string>,
                             associated: map<string, seq<PullRequest>>, bodies: map<nat, Option<string>>,
                             rejectsUpdate: set<nat>)
    ensures var plan := Plan(ctx, inputs, files, associated, bodies, rejectsUpdate);
      plan.outcome.Failed? && !UpdateRejected(plan.outcome) ==>
        forall i :: 0 <= i < |plan.calls| ==> !plan.calls[i].UpdatePull?
    ensures var plan := Plan(ctx, inputs, files, associated, bodies, rejectsUpdate);
      plan.outcome.Failed? && plan.outcome.failure.NoOpenPullRequest? ==>
        forall i :: 0 <= i < |plan.calls| ==> plan.calls[i].ListPulls?
  {
  }

  /** A skipped run is not a failure: match-only mode is on, the body did not match, the
      body was fetched and nothing was written. */
  lemma SkipFetchesButWritesNothing(ctx: Context, inputs: Inputs, files: map<string, string>,
                                    associated: map<string, seq<PullRequest>>, bodies: map<nat, Option<string>>,
                                    rejectsUpdate: set<nat>)
    requires Plan(ctx, inputs, files, associated, bodies, rejectsUpdate).outcome == Skipped
    ensures inputs.appendContentOnMatchOnly == On
    ensures var calls := Plan(ctx, inputs, files, associated, bodies, rejectsUpdate).calls;
      |calls| > 0 && calls[|calls| - 1].GetPull? &&
      calls[|calls| - 1].number in bodies &&
      !(Truthy(bodies[calls[|calls| - 1].number]) &&
        Contains(bodies[calls[|calls| - 1].number].value, MakePattern(inputs.regex, inputs.regexFlags).literal)) &&
      forall i :: 0 <= i < |calls| ==> !calls[i].UpdatePull?
  {
  }
}
