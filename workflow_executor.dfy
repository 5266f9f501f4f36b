/** The workflow run supervisor of backend/src/workflowExecutor.js: the `workflows`
    array, the `runningWorkflows` map from workflow id to the stop token of its run,
    and the start, stop and settling of background runs. A run is started by
    ExecuteWorkflow and settles, later and separately, by FinishRun with the outcome
    of runPlaywrightWorkflow; any number of operations may come in between. */
module WorkflowExecutor {
  import opened Common
  import Playwright
  import ProfileManager

  datatype Workflow = Workflow(
    id: string,
    name: string,
    description: string,
    profileId: string,
    steps: seq<Playwright.Step>,
    status: WorkflowStatus,
    lastRun: Option<int>,
    createdAt: int,
    updatedAt: int)

  /** The `workflowData` of createWorkflow; a missing (or null) property is None. */
  datatype WorkflowInput = WorkflowInput(
    name: string,
    description: Option<string>,
    profileId: string,
    steps: Option<seq<Playwright.Step>>)

  /** The `workflowData` of updateWorkflow; a missing property is None. */
  datatype WorkflowPatch = WorkflowPatch(
    name: Option<string>,
    description: Option<string>,
    profileId: Option<string>,
    steps: Option<seq<Playwright.Step>>)

  const NotFound: string := "Workflow not found"
  const AlreadyRunning: string := "Workflow is already running"
  const ProfileNotFound: string := "Profile not found"
  const NotRunning: string := "Workflow is not running"
  const RunningUpdate: string := "Cannot update a running workflow"
  const RunningDelete: string := "Cannot delete a running workflow"

  /** The message updateWorkflowStatus wraps its errors in. */
  function StatusFailure(message: string): string { "Failed to update workflow status: " + message }

  /** The record createWorkflow stores for a fresh id at time `now`. */
  function NewWorkflow(id: string, input: WorkflowInput, now: int): (w: Workflow)
    ensures w.id == id && w.name == input.name && w.profileId == input.profileId
    ensures w.description == OrString(input.description, "")
    ensures w.steps == (if input.steps.Some? then input.steps.value else [])
    ensures w.status == Idle && w.lastRun.None? && w.createdAt == now && w.updatedAt == now
  {
    Workflow(id, input.name, OrString(input.description, ""), input.profileId,
             input.steps.GetOr([]), Idle, None, now, now)
  }

  /** The record updateWorkflow stores: `description` takes any value given
      (`!== undefined`), `name` and `profileId` only a non-empty one, `steps` any array
      given (an array is truthy, even an empty one). */
  function MergeWorkflow(w: Workflow, patch: WorkflowPatch, now: int): (q: Workflow)
    ensures q.id == w.id && q.status == w.status && q.lastRun == w.lastRun
    ensures q.createdAt == w.createdAt && q.updatedAt == now
    ensures q.name == (if patch.name.Some? && patch.name.value != "" then patch.name.value else w.name)
    ensures q.profileId == (if patch.profileId.Some? && patch.profileId.value != "" then patch.profileId.value else w.profileId)
    ensures q.description == (if patch.description.Some? then patch.description.value else w.description)
    ensures q.steps == (if patch.steps.Some? then patch.steps.value else w.steps)
  {
    w.(name := OrString(patch.name, w.name),
       description := patch.description.GetOr(w.description),
       profileId := OrString(patch.profileId, w.profileId),
       steps := patch.steps.GetOr(w.steps),
       updatedAt := now)
  }

  /** An empty patch only touches the time stamp; an empty name or profile id is ignored
      while an empty description clears the old one. */
  lemma MergeEmptyValues(w: Workflow, now: int)
    ensures MergeWorkflow(w, WorkflowPatch(None, None, None, None), now) == w.(updatedAt := now)
    ensures MergeWorkflow(w, WorkflowPatch(Some(""), Some(""), Some(""), None), now) == w.(description := "", updatedAt := now)
  {
  }

  /** `workflows.findIndex(workflow => workflow.id === id)`. */
  function IndexOfWorkflow(workflows: seq<Workflow>, id: string): (i: int)
    ensures -1 <= i < |workflows|
    ensures i >= 0 ==> workflows[i].id == id && forall j :: 0 <= j < i ==> workflows[j].id != id
    ensures i == -1 ==> forall j :: 0 <= j < |workflows| ==> workflows[j].id != id
  {
    FindIndex(workflows, (w: Workflow) => w.id == id)
  }

  predicate UniqueIds(workflows: seq<Workflow>) {
    forall i, j :: 0 <= i < j < |workflows| ==> workflows[i].id != workflows[j].id
  }

  function IdsOf(workflows: seq<Workflow>): set<string> {
    set i | 0 <= i < |workflows| :: workflows[i].id
  }

  lemma IdsOfMember(workflows: seq<Workflow>, id: string)
    ensures id in IdsOf(workflows) <==> IndexOfWorkflow(workflows, id) >= 0
  {
    if id in IdsOf(workflows) {
      var k :| 0 <= k < |workflows| && workflows[k].id == id;
    }
  }

  // ---------------------------------------------------------------------------
  // Settling a run

  /** Where a run's promise chain leaves things: the status writes it asks of
      updateWorkflowStatus, in order, the entries it logs and the error it rejects with. */
  datatype Tail = Tail(writes: seq<WorkflowStatus>, logs: seq<LogEntry>, rejection: Option<string>)

  /** The rest of executeWorkflowAsync once runPlaywrightWorkflow settled with `result`.
      `cancelled` is the run's token; `found` says whether the workflow is still stored,
      that is whether updateWorkflowStatus succeeds. */
  function RunBody(cancelled: bool, found: bool, result: Playwright.RunResult): (t: Tail)
    ensures cancelled ==> t.writes == [] && t.logs == []
    ensures cancelled ==> t.rejection == if result.Rethrew? then Some(result.message) else None
    ensures result.Rethrew? ==> t.rejection.Some?
    ensures !cancelled && found && result.Returned? ==> t == Tail([Completed], [LogEntry(Success, CompletedSuccessfully)], None)
    ensures !cancelled && found && result.Rethrew? ==>
              t == Tail([Status.Error], [LogEntry(LogLevel.Error, ExecutionErrorLog(result.message))], Some(result.message))
    ensures !found && !cancelled ==> t.logs == [] && t.rejection == Some(StatusFailure(NotFound))
  {
    match result
    case Returned =>
      if cancelled then Tail([], [], None)
      else if found then Tail([Completed], [LogEntry(Success, CompletedSuccessfully)], None)
      // the failed write of 'completed' lands in the catch, whose own write fails as well
      else Tail([Completed, Status.Error], [], Some(StatusFailure(NotFound)))
    case Rethrew(m) =>
      if cancelled then Tail([], [], Some(m))
      else if found then Tail([Status.Error], [LogEntry(LogLevel.Error, ExecutionErrorLog(m))], Some(m))
      else Tail([Status.Error], [], Some(StatusFailure(NotFound)))
  }

  /** The outer `.catch` as written: any rejection writes 'error' and logs "Execution failed". */
  function SettleAsWritten(cancelled: bool, found: bool, result: Playwright.RunResult): Tail {
    var b := RunBody(cancelled, found, result);
    match b.rejection
    case None => b
    case Some(e) => Tail(b.writes + [Status.Error], b.logs + [LogEntry(LogLevel.Error, ExecutionFailed(e))], Some(e))
  }

  /** The outer `.catch` guarded by the token, as the run body itself is: a cancelled run
      writes no status and logs nothing. */
  function Settle(cancelled: bool, found: bool, result: Playwright.RunResult): (t: Tail)
    ensures cancelled ==> t.writes == [] && t.logs == []
    ensures !cancelled ==> t == SettleAsWritten(cancelled, found, result)
  {
    var b := RunBody(cancelled, found, result);
    if cancelled then b
    else SettleAsWritten(cancelled, found, result)
  }

  /** As written, a stopped run whose last step failed still ends in 'error' with an
      "Execution failed" entry. */
  lemma StoppedFailureWritesErrorAsWritten(found: bool, m: string)
    ensures SettleAsWritten(true, found, Playwright.Rethrew(m)) ==
            Tail([Status.Error], [LogEntry(LogLevel.Error, ExecutionFailed(m))], Some(m))
  {
  }

  /** A run that was not stopped settles to 'completed' with the success entry, or to
      'error' with both error entries; only a failure is rethrown. */
  lemma LiveRunSettles(result: Playwright.RunResult)
    ensures var t := Settle(false, true, result);
            (result.Returned? ==> t == Tail([Completed], [LogEntry(Success, CompletedSuccessfully)], None)) &&
            (result.Rethrew? ==> t.writes == [Status.Error, Status.Error] && t.rejection == Some(result.message) &&
                                 t.logs == [LogEntry(LogLevel.Error, ExecutionErrorLog(result.message)),
                                            LogEntry(LogLevel.Error, ExecutionFailed(result.message))])
  {
  }

  /** The stored record after the writes of a settling run: the last write wins. */
  function AfterWrites(w: Workflow, writes: seq<WorkflowStatus>, now: int): (q: Workflow)
    ensures writes == [] ==> q == w
    ensures writes != [] ==> q.status == writes[|writes| - 1] && q.updatedAt == now
    ensures q.(status := w.status, updatedAt := w.updatedAt) == w
  {
    if writes == [] then w else w.(status := writes[|writes| - 1], updatedAt := now)
  }

  /** The lookup by id answers the same position in two arrays with the same ids. */
  lemma IndexOfSameIds(a: seq<Workflow>, b: seq<Workflow>, id: string)
    requires |a| == |b| && forall j :: 0 <= j < |a| ==> a[j].id == b[j].id
    ensures IndexOfWorkflow(a, id) == IndexOfWorkflow(b, id)
  {
    var i, k := IndexOfWorkflow(a, id), IndexOfWorkflow(b, id);
    if i >= 0 && k >= 0 {
      assert !(i < k) && !(k < i);
    }
  }

  /** The records while a settling run writes statuses one by one. */
  function Written(before: seq<Workflow>, id: string, writes: seq<WorkflowStatus>, now: int): seq<Workflow> {
    var i := IndexOfWorkflow(before, id);
    if i < 0 then before else before[i := AfterWrites(before[i], writes, now)]
  }

  /** One more status write, as updateWorkflowStatus does it, after earlier ones. */
  lemma WriteOnce(before: seq<Workflow>, id: string, writes: seq<WorkflowStatus>, s: WorkflowStatus, now: int)
    ensures var current := Written(before, id, writes, now);
            var j := IndexOfWorkflow(current, id);
            j == IndexOfWorkflow(before, id) &&
            (if j < 0 then current else current[j := current[j].(status := s, updatedAt := now)]) ==
              Written(before, id, writes + [s], now)
  {
    var current := Written(before, id, writes, now);
    IndexOfSameIds(current, before, id);
    var i := IndexOfWorkflow(before, id);
    if i >= 0 {
      assert before[i := AfterWrites(before[i], writes, now)][i := current[i].(status := s, updatedAt := now)] ==
             before[i := AfterWrites(before[i], writes + [s], now)];
    }
  }

  // ---------------------------------------------------------------------------
  // The supervisor

  /** The `{ cancelled }` object a run and stopWorkflow share. */
  class StopToken {
    var cancelled: bool

    constructor ()
      ensures !cancelled
    {
      cancelled := false;
    }
  }

  /** A background run: the workflow it runs and its token. */
  datatype Ticket = Ticket(id: string, token: StopToken)

  ghost function TokensOf(runs: set<Ticket>): set<StopToken> {
    set t | t in runs :: t.token
  }

  /** A run is registered while the map still holds its token. */
  predicate Registered(running: map<string, StopToken>, t: Ticket) {
    t.id in running && running[t.id] == t.token
  }

  /** A workflow is live when the map holds a token for it that was not cancelled. */
  predicate Live(running: map<string, StopToken>, id: string)
    reads running.Values
  {
    id in running && !running[id].cancelled
  }

  /** The supervisor invariant: a workflow's status is 'running' exactly when it is
      live, every registered token belongs to an unsettled run of that workflow, and
      every unsettled run that lost its registration was cancelled. */
  ghost predicate Coherent(workflows: seq<Workflow>, running: map<string, StopToken>, pending: set<Ticket>)
    reads running.Values, TokensOf(pending)
  {
    UniqueIds(workflows) &&
    (forall id :: id in running ==> Ticket(id, running[id]) in pending) &&
    (forall t :: t in pending && !Registered(running, t) ==> t.token.cancelled) &&
    (forall t1, t2 :: t1 in pending && t2 in pending && t1.token == t2.token ==> t1 == t2) &&
    (forall i :: 0 <= i < |workflows| ==> (workflows[i].status == Running <==> Live(running, workflows[i].id))) &&
    (forall id :: Live(running, id) ==> id in IdsOf(workflows))
  }

  /** Starting a run of a workflow that is not running, with a token no run holds. */
  lemma StartKeepsCoherent(workflows: seq<Workflow>, running: map<string, StopToken>, pending: set<Ticket>,
                           i: nat, now: int, token: StopToken)
    requires Coherent(workflows, running, pending)
    requires i < |workflows| && workflows[i].status != Running
    requires token !in TokensOf(pending) && !token.cancelled
    ensures var id := workflows[i].id;
            Coherent(workflows[i := workflows[i].(status := Running, lastRun := Some(now), updatedAt := now)],
                     running[id := token], pending + {Ticket(id, token)})
  {
    var id := workflows[i].id;
    var after := workflows[i := workflows[i].(status := Running, lastRun := Some(now), updatedAt := now)];
    var running' := running[id := token];
    var pending' := pending + {Ticket(id, token)};
    assert IdsOf(after) == IdsOf(workflows) by {
      forall k | k in IdsOf(workflows) ensures k in IdsOf(after) {
        var j :| 0 <= j < |workflows| && workflows[j].id == k;
        assert after[j].id == k;
      }
    }
    forall t | t in pending' && !Registered(running', t) ensures t.token.cancelled {
      if t != Ticket(id, token) && t.id == id && id in running && running[id] == t.token {
        assert !Live(running, id);
      }
    }
    forall t1, t2 | t1 in pending' && t2 in pending' && t1.token == t2.token ensures t1 == t2 {
      if t1 in pending { assert t1.token in TokensOf(pending); }
      if t2 in pending { assert t2.token in TokensOf(pending); }
    }
    forall j | 0 <= j < |after| ensures after[j].status == Running <==> Live(running', after[j].id) {
      if j != i {
        assert after[j].id != id;
      }
    }
  }

  /** The module state: `workflows` and `runningWorkflows`, with the runs not yet settled. */
  class Supervisor {
    var workflows: seq<Workflow>
    var runningWorkflows: map<string, StopToken>
    ghost var pending: set<Ticket>

    ghost predicate Valid()
      reads this, runningWorkflows.Values, TokensOf(pending)
    {
      Coherent(workflows, runningWorkflows, pending)
    }

    constructor ()
      ensures Valid() && workflows == [] && runningWorkflows == map[] && pending == {}
    {
      workflows := [];
      runningWorkflows := map[];
      pending := {};
    }

    /** getWorkflow */
    function GetWorkflow(id: string): (r: Option<Workflow>)
      reads this
      ensures r.Some? ==> r.value.id == id && r.value in workflows
      ensures r.None? ==> id !in IdsOf(workflows)
    {
      var i := IndexOfWorkflow(workflows, id);
      if i < 0 then None else Some(workflows[i])
    }

    /** createWorkflow, for an id no workflow has (uuidv4). */
    method CreateWorkflow(id: string, input: WorkflowInput, now: int) returns (w: Workflow)
      requires id !in IdsOf(workflows)
      modifies this
      ensures old(Valid()) ==> Valid()
      ensures w == NewWorkflow(id, input, now)
      ensures workflows == old(workflows) + [w]
      ensures runningWorkflows == old(runningWorkflows) && pending == old(pending)
    {
      w := NewWorkflow(id, input, now);
      ghost var before := workflows;
      workflows := workflows + [w];
      assert forall i :: 0 <= i < |before| ==> workflows[i] == before[i];
      assert IdsOf(before) <= IdsOf(workflows) by {
        forall k | k in IdsOf(before) ensures k in IdsOf(workflows) {
          var j :| 0 <= j < |before| && before[j].id == k;
          assert workflows[j].id == k;
        }
      }
      assert old(Valid()) ==> !Live(runningWorkflows, id);
    }

    /** updateWorkflow: refuses an unknown or a running workflow, else stores the merge. */
    method UpdateWorkflow(id: string, patch: WorkflowPatch, now: int) returns (r: Result<Workflow, string>)
      modifies this
      ensures old(Valid()) ==> Valid()
      ensures runningWorkflows == old(runningWorkflows) && pending == old(pending)
      ensures var i := IndexOfWorkflow(old(workflows), id);
              if i < 0 then r == Err("Failed to update workflow: " + NotFound) && workflows == old(workflows)
              else if old(workflows)[i].status == Running then
                r == Err("Failed to update workflow: " + RunningUpdate) && workflows == old(workflows)
              else r == Ok(MergeWorkflow(old(workflows)[i], patch, now)) && workflows == old(workflows)[i := r.value]
    {
      var i := IndexOfWorkflow(workflows, id);
      if i == -1 {
        return Err("Failed to update workflow: " + NotFound);
      }
      if workflows[i].status == Running {
        return Err("Failed to update workflow: " + RunningUpdate);
      }
      var q := MergeWorkflow(workflows[i], patch, now);
      ghost var before := workflows;
      workflows := workflows[i := q];
      assert IdsOf(workflows) == IdsOf(before) by {
        forall k | k in IdsOf(before) ensures k in IdsOf(workflows) {
          var j :| 0 <= j < |before| && before[j].id == k;
          assert workflows[j].id == k;
        }
      }
      r := Ok(q);
    }

    /** deleteWorkflow: refuses an unknown or a running workflow, else removes exactly that record. */
    method DeleteWorkflow(id: string) returns (r: Result<bool, string>)
      modifies this
      ensures old(Valid()) ==> Valid()
      ensures runningWorkflows == old(runningWorkflows) && pending == old(pending)
      ensures var i := IndexOfWorkflow(old(workflows), id);
              if i < 0 then r == Err("Failed to delete workflow: " + NotFound) && workflows == old(workflows)
              else if old(workflows)[i].status == Running then
                r == Err("Failed to delete workflow: " + RunningDelete) && workflows == old(workflows)
              else r == Ok(true) && workflows == Splice(old(workflows), i, 1, []) && |workflows| == |old(workflows)| - 1
    {
      var i := IndexOfWorkflow(workflows, id);
      if i == -1 {
        return Err("Failed to delete workflow: " + NotFound);
      }
      if workflows[i].status == Running {
        return Err("Failed to delete workflow: " + RunningDelete);
      }
      ghost var before := workflows;
      SpliceRemoveAt(workflows, i);
      workflows := Splice(workflows, i, 1, []);
      assert forall j :: 0 <= j < |workflows| ==> workflows[j] == before[if j < i then j else j + 1];
      if old(Valid()) {
        forall k | Live(runningWorkflows, k) ensures k in IdsOf(workflows) {
          var m :| 0 <= m < |before| && before[m].id == k;
          assert m != i;
          assert workflows[if m < i then m else m - 1].id == k;
        }
      }
      r := Ok(true);
    }

    /** updateWorkflowStatus: sets the status and the time stamp of the first record
        with that id. On its own it does not keep Valid(); its callers restore it. */
    method UpdateWorkflowStatus(id: string, status: WorkflowStatus, now: int) returns (r: Result<Workflow, string>)
      modifies this
      ensures runningWorkflows == old(runningWorkflows) && pending == old(pending)
      ensures var i := IndexOfWorkflow(old(workflows), id);
              if i < 0 then r == Err(StatusFailure(NotFound)) && workflows == old(workflows)
              else r == Ok(old(workflows)[i].(status := status, updatedAt := now)) && workflows == old(workflows)[i := r.value]
    {
      var i := IndexOfWorkflow(workflows, id);
      if i == -1 {
        return Err(StatusFailure(NotFound));
      }
      var q := workflows[i].(status := status, updatedAt := now);
      workflows := workflows[i := q];
      r := Ok(q);
    }

    /** executeWorkflow, up to the return of the running record: the guards, the status
        'running', a fresh token in the map, and the synchronous start of
        executeWorkflowAsync (its first log entry and `lastRun`). The started run is
        returned as `run`; it settles by FinishRun. */
    method ExecuteWorkflow(id: string, profiles: seq<ProfileManager.Profile>, now: int)
      returns (r: Result<Workflow, string>, run: Option<Ticket>, notices: seq<LogEntry>)
      modifies this
      ensures old(Valid()) ==> Valid()
      ensures var i := IndexOfWorkflow(old(workflows), id);
              if i < 0 || old(workflows)[i].status == Running ||
                 ProfileManager.FindProfile(profiles, old(workflows)[i].profileId).None? then
                r == Err("Failed to execute workflow: " +
                         (if i < 0 then NotFound else if old(workflows)[i].status == Running then AlreadyRunning else ProfileNotFound)) &&
                run.None? && notices == [] &&
                workflows == old(workflows) && runningWorkflows == old(runningWorkflows) && pending == old(pending)
              else
                var w := old(workflows)[i].(status := Running, lastRun := Some(now), updatedAt := now);
                r == Ok(w) && workflows == old(workflows)[i := w] &&
                run.Some? && run.value.id == id && fresh(run.value.token) && !run.value.token.cancelled &&
                runningWorkflows == old(runningWorkflows)[id := run.value.token] &&
                pending == old(pending) + {run.value} &&
                notices == [LogEntry(Info, StartingExecution(old(workflows)[i].name))]
    {
      var i := IndexOfWorkflow(workflows, id);
      if i == -1 {
        return Err("Failed to execute workflow: " + NotFound), None, [];
      }
      var workflow := workflows[i];
      if workflow.status == Running {
        return Err("Failed to execute workflow: " + AlreadyRunning), None, [];
      }
      if ProfileManager.FindProfile(profiles, workflow.profileId).None? {
        return Err("Failed to execute workflow: " + ProfileNotFound), None, [];
      }
      ghost var coherent := Valid();
      ghost var before, registered, runs := workflows, runningWorkflows, pending;
      var _ := UpdateWorkflowStatus(id, Running, now);
      var token := new StopToken();
      runningWorkflows := runningWorkflows[id := token];
      run := Some(Ticket(id, token));
      pending := pending + {run.value};
      // executeWorkflowAsync runs up to its first await
      notices := [LogEntry(Info, StartingExecution(workflow.name))];
      workflows := workflows[i := workflows[i].(lastRun := Some(now))];
      r := Ok(workflows[i]);
      assert workflows == before[i := before[i].(status := Running, lastRun := Some(now), updatedAt := now)];
      if coherent {
        assert Coherent(before, registered, runs);
        assert token !in TokensOf(runs);
        StartKeepsCoherent(before, registered, runs, i, now, token);
      }
    }

    /** stopWorkflow: cancels the registered token and sets the status 'idle'; the token
        stays in the map until its run settles. */
    method StopWorkflow(id: string, now: int) returns (r: Result<bool, string>)
      modifies this, runningWorkflows.Values
      ensures old(Valid()) ==> Valid()
      ensures runningWorkflows == old(runningWorkflows) && pending == old(pending)
      ensures id !in old(runningWorkflows) ==>
                r == Err("Failed to stop workflow: " + NotRunning) && workflows == old(workflows)
      ensures id in old(runningWorkflows) ==>
                old(runningWorkflows)[id].cancelled &&
                var i := IndexOfWorkflow(old(workflows), id);
                if i < 0 then r == Err("Failed to stop workflow: " + StatusFailure(NotFound)) && workflows == old(workflows)
                else r == Ok(true) && workflows == old(workflows)[i := old(workflows)[i].(status := Idle, updatedAt := now)]
    {
      if id !in runningWorkflows {
        return Err("Failed to stop workflow: " + NotRunning);
      }
      var token := runningWorkflows[id];
      ghost var before := workflows;
      ghost var coherent := Valid();
      token.cancelled := true;
      var s := UpdateWorkflowStatus(id, Idle, now);
      if coherent {
        // the tokens of distinct registered ids differ, so only `id` stopped being live
        forall k | k in runningWorkflows ensures runningWorkflows[k] in TokensOf(pending) {
          assert Ticket(k, runningWorkflows[k]) in pending;
        }
        forall k | k in runningWorkflows && k != id ensures runningWorkflows[k] != token {
          assert Ticket(k, runningWorkflows[k]) in pending && Ticket(id, token) in pending;
        }
        assert IdsOf(workflows) == IdsOf(before) by {
          forall k | k in IdsOf(before) ensures k in IdsOf(workflows) {
            var j :| 0 <= j < |before| && before[j].id == k;
            assert workflows[j].id == k;
          }
        }
        forall k | Live(runningWorkflows, k) ensures k in IdsOf(workflows) {
          assert old(Live(runningWorkflows, k));
        }
        forall t | t in pending && !Registered(runningWorkflows, t) ensures t.token.cancelled {
          assert t.token in TokensOf(pending);
        }
        forall j | 0 <= j < |workflows|
          ensures workflows[j].status == Running <==> Live(runningWorkflows, workflows[j].id)
        {
          if workflows[j].id != id {
            assert workflows[j] == before[j];
            assert old(workflows[j].status == Running <==> Live(runningWorkflows, workflows[j].id));
          }
        }
      }
      if s.Err? {
        return Err("Failed to stop workflow: " + s.error);
      }
      r := Ok(true);
    }

    /** executeWorkflowAsync after runPlaywrightWorkflow settled with `result`: the
        status write and the log entry on completion or on failure, each only for a run
        that was not cancelled, and the error the body rejects with. */
    method SettleBody(id: string, cancelled: bool, result: Playwright.RunResult, now: int)
      returns (notices: seq<LogEntry>, rejection: Option<string>)
      modifies this
      ensures var t := RunBody(cancelled, IndexOfWorkflow(old(workflows), id) >= 0, result);
              notices == t.logs && rejection == t.rejection && workflows == Written(old(workflows), id, t.writes, now)
      ensures runningWorkflows == old(runningWorkflows) && pending == old(pending)
    {
      ghost var before := workflows;
      ghost var writes: seq<WorkflowStatus> := [];
      assert Written(before, id, [], now) == before;
      notices := [];
      // the end of the try block
      var thrown: Option<string> := if result.Rethrew? then Some(result.message) else None;
      if result.Returned? && !cancelled {
        WriteOnce(before, id, writes, Completed, now);
        var s := UpdateWorkflowStatus(id, Completed, now);
        writes := writes + [Completed];
        if s.Err? {
          thrown := Some(s.error);
        } else {
          notices := notices + [LogEntry(Success, CompletedSuccessfully)];
        }
      }
      // the catch block, which rethrows
      rejection := thrown;
      if thrown.Some? && !cancelled {
        WriteOnce(before, id, writes, Status.Error, now);
        var s := UpdateWorkflowStatus(id, Status.Error, now);
        writes := writes + [Status.Error];
        if s.Err? {
          rejection := Some(s.error);
        } else {
          notices := notices + [LogEntry(LogLevel.Error, ExecutionErrorLog(thrown.value))];
        }
      }
    }

    /** The `.catch`/`.finally` chain of a run once runPlaywrightWorkflow settled with
        `result`, with the outer catch guarded by the token like the run body, and the
        `finally` removing only its own token. `notices` are the entries passed to the
        log callback. */
    method FinishRun(run: Ticket, result: Playwright.RunResult, now: int) returns (notices: seq<LogEntry>)
      requires run in pending
      modifies this
      ensures old(Valid()) ==> Valid()
      ensures var i := IndexOfWorkflow(old(workflows), run.id);
              var t := Settle(run.token.cancelled, i >= 0, result);
              notices == t.logs && workflows == Written(old(workflows), run.id, t.writes, now)
      ensures runningWorkflows == (if Registered(old(runningWorkflows), run) then old(runningWorkflows) - {run.id} else old(runningWorkflows))
      ensures pending == old(pending) - {run}
    {
      ghost var coherent := Valid();
      ghost var before, registered, runs := workflows, runningWorkflows, pending;
      ghost var body := RunBody(run.token.cancelled, IndexOfWorkflow(before, run.id) >= 0, result);
      var cancelled := run.token.cancelled;
      var rejection;
      ghost var t := Settle(cancelled, IndexOfWorkflow(before, run.id) >= 0, result);
      notices, rejection := SettleBody(run.id, cancelled, result, now);
      // the outer catch
      if rejection.Some? && !cancelled {
        WriteOnce(before, run.id, body.writes, Status.Error, now);
        var _ := UpdateWorkflowStatus(run.id, Status.Error, now);
        notices := notices + [LogEntry(LogLevel.Error, ExecutionFailed(rejection.value))];
        assert t.writes == body.writes + [Status.Error] && t.logs == notices;
      } else {
        assert t.writes == body.writes && t.logs == notices;
      }
      assert workflows == Written(before, run.id, t.writes, now);
      Release(run);
      if coherent {
        assert Coherent(before, registered, runs);
        FinishKeepsCoherent(before, registered, runs, run, result, now);
      }
    }

    /** The `finally` of a run: it removes the run's own token, and only that. */
    method Release(run: Ticket)
      modifies this
      ensures runningWorkflows == (if Registered(old(runningWorkflows), run) then old(runningWorkflows) - {run.id} else old(runningWorkflows))
      ensures pending == old(pending) - {run} && workflows == old(workflows)
    {
      if run.id in runningWorkflows && runningWorkflows[run.id] == run.token {
        runningWorkflows := runningWorkflows - {run.id};
      }
      pending := pending - {run};
    }

    /** The same chain as written: the outer catch writes 'error' and logs "Execution
        failed" whether or not the run was stopped, and the `finally` removes whatever
        token is registered under the workflow's id. */
    method FinishRunAsWritten(run: Ticket, result: Playwright.RunResult, now: int) returns (notices: seq<LogEntry>)
      requires run in pending
      modifies this
      ensures var i := IndexOfWorkflow(old(workflows), run.id);
              var t := SettleAsWritten(run.token.cancelled, i >= 0, result);
              notices == t.logs && workflows == Written(old(workflows), run.id, t.writes, now)
      ensures runningWorkflows == old(runningWorkflows) - {run.id}
      ensures pending == old(pending) - {run}
    {
      ghost var before := workflows;
      ghost var body := RunBody(run.token.cancelled, IndexOfWorkflow(before, run.id) >= 0, result);
      var cancelled := run.token.cancelled;
      var rejection;
      notices, rejection := SettleBody(run.id, cancelled, result, now);
      if rejection.Some? {
        WriteOnce(before, run.id, body.writes, Status.Error, now);
        var _ := UpdateWorkflowStatus(run.id, Status.Error, now);
        notices := notices + [LogEntry(LogLevel.Error, ExecutionFailed(rejection.value))];
      }
      runningWorkflows := runningWorkflows - {run.id};
      pending := pending - {run};
    }
  }

  /** Settling a run by FinishRun keeps the supervisor invariant. */
  lemma FinishKeepsCoherent(workflows: seq<Workflow>, running: map<string, StopToken>, pending: set<Ticket>,
                            run: Ticket, result: Playwright.RunResult, now: int)
    requires Coherent(workflows, running, pending) && run in pending
    ensures var i := IndexOfWorkflow(workflows, run.id);
            var t := Settle(run.token.cancelled, i >= 0, result);
            Coherent(Written(workflows, run.id, t.writes, now),
                     if Registered(running, run) then running - {run.id} else running,
                     pending - {run})
  {
    var i := IndexOfWorkflow(workflows, run.id);
    var t := Settle(run.token.cancelled, i >= 0, result);
    var after := Written(workflows, run.id, t.writes, now);
    var running' := if Registered(running, run) then running - {run.id} else running;
    var pending' := pending - {run};
    if !run.token.cancelled {
      assert Live(running, run.id);
      IdsOfMember(workflows, run.id);
      assert t.writes != [] && t.writes[|t.writes| - 1] != Running;
    }
    assert IdsOf(after) == IdsOf(workflows) by {
      forall k | k in IdsOf(workflows) ensures k in IdsOf(after) {
        var j :| 0 <= j < |workflows| && workflows[j].id == k;
        assert after[j].id == k;
      }
    }
    forall id | id in running' ensures Ticket(id, running'[id]) in pending' {
      assert Ticket(id, running[id]) in pending;
    }
    forall t2 | t2 in pending' && !Registered(running', t2) ensures t2.token.cancelled {
    }
    forall j | 0 <= j < |after| ensures after[j].status == Running <==> Live(running', after[j].id) {
      if after[j].id != run.id {
        assert after[j] == workflows[j];
      }
    }
  }

  // ---------------------------------------------------------------------------
  // A stale settle

  /** The profile and the workflow the two runs below use. */
  function ScenarioProfile(): ProfileManager.Profile {
    ProfileManager.NewProfile("p", ProfileManager.ProfileInput("p", None, None, None, None, None, None, None, None, None, None), 0)
  }

  /** As written: start a run, stop it, start a second run, and let the first run settle.
      Its `finally` removes the second run's token, so the workflow stays 'running' and
      cannot be stopped. */
  method StaleFinishAsWritten() returns (status: WorkflowStatus, stopped: Result<bool, string>)
    ensures status == Running && stopped == Err("Failed to stop workflow: " + NotRunning)
  {
    var sup := new Supervisor();
    var profiles := [ScenarioProfile()];
    var _ := sup.CreateWorkflow("w", WorkflowInput("w", None, "p", None), 0);
    var _, first, _ := sup.ExecuteWorkflow("w", profiles, 1);
    var _ := sup.StopWorkflow("w", 2);
    var _, second, _ := sup.ExecuteWorkflow("w", profiles, 3);
    var _ := sup.FinishRunAsWritten(first.value, Playwright.Returned, 4);
    status := sup.workflows[0].status;
    stopped := sup.StopWorkflow("w", 5);
  }

  /** The same sequence with FinishRun: the first run leaves the second run's token in
      place, and the second run can be stopped. */
  method StaleFinishCorrected() returns (status: WorkflowStatus, stopped: Result<bool, string>)
    ensures status == Running && stopped == Ok(true)
  {
    var sup := new Supervisor();
    var profiles := [ScenarioProfile()];
    var _ := sup.CreateWorkflow("w", WorkflowInput("w", None, "p", None), 0);
    var _, first, _ := sup.ExecuteWorkflow("w", profiles, 1);
    var _ := sup.StopWorkflow("w", 2);
    var _, second, _ := sup.ExecuteWorkflow("w", profiles, 3);
    var _ := sup.FinishRun(first.value, Playwright.Returned, 4);
    status := sup.workflows[0].status;
    stopped := sup.StopWorkflow("w", 5);
  }
}
