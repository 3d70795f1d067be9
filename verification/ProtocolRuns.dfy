/** What the loops do is a run of protocol steps, so what holds for all runs holds for them. */
module ProtocolRuns {
  import opened Tables
  import opened Results
  import opened Executor
  import opened PushProtocol
  import opened PushInvariant
  import opened PushSafety
  import opened DeploymentExecutors
  import opened DaemonRestart
  import opened PendingRecovery
  import opened QueuedWorker
  import Ordering

  // ---------- recovery ----------

  /** Only the last state of a pass counts. */
  lemma Overwrites(w: World, appId: string, c1: Core, r1: Recovery, c2: Core, r2: Recovery)
    requires RecoveryOf(w, appId)
    ensures var w1 := WithRecovery(w.(c := c1), appId, r1);
      && RecoveryOf(w1, appId) && RecoveryAt(w1, appId) == r1 && w1.c == c1
      && WithRecovery(w1.(c := c2), appId, r2) == WithRecovery(w.(c := c2), appId, r2)
  {
  }

  ghost predicate AtRow(w: World, appId: string, rows: seq<Deployment>, i: nat) {
    RecoveryOf(w, appId) && i <= |rows| && RecoveryAt(w, appId) == Scanning(rows[i..])
  }

  /** The pass from row `i` on, taken one protocol step at a time. */
  ghost predicate Passes(w: World, appId: string, rows: seq<Deployment>, o: PassOutcomes, i: nat, calls: seq<Call>)
    requires AtRow(w, appId, rows, i)
  {
    && Runs(w, calls)
    && var (t', ok) := RecoverRows(w.c.t, MainOf(w.c, appId), appId, rows, o, i);
       After(w, calls) == WithRecovery(w.(c := w.c.(t := t')), appId, Ended(ok))
  }

  /** A pass that the worker or a receive makes is a run of recovery steps of the protocol. */
  lemma {:induction false} PassIsARun(
    w: World, appId: string, rows: seq<Deployment>, o: PassOutcomes, i: nat
  ) returns (calls: seq<Call>)
    requires AtRow(w, appId, rows, i)
    ensures Passes(w, appId, rows, o, i, calls)
    decreases |rows| - i
  {
    if i < |rows| {
      assert rows[i..][0] == rows[i] && rows[i..][1..] == rows[i + 1..];
    }
    if i == |rows| || (rows[i].appId == appId && (rows[i].id in o.unresolved || appId !in w.c.main)) {
      var last := RecoverStep(appId, [], i == |rows| || rows[i].id !in o.unresolved);
      RunsOne(w, last);
      calls := [last];
    } else if rows[i].appId != appId || w.c.main[appId] != rows[i].commit {
      var skip := RecoverStep(appId, [], true);
      Overwrites(w, appId, w.c, Scanning(rows[i + 1..]), w.c, Listing);
      var rest := PassIsARun(Do(w, skip), appId, rows, o, i + 1);
      RunsFirst(w, skip, rest);
      var (t', ok) := RecoverRows(w.c.t, MainOf(w.c, appId), appId, rows, o, i);
      Overwrites(w, appId, w.c, Scanning(rows[i + 1..]), w.c.(t := t'), Ended(ok));
      calls := [skip] + rest;
    } else {
      calls := RecordIsARun(w, appId, rows, o, i);
    }
  }

  lemma RecordIsARun(w: World, appId: string, rows: seq<Deployment>, o: PassOutcomes, i: nat) returns (calls: seq<Call>)
    requires AtRow(w, appId, rows, i) && i < |rows| && rows[i].appId == appId && rows[i].id !in o.unresolved
    requires MainOf(w.c, appId) == Some(rows[i].commit)
    ensures Passes(w, appId, rows, o, i, calls)
    decreases |rows| - i, 0
  {
    assert rows[i..][0] == rows[i] && rows[i..][1..] == rows[i + 1..];
    var arm, record := RecoverStep(appId, [], true), RecoverStep(appId, [], rows[i].id !in o.unrecorded);
    var armed := Armed(rows[i], rows[i + 1..]);
    var c2 := if rows[i].id !in o.unrecorded then w.c.(t := RecordQueued(w.c.t, rows[i].id)) else w.c;
    var r2 := if rows[i].id !in o.unrecorded then Scanning(rows[i + 1..]) else Ended(false);
    var w1, w2 := WithRecovery(w, appId, armed), WithRecovery(w.(c := c2), appId, r2);
    Overwrites(w, appId, w.c, armed, c2, r2);
    assert Do(w, arm) == w1 && Do(w1, record) == w2;
    Overwrites(w, appId, c2, r2, c2, r2);
    var rest := [];
    if rows[i].id !in o.unrecorded {
      rest := PassIsARun(w2, appId, rows, o, i + 1);
      var (t', ok) := RecoverRows(w2.c.t, MainOf(w2.c, appId), appId, rows, o, i + 1);
      Overwrites(w, appId, c2, r2, w.c.(t := t'), Ended(ok));
    }
    RunsFirst(w1, record, rest);
    RunsFirst(w, arm, [record] + rest);
    calls := [arm] + ([record] + rest);
  }

  /** The same for a whole pass, listing included. */
  lemma WholePassIsARun(w: World, appId: string, rows: seq<Deployment>, o: PassOutcomes) returns (calls: seq<Call>)
    requires RecoveryOf(w, appId) && RecoveryAt(w, appId) == Listing && ListsRows(w.c.t, rows, UnqueuedPending(w.c.t))
    ensures Runs(w, calls)
    ensures var (t', ok) :=
              if o.list then RecoverRows(w.c.t, MainOf(w.c, appId), appId, rows, o, 0) else (w.c.t, false);
            After(w, calls) == WithRecovery(w.(c := w.c.(t := t')), appId, Ended(ok))
  {
    var list := RecoverStep(appId, rows, o.list);
    if o.list {
      Overwrites(w, appId, w.c, Scanning(rows), w.c, Listing);
      assert rows[0..] == rows;
      var rest := PassIsARun(Do(w, list), appId, rows, o, 0);
      RunsFirst(w, list, rest);
      var (t', ok) := RecoverRows(w.c.t, MainOf(w.c, appId), appId, rows, o, 0);
      Overwrites(w, appId, w.c, Scanning(rows), w.c.(t := t'), Ended(ok));
      calls := [list] + rest;
    } else {
      RunsOne(w, list);
      calls := [list];
    }
  }

  // ---------- executions ----------

  /** An execution that nothing comes between is a run of execution steps of the protocol. */
  lemma {:induction false} ExecutionIsARun(w: World) returns (calls: seq<Call>)
    requires w.daemon.Executing? && w.daemon.x.pc != Done
    ensures Runs(w, calls) && (forall call | call in calls :: call.ExecuteStep?)
    ensures After(w, calls).daemon == Idle && After(w, calls).c.t == RunOn(w.c.t, w.daemon.x).0
    decreases Rank(w.daemon.x.pc), Unwritten(w.daemon.x)
  {
    var x := w.daemon.x;
    StepProgresses(w.c.t, x);
    Steps(w.c.t, x);
    ExecuteOnce(w);
    var s, w1 := Decide(w.c.t, x), Do(w, ExecuteStep);
    if s.next.pc == Done {
      RunsOne(w, ExecuteStep);
      Stops(w1.c.t, s.next);
      calls := [ExecuteStep];
    } else {
      var rest := ExecutionIsARun(w1);
      RunsFirst(w, ExecuteStep, rest);
      calls := [ExecuteStep] + rest;
    }
  }

  lemma {:induction false} EventsStay(t: Tables, x: Exec)
    ensures t.events <= RunOn(t, x).0.events
    decreases Rank(x.pc), Unwritten(x)
  {
    if x.pc != Done {
      StepProgresses(t, x);
      Steps(t, x);
      EventsStay(Apply(t, Decide(t, x).write), Decide(t, x).next);
    }
  }

  /** The oldest queued attempt is over, and all others are as they were. */
  ghost predicate OldestIsOver(t: Tables, t': Tables)
    requires Claimable(t) != {}
  {
    var id := Oldest(t, Claimable(t));
    && id in t.deployments && t'.deployments.Keys == t.deployments.Keys && !IsActive(t'.deployments[id])
    && (forall other | other in t.deployments && other != id :: t'.deployments[other] == t.deployments[other])
    && t.events <= t'.events
  }

  /**
   No queued attempt is stuck: from every reachable state with an idle daemon a run leads to
   the end of the oldest queued attempt, whatever else fails in it.
  */
  lemma QueuedCanEnd(w: World, o: Outcomes) returns (calls: seq<Call>)
    requires Inv(w) && Enabled(w, Claim(o)) && o.okStatus && o.failStatus
    ensures Runs(w, calls) && After(w, calls).daemon == Idle && Inv(After(w, calls))
    ensures OldestIsOver(w.c.t, After(w, calls).c.t)
  {
    var w1 := DoClaim(w, o);
    var rest := ExecutionIsARun(w1);
    RunsFirst(w, Claim(o), rest);
    calls := [Claim(o)] + rest;
    RunsKeepInv(w, calls);
    ClaimEndsOldest(w, o);
  }

  lemma ClaimEndsOldest(w: World, o: Outcomes)
    requires Inv(w) && Enabled(w, Claim(o)) && o.okStatus && o.failStatus
    ensures var w1 := DoClaim(w, o); OldestIsOver(w.c.t, RunOn(w1.c.t, w1.daemon.x).0)
  {
    var w1 := DoClaim(w, o);
    ClaimedEnds(w.c.t, Oldest(w.c.t, Claimable(w.c.t)), o);
    EventsStay(w1.c.t, w1.daemon.x);
  }

  /** Nor is any other queued attempt: its turn comes. */
  lemma {:induction false} EveryQueuedCanEnd(w: World, o: Outcomes, id: Id) returns (calls: seq<Call>)
    requires Inv(w) && w.daemon == Idle && id in Claimable(w.c.t) && o.okStatus && o.failStatus
    ensures Runs(w, calls) && After(w, calls).daemon == Idle
    ensures id in After(w, calls).c.t.deployments && !IsActive(After(w, calls).c.t.deployments[id])
    decreases |WithStatus(w.c.t, Pending)|
  {
    calls := QueuedCanEnd(w, o);
    var w1 := After(w, calls);
    if id != Oldest(w.c.t, Claimable(w.c.t)) {
      OneLessPending(w.c.t, w1.c.t);
      var rest := EveryQueuedCanEnd(w1, o, id);
      RunsJoin(w, calls, rest);
      calls := calls + rest;
    }
  }

  lemma OneLessPending(t: Tables, t': Tables)
    requires Claimable(t) != {} && OldestIsOver(t, t')
    ensures |WithStatus(t', Pending)| < |WithStatus(t, Pending)|
    ensures forall id | id in Claimable(t) && id != Oldest(t, Claimable(t)) :: id in Claimable(t')
  {
    var oldest := Oldest(t, Claimable(t));
    assert oldest in WithStatus(t, Pending) && oldest !in WithStatus(t', Pending);
    assert WithStatus(t', Pending) <= WithStatus(t, Pending);
    Ordering.ProperSubsetSize(WithStatus(t', Pending), WithStatus(t, Pending));
  }

  // ---------- accepted pushes are not stranded ----------

  const FAULTLESS := PassOutcomes(true, {}, {})

  /** A recovery pass of the worker that goes through queues every push of the app that Git accepted. */
  lemma AcceptedCanBeQueued(w: World, appId: string) returns (calls: seq<Call>)
    requires Inv(w) && w.daemon == Idle && appId !in w.locks
    ensures Runs(w, calls) && Inv(After(w, calls)) && After(w, calls).daemon == Idle && After(w, calls).locks == w.locks
    ensures After(w, calls).c == w.c.(t := WithQueued(w.c.t, AcceptedUnqueued(w.c, appId)))
  {
    var w1 := Do(w, WorkerLock(appId));
    var rows := OldestFirst(w.c.t, UnqueuedPending(w.c.t));
    var pass := WholePassIsARun(w1, appId, rows, FAULTLESS);
    var ids := PassQueuesAccepted(w.c, appId, rows, FAULTLESS);
    FaultlessPassEnds(w.c.t, MainOf(w.c, appId), appId, rows, FAULTLESS, 0);
    var w2 := After(w1, pass);
    UnlocksAfterPass(w, appId, w.c.(t := WithQueued(w.c.t, ids)));
    RunsOne(w2, Unlock(appId));
    RunsJoin(w1, pass, [Unlock(appId)]);
    RunsFirst(w, WorkerLock(appId), pass + [Unlock(appId)]);
    calls := [WorkerLock(appId)] + (pass + [Unlock(appId)]);
    RunsKeepInv(w, calls);
  }

  lemma UnlocksAfterPass(w: World, appId: string, c: Core)
    requires w.daemon == Idle && appId !in w.locks
    ensures var w2 := WithRecovery(Do(w, WorkerLock(appId)).(c := c), appId, Ended(true));
            Enabled(w2, Unlock(appId)) && Do(w2, Unlock(appId)) == w.(c := c)
  {
    var w2 := WithRecovery(Do(w, WorkerLock(appId)).(c := c), appId, Ended(true));
    assert w2.locks - {appId} == w.locks;
  }

  /**
   An accepted push is never stranded: from every reachable state with an idle daemon and a
   free app lock, a run queues it and executes it to its end.
  */
  lemma AcceptedCanEnd(w: World, o: Outcomes, id: Id) returns (calls: seq<Call>)
    requires Inv(w) && w.daemon == Idle && o.okStatus && o.failStatus
    requires id in w.c.accepted && id in WithStatus(w.c.t, Pending) && w.c.t.deployments[id].appId !in w.locks
    ensures Runs(w, calls) && After(w, calls).daemon == Idle
    ensures id in After(w, calls).c.t.deployments && !IsActive(After(w, calls).c.t.deployments[id])
  {
    assert RowOk(w.c, id);
    var queued := AcceptedCanBeQueued(w, w.c.t.deployments[id].appId);
    var rest := EveryQueuedCanEnd(After(w, queued), o, id);
    RunsJoin(w, queued, rest);
    calls := queued + rest;
  }

  // ---------- restarting ----------

  lemma FinalizeOnce(w: World)
    requires w.daemon.Finalizing? && w.daemon.x.pc != Done
    ensures var s := Decide(w.c.t, w.daemon.x);
            var w' := Do(w, FinalizeStep);
      && w'.c.t == Apply(w.c.t, s.write)
      && w'.daemon == (if s.next.pc != Done then Finalizing(s.next, w.daemon.todo)
                       else if s.next.error then Down else Restarting(w.daemon.todo))
  {
    assert Do(w, FinalizeStep) == DoFinalize(w);
  }

  /** Finalizing one attempt, in protocol steps. */
  lemma {:induction false} FinalizingIsARun(w: World) returns (calls: seq<Call>)
    requires w.daemon.Finalizing? && w.daemon.x.pc != Done
    ensures Runs(w, calls)
    ensures var (t', x') := RunOn(w.c.t, w.daemon.x);
            After(w, calls).c.t == t' && After(w, calls).daemon == if x'.error then Down else Restarting(w.daemon.todo)
    decreases Rank(w.daemon.x.pc), Unwritten(w.daemon.x)
  {
    var x := w.daemon.x;
    StepProgresses(w.c.t, x);
    Steps(w.c.t, x);
    FinalizeOnce(w);
    var s, w1 := Decide(w.c.t, x), Do(w, FinalizeStep);
    if s.next.pc == Done {
      RunsOne(w, FinalizeStep);
      Stops(w1.c.t, s.next);
      calls := [FinalizeStep];
    } else {
      var rest := FinalizingIsARun(w1);
      RunsFirst(w, FinalizeStep, rest);
      calls := [FinalizeStep] + rest;
    }
  }

  /** A restart pass is a run of protocol steps; one that could not record everything leaves the daemon down. */
  lemma {:induction false} RestartIsARun(w: World, todo: seq<Deployment>, os: seq<Outcomes>) returns (calls: seq<Call>)
    requires w.daemon == Restarting(todo) && |os| == |todo|
    ensures Runs(w, calls)
    ensures var (t', ok) := FinalizeAll(w.c.t, todo, os);
            After(w, calls).c.t == t' && After(w, calls).daemon == if ok then Restarting([]) else Down
    decreases |todo|
  {
    if todo == [] {
      calls := [];
    } else {
      var next := FinalizeNext(os[0]);
      var w1 := Do(w, next);
      var first := FinalizingIsARun(w1);
      RunsFirst(w, next, first);
      calls := [next] + first;
      if !RunOn(w.c.t, StartInterrupted(todo[0], os[0])).1.error {
        var rest := RestartIsARun(After(w1, first), todo[1..], os[1..]);
        RunsJoin(w, calls, rest);
        calls := calls + rest;
      }
    }
  }
}
