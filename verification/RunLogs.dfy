/** What the log of an attempt holds after a run, told from the texts its executions had to write. */
module RunLogs {
  import opened Tables
  import opened Results
  import opened Executor
  import opened Outcome
  import opened ExecutionRecords
  import opened PushProtocol
  import opened PushInvariant
  import opened PushSteps
  import opened PushSafety
  import opened PushOutcomes
  import opened Texts
  import Logs = DeploymentLogs

  /** The line whose turn it is in the execution or the finalizing of the attempt. */
  ghost function LineOf(w: World, call: Call, id: Id): seq<string>
    requires Enabled(w, call)
  {
    if IsExecuteCall(call) && w.daemon.x.d.id == id then LineAt(w.daemon.x) else []
  }

  /** All lines appended to it so far. */
  ghost function Lines(w: World, calls: seq<Call>, id: Id, lines: seq<string>): seq<string>
    requires Runs(w, calls)
    decreases |calls|
  {
    if calls == [] then lines else Lines(Do(w, calls[0]), calls[1..], id, lines + LineOf(w, calls[0], id))
  }

  /** The log, while it is there, is made of these lines; an attempt that was not claimed has none. */
  ghost predicate LogIs(t: Tables, id: Id, lines: seq<string>) {
    && (id in t.logs ==> t.logs[id].log == Logs.AppendAll(Logs.EMPTY, lines))
    && (id !in t.deployments || t.deployments[id].status == Pending ==> lines == [])
  }

  lemma ReserveKeepsLogIs(c: Core, m: Deployment, expected: string, t': Tables, id: Id, lines: seq<string>)
    requires RowsOk(c) && LogsOk(c.t) && m.id !in c.t.deployments && ClockAhead(c.t, m) && LogIs(c.t, id, lines)
    requires Reserve(c.t, m, expected) == Ok(t')
    ensures LogIs(t', id, lines)
  {
    var gone := ReserveShape(c.t, m, expected, t');
    var cleared := ReserveClears(c.t, m, expected, gone, t');
    ReserveKeepsLogs(c.t, m, expected, gone, t');
    assert id in t'.logs ==> id == m.id || id in cleared.logs;
  }

  lemma HasItsLog(c: Core, x: Exec)
    requires LogsOk(c.t) && ExecOk(c, x)
    ensures HasLog(c.t, x.d) && Marks(x)
  {
  }

  lemma PerformAppends(c: Core, x: Exec, id: Id, lines: seq<string>)
    requires LogsOk(c.t) && ExecOk(c, x) && LogIs(c.t, id, lines)
    ensures LogIs(Perform(c, x).t, id, if x.d.id == id then lines + LineAt(x) else lines)
  {
    PerformRows(c, x);
    HasItsLog(c, x);
    WritesLine(c.t, x);
    if x.d.id == id {
      AppendsJoin(Logs.EMPTY, lines, LineAt(x));
    }
  }

  lemma ExecuteAppends(w: World, call: Call, id: Id, lines: seq<string>)
    requires Inv(w) && Enabled(w, call) && IsExecuteCall(call) && LogIs(w.c.t, id, lines)
    ensures LogIs(Do(w, call).c.t, id, lines + LineOf(w, call, id))
  {
    PerformAppends(w.c, w.daemon.x, id, lines);
    assert lines + [] == lines;
    assert Do(w, call).c == Perform(w.c, w.daemon.x);
  }

  lemma ReceiveAppendsNothing(w: World, call: Call, id: Id, lines: seq<string>)
    requires Inv(w) && Enabled(w, call) && IsReceiveCall(call) && LogIs(w.c.t, id, lines)
    ensures LogIs(Do(w, call).c.t, id, lines)
  {
    if call.PreReceive? {
      assert Do(w, call) == DoPreReceive(w, call.appId, call.m, call.expected);
      var r := Reserve(w.c.t, call.m, call.expected);
      if r.Ok? {
        ReserveKeepsLogIs(w.c, call.m, call.expected, r.value, id, lines);
      }
    } else if call.RefUpdate? {
      assert Do(w, call) == DoRefUpdate(w, call.appId);
    }
  }

  lemma OtherAppendsNothing(w: World, call: Call, id: Id, lines: seq<string>)
    requires Inv(w) && Enabled(w, call) && !IsReceiveCall(call) && !IsExecuteCall(call) && LogIs(w.c.t, id, lines)
    ensures LogIs(Do(w, call).c.t, id, lines)
  {
    if call.ReserveRedeploy? {
      var r := Reserve(w.c.t, call.m, "");
      if r.Ok? {
        ReserveKeepsLogIs(w.c, call.m, "", r.value, id, lines);
      }
    } else if call.RecoverStep? {
      assert LogIs(Recover(w.c, call.appId, RecoveryAt(w, call.appId), call.listing, call.up).0.t, id, lines);
    } else if call.Claim? {
      assert Do(w, call) == DoClaim(w, call.o);
    }
  }

  lemma StepKeepsLogIs(w: World, call: Call, id: Id, lines: seq<string>)
    requires Inv(w) && Enabled(w, call) && LogIs(w.c.t, id, lines)
    ensures LogIs(Do(w, call).c.t, id, lines + LineOf(w, call, id))
  {
    if IsExecuteCall(call) {
      ExecuteAppends(w, call, id, lines);
    } else {
      assert lines + [] == lines;
      if IsReceiveCall(call) {
        ReceiveAppendsNothing(w, call, id, lines);
      } else {
        OtherAppendsNothing(w, call, id, lines);
      }
    }
  }

  lemma {:induction false} RunKeepsLogIs(w: World, calls: seq<Call>, id: Id, lines: seq<string>)
    requires Inv(w) && Runs(w, calls) && LogIs(w.c.t, id, lines)
    ensures LogIs(After(w, calls).c.t, id, Lines(w, calls, id, lines))
    decreases |calls|
  {
    if calls != [] {
      StepKeepsLogIs(w, calls[0], id, lines);
      StepKeepsInv(w, calls[0]);
      RunKeepsLogIs(Do(w, calls[0]), calls[1..], id, lines + LineOf(w, calls[0], id));
    }
  }

  /**
   In every reachable state the log of an attempt, while it is kept, is the bounded form of the
   lines whose turn came in its execution and its finalizing, whatever ran between.
  */
  lemma KeptLogIsBounded(calls: seq<Call>, id: Id)
    requires Runs(INITIAL, calls) && id in After(INITIAL, calls).c.t.logs
    ensures After(INITIAL, calls).c.t.logs[id].log == Logs.Bounded(Concat(Lines(INITIAL, calls, id, [])))
  {
    InitialInv();
    RunKeepsLogIs(INITIAL, calls, id, []);
    Logs.AppendsAreBounded(Lines(INITIAL, calls, id, []));
  }

  // ---------- one claim and its log ----------

  /** What was written and what is still ahead make up all lines of the execution of `id`. */
  ghost predicate KeepsPromise(w: World, id: Id, lines: seq<string>, all: seq<string>) {
    && Inv(w) && AppsThere(w.c.t) && LogIs(w.c.t, id, lines) && lines <= all
    && !w.daemon.Restarting? && !w.daemon.Finalizing?
    && (w.daemon.Executing? ==> w.daemon.x.d.id == id && lines + LinesAhead(w.c.t, w.daemon.x) == all)
    && (w.daemon != Down && !w.daemon.Executing? ==> lines == all)
  }

  /** No other claim, and no new start of the daemon. */
  predicate SameExecution(call: Call) {
    !call.Claim? && !call.Boot?
  }

  lemma Moved(lines: seq<string>, line: seq<string>, ahead: seq<string>, all: seq<string>)
    requires lines + (line + ahead) == all
    ensures lines + line + ahead == all && lines + line <= all
  {
  }

  lemma NothingAhead(t: Tables, x: Exec)
    requires x.pc == Done
    ensures LinesAhead(t, x) == []
  {
  }

  lemma ExecutePromises(w: World, lines: seq<string>, all: seq<string>)
    requires Inv(w) && Enabled(w, ExecuteStep) && lines + LinesAhead(w.c.t, w.daemon.x) == all
    ensures var w', done := Do(w, ExecuteStep), lines + LineAt(w.daemon.x);
      && done <= all
      && (if w'.daemon.Executing?
          then w'.daemon.x.d.id == w.daemon.x.d.id && done + LinesAhead(w'.c.t, w'.daemon.x) == all
          else w'.daemon == Idle && done == all)
  {
    var x := w.daemon.x;
    HasItsLog(w.c, x);
    StepLines(w.c.t, x);
    ExecuteOnce(w);
    var next, t' := Decide(w.c.t, x).next, Do(w, ExecuteStep).c.t;
    Moved(lines, LineAt(x), LinesAhead(t', next), all);
    StepProgresses(w.c.t, x);
    if next.pc == Done {
      NothingAhead(t', next);
    }
  }

  lemma ExecuteKeepsPromise(w: World, id: Id, lines: seq<string>, all: seq<string>)
    requires KeepsPromise(w, id, lines, all) && Enabled(w, ExecuteStep)
    ensures KeepsPromise(Do(w, ExecuteStep), id, lines + LineAt(w.daemon.x), all)
  {
    StepKeepsInv(w, ExecuteStep);
    StepKeepsApps(w, ExecuteStep);
    StepKeepsLogIs(w, ExecuteStep, id, lines);
    ExecutePromises(w, lines, all);
  }

  lemma OthersKeepAhead(w: World, call: Call)
    requires Inv(w) && AppsThere(w.c.t) && Enabled(w, call) && !IsExecuteCall(call)
    requires w.daemon.Executing? && Do(w, call).daemon == w.daemon
    ensures LinesAhead(Do(w, call).c.t, w.daemon.x) == LinesAhead(w.c.t, w.daemon.x)
  {
    OthersLookAlike(w, call);
    AlikeAhead(w.c.t, Do(w, call).c.t, w.daemon.x);
  }

  lemma OthersAppendNothing(w: World, call: Call, id: Id, lines: seq<string>)
    requires Inv(w) && Enabled(w, call) && !IsExecuteCall(call) && LogIs(w.c.t, id, lines)
    ensures LogIs(Do(w, call).c.t, id, lines)
  {
    StepKeepsLogIs(w, call, id, lines);
    assert lines + [] == lines;
  }

  lemma OtherKeepsPromise(w: World, call: Call, id: Id, lines: seq<string>, all: seq<string>)
    requires KeepsPromise(w, id, lines, all) && Enabled(w, call) && SameExecution(call) && !call.ExecuteStep?
    ensures KeepsPromise(Do(w, call), id, lines, all)
  {
    StepKeepsInv(w, call);
    StepKeepsApps(w, call);
    OthersAppendNothing(w, call, id, lines);
    OthersMoveDaemon(w, call);
    if w.daemon.Executing? && Do(w, call).daemon == w.daemon {
      OthersKeepAhead(w, call);
    }
  }

  lemma {:induction false} RunKeepsPromise(w: World, calls: seq<Call>, id: Id, lines: seq<string>, all: seq<string>)
    requires KeepsPromise(w, id, lines, all) && Runs(w, calls) && forall call | call in calls :: SameExecution(call)
    ensures KeepsPromise(After(w, calls), id, Lines(w, calls, id, lines), all)
    decreases |calls|
  {
    if calls != [] {
      var call := calls[0];
      assert call in calls;
      if call.ExecuteStep? {
        ExecuteKeepsPromise(w, id, lines, all);
      } else {
        OtherKeepsPromise(w, call, id, lines, all);
        assert lines + [] == lines;
      }
      RunKeepsPromise(Do(w, call), calls[1..], id, lines + LineOf(w, call, id), all);
    }
  }

  lemma ClaimStartsPromise(t: Tables, d: Deployment, o: Outcomes)
    ensures [] + LinesAhead(t, Start(d, o)) == LogLines(t, d, o)
  {
    StartAhead(t, d, o);
  }

  lemma ClaimPromises(w: World, o: Outcomes)
    requires Inv(w) && AppsThere(w.c.t) && Enabled(w, Claim(o))
    requires LogIs(w.c.t, Oldest(w.c.t, Claimable(w.c.t)), [])
    ensures var w1 := Do(w, Claim(o));
      && w1.daemon == Executing(Start(w1.daemon.x.d, o)) && w1.daemon.x.d.id == Oldest(w.c.t, Claimable(w.c.t))
      && KeepsPromise(w1, w1.daemon.x.d.id, [], LogLines(w1.c.t, w1.daemon.x.d, o))
  {
    assert Do(w, Claim(o)) == DoClaim(w, o);
    var w1 := DoClaim(w, o);
    StepKeepsInv(w, Claim(o));
    StepKeepsApps(w, Claim(o));
    ClaimStartsPromise(w1.c.t, w1.daemon.x.d, o);
  }

  lemma NothingBeforeClaim(calls: seq<Call>, id: Id)
    requires Runs(INITIAL, calls)
    requires var t := After(INITIAL, calls).c.t; id in t.deployments && t.deployments[id].status == Pending
    ensures var w := After(INITIAL, calls); Inv(w) && AppsThere(w.c.t) && LogIs(w.c.t, id, [])
  {
    InitialInv();
    RunTallies(INITIAL, calls, {});
    RunsKeepInv(INITIAL, calls);
    RunKeepsLogIs(INITIAL, calls, id, []);
  }

  /**
   Over every run, with everything else interleaved: after the claim of an attempt its log, while
   it is kept, is the bounded form of a beginning of the lines its outcomes promise on the rows
   found at the claim, and of all of them once the execution is over without a crash.
  */
  lemma ClaimedLogHolds(calls: seq<Call>, o: Outcomes, during: seq<Call>) returns (lines: seq<string>)
    requires Runs(INITIAL, calls) && Enabled(After(INITIAL, calls), Claim(o))
    requires Runs(Do(After(INITIAL, calls), Claim(o)), during) && forall call | call in during :: SameExecution(call)
    ensures var w1 := Do(After(INITIAL, calls), Claim(o));
            var w2 := After(w1, during);
            var all := LogLines(w1.c.t, w1.daemon.x.d, o);
      && w1.daemon.Executing? && lines <= all
      && (w2.daemon != Down && !w2.daemon.Executing? ==> lines == all)
      && (w1.daemon.x.d.id in w2.c.t.logs ==> w2.c.t.logs[w1.daemon.x.d.id].log == Logs.Bounded(Concat(lines)))
  {
    var w := After(INITIAL, calls);
    var id := Oldest(w.c.t, Claimable(w.c.t));
    NothingBeforeClaim(calls, id);
    ClaimPromises(w, o);
    var w1 := Do(w, Claim(o));
    RunKeepsPromise(w1, during, id, [], LogLines(w1.c.t, w1.daemon.x.d, o));
    lines := Lines(w1, during, id, []);
    Logs.AppendsAreBounded(lines);
  }
}
