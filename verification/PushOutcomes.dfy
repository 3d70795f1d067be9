/**
 Which attempts stay deploying, told from the claims: from what was found and which calls
 went through when each attempt was claimed, whatever else ran in between.
*/
module PushOutcomes {
  import opened Ordering
  import opened Tables
  import opened Executor
  import opened Outcome
  import opened PushProtocol
  import opened PushInvariant
  import opened PushSteps
  import opened PushSafety
  import opened PushTheorems

  // ---------- apps are never missing ----------

  /** Every attempt has its app. */
  ghost predicate AppsThere(t: Tables) {
    forall id | id in t.deployments :: t.deployments[id].appId in t.apps
  }

  ghost predicate AppsKept(t: Tables, t': Tables) {
    && t.apps.Keys <= t'.apps.Keys
    && forall id | id in t'.deployments ::
         || t'.deployments[id].appId in t'.apps
         || (id in t.deployments && t.deployments[id].appId == t'.deployments[id].appId)
  }

  lemma ReserveKeepsApps(t: Tables, m: Deployment, expected: string)
    ensures var r := Reserve(t, m, expected); r.Ok? ==> AppsKept(t, r.value)
  {
  }

  lemma PerformKeepsApps(c: Core, x: Exec)
    requires ExecOk(c, x)
    ensures AppsKept(c.t, Perform(c, x).t)
  {
    PerformRows(c, x);
    StepWrites(c, x);
  }

  lemma ReceiveKeepsApps(w: World, call: Call)
    requires Enabled(w, call) && IsReceiveCall(call)
    ensures AppsKept(w.c.t, Do(w, call).c.t)
  {
    if call.PreReceive? {
      ReserveKeepsApps(w.c.t, call.m, call.expected);
      assert Do(w, call) == DoPreReceive(w, call.appId, call.m, call.expected);
    } else if call.RefUpdate? {
      assert Do(w, call) == DoRefUpdate(w, call.appId);
    }
  }

  lemma DaemonKeepsApps(w: World, call: Call)
    requires Inv(w) && Enabled(w, call) && IsDaemonCall(call)
    ensures AppsKept(w.c.t, Do(w, call).c.t)
  {
    if call.ExecuteStep? || call.FinalizeStep? {
      PerformKeepsApps(w.c, w.daemon.x);
      assert Do(w, call).c == Perform(w.c, w.daemon.x);
    } else if call.Claim? {
      assert Do(w, call) == DoClaim(w, call.o);
    }
  }

  lemma OtherKeepsApps(w: World, call: Call)
    requires Enabled(w, call) && !IsReceiveCall(call) && !IsDaemonCall(call)
    ensures AppsKept(w.c.t, Do(w, call).c.t)
  {
    if call.ReserveRedeploy? {
      ReserveKeepsApps(w.c.t, call.m, "");
    } else if call.RecoverStep? {
      var c' := Recover(w.c, call.appId, RecoveryAt(w, call.appId), call.listing, call.up).0;
      assert c'.t.apps == w.c.t.apps && c'.t.deployments == w.c.t.deployments;
    }
  }

  lemma StepKeepsApps(w: World, call: Call)
    requires Inv(w) && Enabled(w, call)
    ensures AppsKept(w.c.t, Do(w, call).c.t)
  {
    if IsReceiveCall(call) {
      ReceiveKeepsApps(w, call);
    } else if IsDaemonCall(call) {
      DaemonKeepsApps(w, call);
    } else {
      OtherKeepsApps(w, call);
    }
  }

  // ---------- what other steps leave alone ----------

  /** Releases and started events come from executions only. */
  ghost predicate KeepsRecords(t: Tables, t': Tables) {
    t'.releases == t.releases && forall id :: Event(id, Started) in t'.events <==> Event(id, Started) in t.events
  }

  lemma ReserveKeepsRecords(t: Tables, m: Deployment, expected: string)
    ensures var r := Reserve(t, m, expected); r.Ok? ==> KeepsRecords(t, r.value)
  {
  }

  lemma ReceiveKeepsRecords(w: World, call: Call)
    requires Enabled(w, call) && IsReceiveCall(call)
    ensures KeepsRecords(w.c.t, Do(w, call).c.t)
  {
    if call.PreReceive? {
      ReserveKeepsRecords(w.c.t, call.m, call.expected);
      assert Do(w, call) == DoPreReceive(w, call.appId, call.m, call.expected);
    } else if call.RefUpdate? {
      assert Do(w, call) == DoRefUpdate(w, call.appId);
    }
  }

  lemma OtherKeepsRecords(w: World, call: Call)
    requires Enabled(w, call) && !IsReceiveCall(call) && !IsExecuteCall(call)
    ensures KeepsRecords(w.c.t, Do(w, call).c.t)
  {
    if call.ReserveRedeploy? {
      ReserveKeepsRecords(w.c.t, call.m, "");
    } else if call.RecoverStep? {
      assert KeepsRecords(w.c.t, Recover(w.c, call.appId, RecoveryAt(w, call.appId), call.listing, call.up).0.t);
    } else if call.Claim? {
      assert Do(w, call) == DoClaim(w, call.o);
    }
  }

  // ---------- the status write ahead ----------

  /** The status write the execution will come to goes through. */
  ghost predicate WillLand(t: Tables, x: Exec) {
    if x.pc.Good? || (!x.pc.Bad? && WillDeploy(t, x)) then x.o.okStatus else x.o.failStatus
  }

  lemma ClaimWillLand(t: Tables, id: Id, o: Outcomes)
    requires id in t.deployments
    ensures var claimed := Claimed(t, id);
            WillLand(claimed, Start(claimed.deployments[id], o)) <==> StatusLands(t, t.deployments[id], o)
  {
    var claimed := Claimed(t, id);
    StartWillDeploy(claimed, claimed.deployments[id], o);
    assert Deploys(claimed, claimed.deployments[id], o) <==> Deploys(t, t.deployments[id], o);
  }

  /** Its own steps do not change that. */
  lemma StepKeepsLanding(t: Tables, x: Exec)
    requires x.pc != Done && x.pc != Bad(LoadInterrupted) && Marks(x)
    ensures var s := Decide(t, x);
            if s.next.pc == Done then WillLand(t, x) <==> !StatusFails(x)
            else WillLand(Apply(t, s.write), s.next) <==> WillLand(t, x)
  {
    StepProgresses(t, x);
    match x.pc
    case Begin(_) => BeginStepsAhead(t, x); EarlyStep(t, x);
    case Run(_) => RunStepsAhead(t, x);
    case Good(_) =>
    case Bad(_) => StepMovesBad(t, x);
  }

  /** The rows an execution still looks at are the same after the steps of others. */
  lemma OthersLookAlike(w: World, call: Call)
    requires Inv(w) && AppsThere(w.c.t) && Enabled(w, call) && !IsExecuteCall(call)
    requires w.daemon.Executing? && Do(w, call).daemon == w.daemon
    ensures LooksAlike(w.c.t, Do(w, call).c.t, w.daemon.x)
  {
    if IsReceiveCall(call) {
      ReceiveKeepsRecords(w, call);
    } else {
      OtherKeepsRecords(w, call);
    }
    StepKeepsApps(w, call);
    StepKeepsInv(w, call);
  }

  /** Nor do the steps of others. */
  lemma OthersKeepLanding(w: World, call: Call)
    requires Inv(w) && AppsThere(w.c.t) && Enabled(w, call) && !IsExecuteCall(call)
    requires w.daemon.Executing? && Do(w, call).daemon == w.daemon
    ensures WillLand(Do(w, call).c.t, w.daemon.x) <==> WillLand(w.c.t, w.daemon.x)
  {
    OthersLookAlike(w, call);
    AlikeWillDeploy(w.c.t, Do(w, call).c.t, w.daemon.x);
  }

  // ---------- claims that do not land ----------

  /** The claim of an attempt whose status write will fail, and a daemon that starts anew. */
  ghost function Miss(w: World, call: Call, missed: set<Id>): set<Id>
    requires Enabled(w, call)
  {
    match call
    case Boot(_) => {}
    case Claim(o) =>
      var id := Oldest(w.c.t, Claimable(w.c.t));
      if StatusLands(w.c.t, w.c.t.deployments[id], o) then missed else missed + {id}
    case _ => missed
  }

  /** The attempts claimed since the daemon last started whose status write fails, by their outcomes when claimed. */
  ghost function Missed(w: World, calls: seq<Call>, missed: set<Id>): set<Id>
    requires Runs(w, calls)
    decreases |calls|
  {
    if calls == [] then missed else Missed(Do(w, calls[0]), calls[1..], Miss(w, calls[0], missed))
  }

  /** The attempt in hand, if its status write will fail. */
  ghost function Doomed(w: World): set<Id> {
    if w.daemon.Executing? && !WillLand(w.c.t, w.daemon.x) then {w.daemon.x.d.id} else {}
  }

  ghost predicate Tallies(w: World, missed: set<Id>) {
    AppsThere(w.c.t) && (w.daemon != Down ==> missed == w.lost + Doomed(w))
  }

  lemma LastTallies(w: World, missed: set<Id>)
    requires Inv(w) && Enabled(w, ExecuteStep) && Tallies(w, missed) && Decide(w.c.t, w.daemon.x).next.pc == Done
    ensures missed == Do(w, ExecuteStep).lost && Do(w, ExecuteStep).daemon == Idle
  {
    ExecuteOnce(w);
    StepKeepsLanding(w.c.t, w.daemon.x);
  }

  lemma RunningTallies(w: World, missed: set<Id>)
    requires Inv(w) && Enabled(w, ExecuteStep) && Tallies(w, missed) && Decide(w.c.t, w.daemon.x).next.pc != Done
    ensures missed == Do(w, ExecuteStep).lost + Doomed(Do(w, ExecuteStep))
  {
    ExecuteOnce(w);
    StepKeepsLanding(w.c.t, w.daemon.x);
    StepWrites(w.c, w.daemon.x);
  }

  lemma ExecuteTallies(w: World, missed: set<Id>)
    requires Inv(w) && Enabled(w, ExecuteStep) && Tallies(w, missed)
    ensures Tallies(Do(w, ExecuteStep), missed)
  {
    StepKeepsApps(w, ExecuteStep);
    if Decide(w.c.t, w.daemon.x).next.pc == Done {
      LastTallies(w, missed);
    } else {
      RunningTallies(w, missed);
    }
  }

  lemma ClaimTallies(w: World, o: Outcomes, missed: set<Id>)
    requires Inv(w) && Enabled(w, Claim(o)) && Tallies(w, missed)
    ensures Tallies(Do(w, Claim(o)), Miss(w, Claim(o), missed))
  {
    var id := Oldest(w.c.t, Claimable(w.c.t));
    StepKeepsApps(w, Claim(o));
    ClaimWillLand(w.c.t, id, o);
    assert RowOk(w.c, id);
    assert Do(w, Claim(o)) == DoClaim(w, o);
  }

  /** Other steps leave the daemon as it is, stop it, or move it between states without an attempt to execute. */
  lemma OthersMoveDaemon(w: World, call: Call)
    requires Enabled(w, call) && !call.ExecuteStep? && !call.Claim? && !call.Boot?
    ensures var w' := Do(w, call);
            w'.lost == w.lost
            && (w'.daemon == Down || (w.daemon.Executing? && w'.daemon == w.daemon && !IsExecuteCall(call))
                || (w.daemon != Down && !w.daemon.Executing? && !w'.daemon.Executing?) || w'.daemon == w.daemon)
  {
    if IsReceiveCall(call) {
      ReceiveLeavesDaemon(w, call);
    } else if IsDaemonCall(call) {
      DaemonMoves(w, call);
    }
  }

  lemma ReceiveLeavesDaemon(w: World, call: Call)
    requires Enabled(w, call) && IsReceiveCall(call)
    ensures Do(w, call).daemon == w.daemon && Do(w, call).lost == w.lost
  {
    if call.PreReceive? {
      assert Do(w, call) == DoPreReceive(w, call.appId, call.m, call.expected);
    } else if call.RefUpdate? {
      assert Do(w, call) == DoRefUpdate(w, call.appId);
    }
  }

  lemma DaemonMoves(w: World, call: Call)
    requires Enabled(w, call) && IsDaemonCall(call) && !call.ExecuteStep? && !call.Claim? && !call.Boot?
    ensures var w' := Do(w, call);
            && w'.lost == w.lost
            && (w'.daemon == Down || (!w.daemon.Executing? && w.daemon != Down && !w'.daemon.Executing?))
  {
    if call.FinalizeStep? {
      assert Do(w, call) == DoFinalize(w);
    }
  }

  lemma OtherTallies(w: World, call: Call, missed: set<Id>)
    requires Inv(w) && Enabled(w, call) && !call.ExecuteStep? && !call.Claim? && !call.Boot? && Tallies(w, missed)
    ensures Tallies(Do(w, call), missed)
  {
    StepKeepsApps(w, call);
    OthersMoveDaemon(w, call);
    if w.daemon.Executing? && Do(w, call).daemon == w.daemon {
      OthersKeepLanding(w, call);
    }
  }

  lemma BootTallies(w: World, listing: seq<Deployment>, missed: set<Id>)
    requires Inv(w) && Enabled(w, Boot(listing)) && Tallies(w, missed)
    ensures Tallies(Do(w, Boot(listing)), {})
  {
  }

  lemma StepTallies(w: World, call: Call, missed: set<Id>)
    requires Inv(w) && Enabled(w, call) && Tallies(w, missed)
    ensures Tallies(Do(w, call), Miss(w, call, missed))
  {
    if call.ExecuteStep? {
      ExecuteTallies(w, missed);
    } else if call.Claim? {
      ClaimTallies(w, call.o, missed);
    } else if call.Boot? {
      BootTallies(w, call.listing, missed);
    } else {
      OtherTallies(w, call, missed);
    }
  }

  lemma {:induction false} RunTallies(w: World, calls: seq<Call>, missed: set<Id>)
    requires Inv(w) && Runs(w, calls) && Tallies(w, missed)
    ensures Tallies(After(w, calls), Missed(w, calls, missed))
    decreases |calls|
  {
    if calls != [] {
      StepTallies(w, calls[0], missed);
      StepKeepsInv(w, calls[0]);
      RunTallies(Do(w, calls[0]), calls[1..], Miss(w, calls[0], missed));
    }
  }

  /**
   While a daemon runs, the deploying attempts are those in its hand and those it claimed whose
   status write fails: a claim lands or not by the rows found and the calls that go through,
   whatever is interleaved with the execution.
  */
  lemma DeployingIsInHandOrMissed(calls: seq<Call>)
    requires Runs(INITIAL, calls) && After(INITIAL, calls).daemon != Down
    ensures var w := After(INITIAL, calls);
            WithStatus(w.c.t, Deploying) == InHand(w.daemon) + Missed(INITIAL, calls, {})
  {
    var w := Reached(calls);
    InitialInv();
    RunTallies(INITIAL, calls, {});
    DeployingIsInHandOrLost(calls);
  }

  /**
   An executing daemon has one deploying attempt exactly if no earlier claim since it started misses
   its status write.
  */
  lemma OneDeployingIffClaimsLand(calls: seq<Call>)
    requires Runs(INITIAL, calls) && After(INITIAL, calls).daemon.Executing?
    ensures var w := After(INITIAL, calls);
            |WithStatus(w.c.t, Deploying)| == 1 <==> Missed(INITIAL, calls, {}) <= {w.daemon.x.d.id}
  {
    var w := After(INITIAL, calls);
    var id, missed := w.daemon.x.d.id, Missed(INITIAL, calls, {});
    DeployingIsInHandOrMissed(calls);
    if missed <= {id} {
      assert WithStatus(w.c.t, Deploying) == {id};
    } else {
      var other :| other in missed && other != id;
      SubsetSize({id, other}, WithStatus(w.c.t, Deploying));
    }
  }

  /** Outcomes that let both status writes through are never missed. */
  lemma {:induction false} LandingClaimsAreNotMissed(w: World, calls: seq<Call>, missed: set<Id>)
    requires Runs(w, calls) && forall call | call in calls && call.Claim? :: call.o.okStatus && call.o.failStatus
    ensures Missed(w, calls, missed) <= missed
    decreases |calls|
  {
    if calls != [] {
      assert calls[0] in calls;
      LandingClaimsAreNotMissed(Do(w, calls[0]), calls[1..], Miss(w, calls[0], missed));
    }
  }
}
