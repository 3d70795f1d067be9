/** The executor as it runs: store calls in order, an attempt record updated along the way. */
module DeploymentExecutors {
  import opened Tables
  import opened Results
  import opened Executor
  import opened Outcome
  import opened ExecutionTables
  import opened SqliteStores

  /** The record kept while an attempt runs. */
  datatype Attempt = Attempt(d: Deployment, stored: Option<string>)

  /** One step of the specification. */
  lemma Steps(t: Tables, x: Exec)
    requires x.pc != Done
    ensures RunOn(t, x) == RunOn(Apply(t, Decide(t, x).write), Decide(t, x).next)
  {
  }

  lemma Stops(t: Tables, x: Exec)
    requires x.pc == Done
    ensures RunOn(t, x) == (t, x)
  {
  }

  function Failing(current: Attempt, o: Outcomes, f: BadPc, stage: Stage, clean: bool, cause: bool): Exec {
    Exec(current.d, o, Bad(f), current.stored, stage, clean, cause)
  }

  lemma FailAppStep(t: Tables, current: Attempt, o: Outcomes, stage: Stage, clean: bool, cause: bool)
    ensures var ok := o.failApp && current.d.appId in t.apps;
            RunOn(t, Failing(current, o, FailApp, stage, clean, cause)) ==
            RunOn(
              if ok then Apply(t, SetApp(current.d.appId, AppFailed)) else t,
              Failing(current, o, FailLog, stage, clean && ok, cause))
  {
    Steps(t, Failing(current, o, FailApp, stage, clean, cause));
  }

  lemma FailLogStep(t: Tables, current: Attempt, o: Outcomes, stage: Stage, clean: bool, cause: bool)
    ensures var ok := Appends(o.failLog, t, current.d, o.endLine);
            RunOn(t, Failing(current, o, FailLog, stage, clean, cause)) ==
            RunOn(
              if ok then Apply(t, AddLog(current.d.id, o.endLine)) else t,
              Failing(current, o, FailEvent, stage, clean && ok, cause))
  {
    Steps(t, Failing(current, o, FailLog, stage, clean, cause));
  }

  lemma FailEventStep(t: Tables, current: Attempt, o: Outcomes, stage: Stage, clean: bool, cause: bool)
    ensures var ok := o.failEvent && Event(current.d.id, DeployFailed) !in t.events;
            RunOn(t, Failing(current, o, FailEvent, stage, clean, cause)) ==
            RunOn(
              if ok then Apply(t, AddEvent(Event(current.d.id, DeployFailed))) else t,
              Failing(current, o, FailRelease, stage, clean && ok, cause))
  {
    Steps(t, Failing(current, o, FailEvent, stage, clean, cause));
  }

  lemma FailReleaseStep(t: Tables, current: Attempt, o: Outcomes, stage: Stage, clean: bool, cause: bool)
    ensures var ok := current.stored.None? || o.failRelease;
            RunOn(t, Failing(current, o, FailRelease, stage, clean, cause)) ==
            RunOn(if ok && current.stored.Some? then Apply(t, MarkRelease(current.stored.value, ReleaseFailed)) else t,
                  Failing(current, o, FailStatus, stage, clean && ok, cause))
  {
    Steps(t, Failing(current, o, FailRelease, stage, clean, cause));
  }

  lemma FailStatusStep(t: Tables, current: Attempt, o: Outcomes, stage: Stage, clean: bool, cause: bool)
    ensures var ok := o.failStatus && current.d.id in t.deployments;
            var (t', x') := RunOn(t, Failing(current, o, FailStatus, stage, clean, cause));
            t' == (if ok then Apply(t, EndAttempt(current.d.id, Failed, FailedAt(stage))) else t)
            && x'.error == (cause || !clean || !ok)
  {
    var x := Failing(current, o, FailStatus, stage, clean, cause);
    Steps(t, x);
    Stops(Apply(t, Decide(t, x).write), Decide(t, x).next);
  }

  /** Every record of a failure can be written. */
  predicate CanRecordFailure(t: Tables, current: Attempt, o: Outcomes) {
    && o.failApp && current.d.appId in t.apps
    && Appends(o.failLog, t, current.d, o.endLine)
    && o.failEvent && Event(current.d.id, DeployFailed) !in t.events
    && (current.stored.Some? ==> o.failRelease)
    && o.failStatus && current.d.id in t.deployments
  }

  /**
   What a failure that is recorded in full leaves: only the log of the attempt grows, and a
   succeeded release stays succeeded.
  */
  lemma FailureIsRecorded(t: Tables, current: Attempt, o: Outcomes, stage: Stage)
    requires CanRecordFailure(t, current, o)
    ensures var (t', x') := RunOn(t, Failing(current, o, FailApp, stage, true, false));
      && !x'.error
      && t'.apps == t.apps[current.d.appId := AppFailed]
      && t'.events == t.events + {Event(current.d.id, DeployFailed)}
      && t'.deployments == Ended(t, current.d.id, Failed, FailedAt(stage))
      && t'.releases == MarkedFailed(t.releases, current.stored)
      && t'.logs == Apply(t, AddLog(current.d.id, o.endLine)).logs
  {
    var d := current.d;
    FailAppStep(t, current, o, stage, true, false);
    var t1 := Apply(t, SetApp(d.appId, AppFailed));
    FailLogStep(t1, current, o, stage, true, false);
    var t2 := Apply(t1, AddLog(d.id, o.endLine));
    FailEventStep(t2, current, o, stage, true, false);
    var t3 := Apply(t2, AddEvent(Event(d.id, DeployFailed)));
    FailReleaseStep(t3, current, o, stage, true, false);
    var t4 := if current.stored.Some? then Apply(t3, MarkRelease(current.stored.value, ReleaseFailed)) else t3;
    FailStatusStep(t4, current, o, stage, true, false);
    FailureWrites(t, current, o.endLine, stage);
  }

  /** The records of a failure written one after the other. */
  lemma FailureWrites(t: Tables, current: Attempt, endLine: string, stage: Stage)
    requires current.d.appId in t.apps && current.d.id in t.deployments
    ensures var d := current.d;
            var noted := Apply(
              Apply(Apply(t, SetApp(d.appId, AppFailed)), AddLog(d.id, endLine)), AddEvent(Event(d.id, DeployFailed)));
            var marked :=
              if current.stored.Some? then Apply(noted, MarkRelease(current.stored.value, ReleaseFailed)) else noted;
            var t' := Apply(marked, EndAttempt(d.id, Failed, FailedAt(stage)));
      && d.id in marked.deployments && d.id in noted.deployments
      && t'.apps == t.apps[d.appId := AppFailed] && t'.events == t.events + {Event(d.id, DeployFailed)}
      && t'.deployments == Ended(t, d.id, Failed, FailedAt(stage))
      && t'.releases == MarkedFailed(t.releases, current.stored)
      && t'.logs == Apply(t, AddLog(d.id, endLine)).logs
  {
  }

  function MarkedFailed(releases: map<string, Release>, stored: Option<string>): map<string, Release> {
    if stored.None? || stored.value !in releases || releases[stored.value].status == ReleaseSucceeded then releases
    else releases[stored.value := releases[stored.value].(status := ReleaseFailed)]
  }

  class DeploymentExecutor {
    const store: SqliteStore

    constructor (store: SqliteStore)
      ensures this.store == store
    {
      this.store := store;
    }

    /** Run an admitted attempt until its outcome is recorded. */
    method Execute(d: Deployment, o: Outcomes) returns (failed: bool)
      requires store.Valid()
      modifies store
      ensures store.Valid()
      ensures d.status != Deploying || !HasNames(d) ==> failed && store.Rows() == old(store.Rows())
      ensures d.status == Deploying && HasNames(d) ==>
        var (t, x) := RunOn(old(store.Rows()), Start(d, o));
        store.Rows() == t && failed == x.error
      ensures d.status == Deploying && HasNames(d) && d.id in old(store.deployments) ==>
        && store.Rows() == Executed(old(store.Rows()), d, o)
        && (!failed <==> Deploys(old(store.Rows()), d, o) && Records(old(store.Rows()), d, o))
    {
      if d.id in store.deployments {
        ExecutionLeaves(store.Rows(), d, o);
        ExecutionEnds(store.Rows(), d, o);
      }
      if d.status != Deploying || d.appId == "" || d.releaseId == "" || d.commit == "" {
        return true;
      }
      var current, stage := LoadAttempt(d, o);
      if stage.Some? {
        failed := RecordFailedAttempt(current, stage.value, o, true);
        return;
      }
      current, stage := PrepareRelease(current, o);
      if stage.Some? {
        failed := RecordFailedAttempt(current, stage.value, o, true);
        return;
      }
      var ran := RunCompose(current, o);
      if !ran {
        failed := RecordFailedAttempt(current, StageCompose, o, true);
        return;
      }
      failed := RecordSuccess(current, o);
    }

    /** Load the app and its release, open the log and record the start. */
    method LoadAttempt(d: Deployment, o: Outcomes) returns (current: Attempt, stage: Option<Stage>)
      requires store.Valid()
      modifies store
      ensures store.Valid() && current.d == d
      ensures RunOn(old(store.Rows()), Start(d, o)) ==
        RunOn(store.Rows(), if stage.Some? then Exec(d, o, Bad(FailApp), current.stored, stage.value, true, true)
                            else Exec(d, o, Begin(Checkout), current.stored, StageLoad, true, false))
    {
      current := Attempt(d, None);
      ghost var x := Start(d, o);
      Steps(store.Rows(), x);
      if !o.loadApp || d.appId !in store.apps {
        return current, Some(StageLoad);
      }
      x := Decide(store.Rows(), x).next;
      Steps(store.Rows(), x);
      var release := store.GetReleaseByAppCommit(o.loadRelease, d.appId, d.commit);
      if release.Err? {
        return current, Some(StageRelease);
      }
      current := Attempt(d, release.value);
      if release.value.Some? {
        if release.value.value != d.releaseId {
          return current, Some(StageRelease);
        }
        x := Decide(store.Rows(), x).next;
        Steps(store.Rows(), x);
        var marked := store.MarkReleaseStatusUnlessSucceeded(o.markDeploying, d.releaseId, ReleaseDeploying);
        if !marked {
          return current, Some(StageRelease);
        }
      }
      x := Exec(d, o, Begin(LogStarted), current.stored, StageLoad, true, false);
      stage := OpenLog(current, o);
    }

    method OpenLog(current: Attempt, o: Outcomes) returns (stage: Option<Stage>)
      requires store.Valid()
      modifies store
      ensures store.Valid()
      ensures RunOn(old(store.Rows()), Exec(current.d, o, Begin(LogStarted), current.stored, StageLoad, true, false)) ==
        RunOn(
          store.Rows(),
          if stage.Some? then Exec(current.d, o, Bad(FailApp), current.stored, stage.value, true, true)
          else Exec(current.d, o, Begin(Checkout), current.stored, StageLoad, true, false))
    {
      var d := current.d;
      ghost var x := Exec(d, o, Begin(LogStarted), current.stored, StageLoad, true, false);
      Steps(store.Rows(), x);
      var logged := store.AppendDeploymentLog(o.logStarted, d.appId, d.id, o.startedLine);
      if !logged {
        return Some(StageLog);
      }
      x := Exec(d, o, Begin(EventStarted), current.stored, StageLoad, true, false);
      Steps(store.Rows(), x);
      var started := store.CreateEvent(o.eventStarted, Event(d.id, Started));
      stage := if started then None else Some(StageStart);
    }

    /** Check out the commit, make sure its release row exists, and check config and Compose file. */
    method PrepareRelease(attempt: Attempt, o: Outcomes) returns (current: Attempt, stage: Option<Stage>)
      requires store.Valid()
      modifies store
      ensures store.Valid() && current.d == attempt.d
      ensures RunOn(old(store.Rows()), Exec(attempt.d, o, Begin(Checkout), attempt.stored, StageLoad, true, false)) ==
        RunOn(
          store.Rows(),
          if stage.Some? then Exec(attempt.d, o, Bad(FailApp), current.stored, stage.value, true, true)
          else Exec(attempt.d, o, Run(0), current.stored, StageLoad, true, false))
    {
      current := attempt;
      var d := current.d;
      ghost var x := Exec(d, o, Begin(Checkout), current.stored, StageLoad, true, false);
      Steps(store.Rows(), x);
      if !o.checkout {
        return current, Some(StageCheckout);
      }
      x := Exec(d, o, Begin(CreateRelease), current.stored, StageLoad, true, false);
      Steps(store.Rows(), x);
      if current.stored.None? {
        var created := store.CreateRelease(o.createRelease, d.releaseId, d.appId, d.commit);
        if !created {
          x := Exec(d, o, Begin(ReloadRelease), None, StageLoad, true, false);
          Steps(store.Rows(), x);
          var existing := store.GetReleaseByAppCommit(o.reloadRelease, d.appId, d.commit);
          if existing != Ok(Some(d.releaseId)) {
            return current, Some(StageRelease);
          }
        }
        current := Attempt(d, Some(d.releaseId));
      }
      x := Exec(d, o, Begin(Prepare), current.stored, StageLoad, true, false);
      Steps(store.Rows(), x);
      stage := if o.prepare then None else Some(StageConfig);
    }

    /** The Compose run: output goes to the log as it comes. */
    method RunCompose(current: Attempt, o: Outcomes) returns (ran: bool)
      requires store.Valid()
      modifies store
      ensures store.Valid()
      ensures RunOn(old(store.Rows()), Exec(current.d, o, Run(0), current.stored, StageLoad, true, false)) ==
        RunOn(store.Rows(), if ran then Exec(current.d, o, Good(Route), current.stored, StageLoad, true, false)
                            else Exec(current.d, o, Bad(FailApp), current.stored, StageCompose, true, true))
    {
      var d, written := current.d, 0;
      ghost var start := store.Rows();
      while written < |o.output|
        invariant written <= |o.output| && store.Valid()
        invariant RunOn(start, Exec(d, o, Run(0), current.stored, StageLoad, true, false)) ==
          RunOn(store.Rows(), Exec(d, o, Run(written), current.stored, StageLoad, true, false))
      {
        Steps(store.Rows(), Exec(d, o, Run(written), current.stored, StageLoad, true, false));
        var appended := store.AppendDeploymentLog(true, d.appId, d.id, o.output[written]);
        if !appended {
          return false;
        }
        written := written + 1;
      }
      Steps(store.Rows(), Exec(d, o, Run(written), current.stored, StageLoad, true, false));
      ran := o.compose && o.flush;
    }

    /** Every outcome is recorded even if an independent write fails; the status comes last. */
    method RecordSuccess(current: Attempt, o: Outcomes) returns (failed: bool)
      requires store.Valid()
      modifies store
      ensures store.Valid()
      ensures var (t, x) := RunOn(
                old(store.Rows()), Exec(current.d, o, Good(Route), current.stored, StageLoad, true, false));
        store.Rows() == t && failed == x.error
    {
      var d := current.d;
      ghost var x := Exec(d, o, Good(Route), current.stored, StageLoad, true, false);
      Steps(store.Rows(), x);
      x := Decide(store.Rows(), x).next;
      Steps(store.Rows(), x);
      ghost var before := Decide(store.Rows(), x);
      var released := store.UpdateReleaseSucceeded(o.okRelease, d.releaseId);
      x := before.next;
      Steps(store.Rows(), x);
      before := Decide(store.Rows(), x);
      var healthy := store.UpdateAppStatus(o.okApp, d.appId, AppHealthy);
      x := before.next;
      failed := CloseSuccess(current, o, o.route && released && healthy);
    }

    method CloseSuccess(current: Attempt, o: Outcomes, clean: bool) returns (failed: bool)
      requires store.Valid()
      modifies store
      ensures store.Valid()
      ensures var (t, x) := RunOn(
                old(store.Rows()), Exec(current.d, o, Good(OkLog), current.stored, StageLoad, clean, false));
        store.Rows() == t && failed == x.error
    {
      var d := current.d;
      ghost var x := Exec(d, o, Good(OkLog), current.stored, StageLoad, clean, false);
      Steps(store.Rows(), x);
      ghost var before := Decide(store.Rows(), x);
      var logged := store.AppendDeploymentLog(o.okLog, d.appId, d.id, o.endLine);
      x := before.next;
      Steps(store.Rows(), x);
      before := Decide(store.Rows(), x);
      var noted := store.CreateEvent(o.okEvent, Event(d.id, DeploySucceeded));
      x := before.next;
      Steps(store.Rows(), x);
      before := Decide(store.Rows(), x);
      var recorded := clean && logged && noted;
      var ended := store.EndDeployment(o.okStatus, d.id, Succeeded, if recorded then NoMessage else OutcomeNotRecorded);
      Stops(store.Rows(), before.next);
      failed := !recorded || !ended;
    }

    /** Record a failure; `cause` says whether there is an error to report besides the writes. */
    method RecordFailedAttempt(current: Attempt, stage: Stage, o: Outcomes, cause: bool) returns (failed: bool)
      requires store.Valid()
      modifies store
      ensures store.Valid()
      ensures store.Rows() == RunOn(old(store.Rows()), Failing(current, o, FailApp, stage, true, cause)).0
      ensures failed == RunOn(old(store.Rows()), Failing(current, o, FailApp, stage, true, cause)).1.error
    {
      var d := current.d;
      FailAppStep(store.Rows(), current, o, stage, true, cause);
      var marked := store.UpdateAppStatus(o.failApp, d.appId, AppFailed);
      FailLogStep(store.Rows(), current, o, stage, marked, cause);
      var logged := store.AppendDeploymentLog(o.failLog, d.appId, d.id, o.endLine);
      FailEventStep(store.Rows(), current, o, stage, marked && logged, cause);
      var noted := store.CreateEvent(o.failEvent, Event(d.id, DeployFailed));
      FailReleaseStep(store.Rows(), current, o, stage, marked && logged && noted, cause);
      var released := true;
      if current.stored.Some? {
        released := store.MarkReleaseStatusUnlessSucceeded(o.failRelease, current.stored.value, ReleaseFailed);
      }
      FailStatusStep(store.Rows(), current, o, stage, marked && logged && noted && released, cause);
      var ended := store.EndDeployment(o.failStatus, d.id, Failed, FailedAt(stage));
      failed := cause || !(marked && logged && noted && released && ended);
    }

    /** Finalize the work of an earlier daemon without replaying it. */
    method FailInterrupted(d: Deployment, o: Outcomes) returns (failed: bool)
      requires store.Valid()
      modifies store
      ensures store.Valid()
      ensures d.status != Deploying ==> failed && store.Rows() == old(store.Rows())
      ensures d.status == Deploying ==>
        var (t, x) := RunOn(old(store.Rows()), StartInterrupted(d, o));
        store.Rows() == t && failed == x.error
      ensures d.status == Deploying && d.id in old(store.deployments) ==>
        store.Rows() == Finalized(old(store.Rows()), d, o)
    {
      if d.id in store.deployments {
        FinalizingLeaves(store.Rows(), d, o);
      }
      if d.status != Deploying {
        return true;
      }
      ghost var x := StartInterrupted(d, o);
      Steps(store.Rows(), x);
      var release := store.GetReleaseByAppCommit(o.loadRelease, d.appId, d.commit);
      if release.Err? {
        Stops(store.Rows(), Decide(store.Rows(), x).next);
        return true;
      }
      failed := RecordFailedAttempt(Attempt(d, release.value), StageRestart, o, false);
    }
  }
}
