/** What an execution makes of the releases, and with that of all tables. */
module ExecutionTables {
  import opened Tables
  import opened Results
  import opened Executor
  import opened Outcome
  import opened ExecutionRecords
  import opened Texts
  import Logs = DeploymentLogs

  function Marked(releases: map<string, Release>, id: string, status: ReleaseStatus): map<string, Release> {
    if id in releases && releases[id].status != ReleaseSucceeded then releases[id := releases[id].(status := status)]
    else releases
  }

  function MarkedIf(releases: map<string, Release>, ok: bool, id: string, status: ReleaseStatus): map<string, Release> {
    if ok then Marked(releases, id, status) else releases
  }

  function CreatedIf(releases: map<string, Release>, ok: bool, d: Deployment): map<string, Release> {
    if ok then releases[d.releaseId := Release(d.appId, d.commit, ReleaseDeploying)] else releases
  }

  /** What recording the outcome makes of the releases. */
  function Settled(
    releases: map<string, Release>, deployed: bool, stored: Option<string>, d: Deployment, o: Outcomes
  ): map<string, Release> {
    if deployed then
      if o.okRelease && d.releaseId in releases
      then releases[d.releaseId := releases[d.releaseId].(status := ReleaseSucceeded)] else releases
    else if stored.Some? && o.failRelease then Marked(releases, stored.value, ReleaseFailed)
    else releases
  }

  /** It makes the release of the commit. */
  ghost predicate Makes(t: Tables, d: Deployment, o: Outcomes) {
    && Admits(t, d, o) && Appends(o.logStarted, t, d, o.startedLine) && CanStart(t, d, o) && o.checkout
    && FindRelease(t, d.appId, d.commit).None? && o.createRelease && d.releaseId !in t.releases
  }

  /**
   The releases after an execution: a release of the commit under the expected id is marked, a
   missing one made, and the one found or made gets the outcome.
  */
  ghost function ReleasesOf(t: Tables, d: Deployment, o: Outcomes): map<string, Release> {
    var loaded := LoadsApp(t, d, o) && o.loadRelease;
    var found := FindRelease(t, d.appId, d.commit);
    var marked := MarkedIf(
      t.releases, loaded && found == Some(d.releaseId) && o.markDeploying, d.releaseId, ReleaseDeploying);
    var stored := if Makes(t, d, o) then Some(d.releaseId) else if loaded then found else None;
    Settled(CreatedIf(marked, Makes(t, d, o), d), Deploys(t, d, o), stored, d, o)
  }

  ghost predicate WillMark(t: Tables, x: Exec) {
    var left := Left(x);
    && left >= 7 && x.o.markDeploying
    && (left >= 9 ==> LoadsApp(t, x.d, x.o))
    && (left >= 8 ==> x.o.loadRelease && FindRelease(t, x.d.appId, x.d.commit) == Some(x.d.releaseId))
  }

  /** It comes to making the release. */
  ghost predicate WillCreate(t: Tables, x: Exec) {
    var left := Left(x);
    && left >= 3 && WillStart(t, x) && (left >= 5 ==> CanStart(t, x.d, x.o)) && (left >= 4 ==> x.o.checkout)
    && StoredLater(t, x).None?
  }

  ghost predicate Creates(t: Tables, x: Exec) {
    && WillCreate(t, x) && x.o.createRelease && x.d.releaseId !in t.releases
    && FindRelease(t, x.d.appId, x.d.commit).None?
  }

  /** The release known when the outcome is recorded. */
  ghost function StoredInTheEnd(t: Tables, x: Exec): Option<string> {
    var left := Left(x);
    if Creates(t, x) || ((left == 2 || WillCreate(t, x)) && IsOwnRelease(t, x)) then Some(x.d.releaseId)
    else if (left >= 9 ==> LoadsApp(t, x.d, x.o)) && (left >= 8 ==> x.o.loadRelease) then StoredLater(t, x)
    else x.stored
  }

  ghost function ReleasesAhead(t: Tables, x: Exec): map<string, Release> {
    match x.pc
    case Good(g) => if GoodRank(g) >= 5 then Settled(t.releases, true, x.stored, x.d, x.o) else t.releases
    case Bad(f) =>
      var stored := if f == LoadInterrupted then FindRelease(t, x.d.appId, x.d.commit) else x.stored;
      if BadRank(f) >= 2 && WillRecordFailure(x) then Settled(t.releases, false, stored, x.d, x.o) else t.releases
    case Done => t.releases
    case _ =>
      var marked := MarkedIf(t.releases, WillMark(t, x), x.d.releaseId, ReleaseDeploying);
      Settled(CreatedIf(marked, Creates(t, x), x.d), WillDeploy(t, x), StoredInTheEnd(t, x), x.d, x.o)
  }

  ghost predicate ReleasesStep(t: Tables, x: Exec, s: Decision) {
    ReleasesAhead(Apply(t, s.write), s.next) == ReleasesAhead(t, x)
  }

  lemma LoadAppReleases(t: Tables, x: Exec)
    requires x.pc == Begin(LoadApp)
    requires StepsAhead(t, x, DecideBegin(t, x)) && AdmitsAhead(t, x, DecideBegin(t, x))
    ensures ReleasesStep(t, x, DecideBegin(t, x))
  {
    var s := DecideBegin(t, x);
    assert s.write == Nothing;
    if s.next.pc.Begin? {
      assert s.next == x.(pc := Begin(LoadRelease));
      assert StoredInTheEnd(t, s.next) == StoredInTheEnd(t, x);
    } else {
      assert !Creates(t, x) && StoredInTheEnd(t, x) == x.stored;
    }
  }

  /** What the releases ahead depend on. */
  lemma KeepsReleases(t: Tables, x: Exec, next: Exec)
    requires x.pc.Begin? && next.pc.Begin? && next.o == x.o && next.d == x.d
    requires WillMark(t, next) == WillMark(t, x) && Creates(t, next) == Creates(t, x)
    requires StoredInTheEnd(t, next) == StoredInTheEnd(t, x) && WillDeploy(t, next) == WillDeploy(t, x)
    ensures ReleasesAhead(t, next) == ReleasesAhead(t, x)
  {
  }

  lemma LoadedCreates(t: Tables, x: Exec)
    requires x.pc == Begin(LoadRelease)
    requires StepsAhead(t, x, DecideBegin(t, x)) && AdmitsAhead(t, x, DecideBegin(t, x))
    requires DecideBegin(t, x).next.pc.Begin?
    ensures var next := DecideBegin(t, x).next;
      && WillMark(t, next) == WillMark(t, x) && WillCreate(t, next) == WillCreate(t, x)
      && Creates(t, next) == Creates(t, x) && WillDeploy(t, next) == WillDeploy(t, x)
      && next.o == x.o && next.d == x.d
  {
  }

  lemma LoadedReleases(t: Tables, x: Exec)
    requires x.pc == Begin(LoadRelease)
    requires StepsAhead(t, x, DecideBegin(t, x)) && AdmitsAhead(t, x, DecideBegin(t, x))
    requires DecideBegin(t, x).next.pc.Begin?
    ensures ReleasesAhead(t, DecideBegin(t, x).next) == ReleasesAhead(t, x)
  {
    LoadedCreates(t, x);
    KeepsReleases(t, x, DecideBegin(t, x).next);
  }

  lemma UnfitReleases(t: Tables, x: Exec)
    requires x.pc == Begin(LoadRelease)
    requires AdmitsAhead(t, x, DecideBegin(t, x)) && DecideBegin(t, x).next.pc == Bad(FailApp)
    ensures ReleasesAhead(t, DecideBegin(t, x).next) == ReleasesAhead(t, x)
  {
    assert !Creates(t, x) && StoredInTheEnd(t, x) == DecideBegin(t, x).next.stored;
  }

  lemma LoadReleaseReleases(t: Tables, x: Exec)
    requires x.pc == Begin(LoadRelease)
    requires StepsAhead(t, x, DecideBegin(t, x)) && AdmitsAhead(t, x, DecideBegin(t, x))
    ensures ReleasesStep(t, x, DecideBegin(t, x))
  {
    var s := DecideBegin(t, x);
    assert s.write == Nothing;
    if s.next.pc.Begin? {
      LoadedReleases(t, x);
    } else {
      UnfitReleases(t, x);
    }
  }

  lemma MarkReleases(t: Tables, x: Exec)
    requires x.pc == Begin(MarkDeploying) && Marks(x)
    requires StepsAhead(t, x, DecideBegin(t, x)) && AdmitsAhead(t, x, DecideBegin(t, x))
    ensures ReleasesStep(t, x, DecideBegin(t, x))
  {
  }

  lemma LogReleases(t: Tables, x: Exec)
    requires x.pc == Begin(LogStarted)
    requires StepsAhead(t, x, DecideBegin(t, x)) && AdmitsAhead(t, x, DecideBegin(t, x))
    ensures ReleasesStep(t, x, DecideBegin(t, x))
  {
    var s := DecideBegin(t, x);
    var t' := Apply(t, s.write);
    assert t'.releases == t.releases && !WillMark(t, x);
    if s.next.pc.Begin? {
      assert Creates(t', s.next) == Creates(t, x);
      assert StoredInTheEnd(t', s.next) == StoredInTheEnd(t, x);
    } else {
      assert !WillCreate(t, x);
    }
  }

  lemma EventReleases(t: Tables, x: Exec)
    requires x.pc == Begin(EventStarted)
    requires StepsAhead(t, x, DecideBegin(t, x)) && AdmitsAhead(t, x, DecideBegin(t, x))
    ensures ReleasesStep(t, x, DecideBegin(t, x))
  {
    var s := DecideBegin(t, x);
    var t' := Apply(t, s.write);
    assert t'.releases == t.releases && !WillMark(t, x);
    if s.next.pc.Begin? {
      assert Creates(t', s.next) == Creates(t, x);
      assert StoredInTheEnd(t', s.next) == StoredInTheEnd(t, x);
    } else {
      assert !WillCreate(t, x);
    }
  }

  lemma CheckoutReleases(t: Tables, x: Exec)
    requires x.pc == Begin(Checkout)
    requires StepsAhead(t, x, DecideBegin(t, x)) && AdmitsAhead(t, x, DecideBegin(t, x))
    ensures ReleasesStep(t, x, DecideBegin(t, x))
  {
    var s := DecideBegin(t, x);
    var t' := Apply(t, s.write);
    assert t'.releases == t.releases && !WillMark(t, x);
    if s.next.pc.Begin? {
      assert Creates(t', s.next) == Creates(t, x);
      assert StoredInTheEnd(t', s.next) == StoredInTheEnd(t, x);
    } else {
      assert !WillCreate(t, x);
    }
  }

  lemma MadeReleases(t: Tables, x: Exec)
    requires x.pc == Begin(CreateRelease) && Creates(t, x)
    requires StepsAhead(t, x, DecideBegin(t, x))
    ensures ReleasesStep(t, x, DecideBegin(t, x))
  {
    var s := DecideBegin(t, x);
    var t' := Apply(t, s.write);
    assert s.next == x.(stored := Some(x.d.releaseId), pc := Begin(Prepare));
    assert t'.releases == CreatedIf(t.releases, true, x.d);
    assert !WillMark(t, x) && StoredInTheEnd(t, x) == Some(x.d.releaseId);
    assert !WillMark(t', s.next) && !Creates(t', s.next) && StoredInTheEnd(t', s.next) == Some(x.d.releaseId);
  }

  lemma CreateReleases(t: Tables, x: Exec)
    requires x.pc == Begin(CreateRelease)
    requires StepsAhead(t, x, DecideBegin(t, x)) && AdmitsAhead(t, x, DecideBegin(t, x))
    ensures ReleasesStep(t, x, DecideBegin(t, x))
  {
    if Creates(t, x) {
      MadeReleases(t, x);
    } else {
      var s := DecideBegin(t, x);
      assert s.write == Nothing && !WillMark(t, x) && s.next.stored == x.stored && s.next.o == x.o && s.next.d == x.d;
      assert !Creates(t, s.next) && !WillMark(t, s.next);
      assert StoredInTheEnd(t, s.next) == StoredInTheEnd(t, x);
    }
  }

  lemma LastReleases(t: Tables, x: Exec)
    requires x.pc == Begin(ReloadRelease) || x.pc == Begin(Prepare)
    requires StepsAhead(t, x, DecideBegin(t, x)) && AdmitsAhead(t, x, DecideBegin(t, x))
    ensures ReleasesStep(t, x, DecideBegin(t, x))
  {
    var s := DecideBegin(t, x);
    assert s.write == Nothing && !WillMark(t, x) && !Creates(t, x);
    if !s.next.pc.Bad? {
      assert StoredInTheEnd(t, s.next) == StoredInTheEnd(t, x) == s.next.stored;
    }
  }

  lemma RunReleases(t: Tables, x: Exec)
    requires x.pc.Run?
    ensures ReleasesStep(t, x, DecideRun(t, x))
  {
    RunStepsAhead(t, x);
  }

  lemma GoodReleases(t: Tables, x: Exec)
    requires x.pc.Good?
    ensures ReleasesStep(t, x, DecideGood(t, x))
  {
    GoodProgresses(t, x);
    GoodLeads(t, x);
  }

  lemma InterruptedReleases(t: Tables, x: Exec)
    requires x.pc == Bad(LoadInterrupted)
    ensures ReleasesStep(t, x, DecideBad(t, x))
  {
  }

  lemma BadReleases(t: Tables, x: Exec)
    requires x.pc.Bad? && x.pc.f != LoadInterrupted
    ensures ReleasesStep(t, x, DecideBad(t, x))
  {
    BadProgresses(t, x);
    BadLeads(t, x);
  }

  lemma BeginReleases(t: Tables, x: Exec)
    requires x.pc.Begin? && Marks(x)
    ensures ReleasesStep(t, x, DecideBegin(t, x))
  {
    EarlyAhead(t, x);
    match x.pc.b
    case LoadApp => LoadAppReleases(t, x);
    case LoadRelease => LoadReleaseReleases(t, x);
    case MarkDeploying => MarkReleases(t, x);
    case LogStarted => LogReleases(t, x);
    case EventStarted => EventReleases(t, x);
    case Checkout => CheckoutReleases(t, x);
    case CreateRelease => CreateReleases(t, x);
    case ReloadRelease => LastReleases(t, x);
    case Prepare => LastReleases(t, x);
  }

  lemma {:induction false} RunSettlesReleases(t: Tables, x: Exec)
    requires Marks(x)
    ensures RunOn(t, x).0.releases == ReleasesAhead(t, x)
    decreases Rank(x.pc), Unwritten(x)
  {
    if x.pc != Done {
      StepProgresses(t, x);
      match x.pc {
        case Begin(_) => BeginReleases(t, x);
        case Run(_) => RunReleases(t, x);
        case Good(_) => GoodReleases(t, x);
        case Bad(f) =>
          if f == LoadInterrupted {
            InterruptedReleases(t, x);
          } else {
            BadReleases(t, x);
          }
      }
      StepMarks(t, x);
      RunSettlesReleases(Apply(t, Decide(t, x).write), Decide(t, x).next);
    }
  }

  lemma StartReleases(t: Tables, d: Deployment, o: Outcomes)
    ensures ReleasesAhead(t, Start(d, o)) == ReleasesOf(t, d, o)
  {
    StartWillDeploy(t, d, o);
    assert Creates(t, Start(d, o)) <==> Makes(t, d, o);
    assert !(WillCreate(t, Start(d, o)) && IsOwnRelease(t, Start(d, o)));
  }

  // ---------- all tables ----------

  /** The attempts after an execution: its own one is over, if its status write lands. */
  ghost function AttemptsOf(t: Tables, d: Deployment, o: Outcomes): map<Id, Deployment>
    requires d.id in t.deployments
  {
    if Deploys(t, d, o) then
      if o.okStatus then Ended(t, d.id, Succeeded, if Records(t, d, o) then NoMessage else OutcomeNotRecorded)
      else t.deployments
    else if o.failStatus then Ended(t, d.id, Failed, FailedAt(StageOf(t, d, o)))
    else t.deployments
  }

  ghost function LogsOf(t: Tables, d: Deployment, o: Outcomes): map<Id, LogRow> {
    if HasLog(t, d) then WithLines(t.logs, d.id, LogLines(t, d, o)) else t.logs
  }

  ghost function Executed(t: Tables, d: Deployment, o: Outcomes): Tables
    requires d.id in t.deployments
  {
    Tables(
      WithApp(t.apps, d.appId, AppOf(t, d, o)),
      AttemptsOf(t, d, o),
      ReleasesOf(t, d, o),
      t.events + EventsOf(t, d, o),
      LogsOf(t, d, o))
  }

  /**
   For every pattern of failing calls, all tables after an execution nothing comes between, told
   from the tables before it, the outcomes of its calls and the texts it writes.
  */
  lemma ExecutionLeaves(t: Tables, d: Deployment, o: Outcomes)
    requires d.id in t.deployments
    ensures RunOn(t, Start(d, o)).0 == Executed(t, d, o)
  {
    var x := Start(d, o);
    StartAhead(t, d, o);
    StartReleases(t, d, o);
    RunSetsApp(t, x);
    RunSettlesReleases(t, x);
    RunAddsEvents(t, x);
    if HasLog(t, d) {
      RunWritesLines(t, x);
    } else {
      RunWithoutLog(t, x);
    }
    ExecutionAttempts(t, d, o);
  }

  lemma ExecutionAttempts(t: Tables, d: Deployment, o: Outcomes)
    requires d.id in t.deployments
    ensures RunOn(t, Start(d, o)).0.deployments == AttemptsOf(t, d, o)
  {
    var x := Start(d, o);
    StartAhead(t, d, o);
    StartReachesGoodIff(t, d, o);
    if Deploys(t, d, o) {
      RecordsAtGood(t, d, o);
      RunsFromGood(t, x);
      GoodEndsSucceeded(AtGood(t, x).0, AtGood(t, x).1);
    } else if o.failStatus {
      RunFailsAtStage(t, x);
    } else {
      EarlyRunEnds(t, x);
    }
  }

  // ---------- the same for an interrupted attempt ----------

  /** The tables after finalizing an interrupted attempt: nothing is run, and all records of the failure are tried. */
  ghost function Finalized(t: Tables, d: Deployment, o: Outcomes): Tables
    requires d.id in t.deployments
  {
    if !o.loadRelease then t
    else
      Tables(
        WithApp(t.apps, d.appId, if o.failApp then Some(AppFailed) else None),
        if o.failStatus then Ended(t, d.id, Failed, FailedAt(StageRestart)) else t.deployments,
        Settled(t.releases, false, FindRelease(t, d.appId, d.commit), d, o),
        t.events + (if o.failEvent then {Event(d.id, DeployFailed)} else {}),
        if HasLog(t, d) then WithLines(t.logs, d.id, IfSo(o.failLog, [o.endLine])) else t.logs)
  }

  lemma FinalizingLeaves(t: Tables, d: Deployment, o: Outcomes)
    requires d.id in t.deployments
    ensures RunOn(t, StartInterrupted(d, o)).0 == Finalized(t, d, o)
  {
    var x := StartInterrupted(d, o);
    RunSetsApp(t, x);
    RunSettlesReleases(t, x);
    RunAddsEvents(t, x);
    FinalizingAttempts(t, d, o);
    if HasLog(t, d) {
      RunWritesLines(t, x);
      AppendsOne(t.logs[d.id].log, "");
    } else {
      RunWithoutLog(t, x);
    }
  }

  lemma FinalizingAttempts(t: Tables, d: Deployment, o: Outcomes)
    requires d.id in t.deployments
    ensures RunOn(t, StartInterrupted(d, o)).0.deployments == Finalized(t, d, o).deployments
  {
    var x := StartInterrupted(d, o);
    StepProgresses(t, x);
    var s := Decide(t, x);
    assert RunOn(t, x) == RunOn(t, s.next);
    if o.loadRelease {
      BadEndsFailed(t, s.next);
    }
  }

  /** Every record of a failure that is still to come goes through. */
  predicate WillRecordAll(t: Tables, x: Exec)
    requires x.pc.Bad? && x.pc.f != LoadInterrupted
  {
    var d, o, left := x.d, x.o, BadRank(x.pc.f);
    && (left >= 5 ==> o.failApp && d.appId in t.apps)
    && (left >= 4 ==> Appends(o.failLog, t, d, o.endLine))
    && (left >= 3 ==> o.failEvent && Event(d.id, DeployFailed) !in t.events)
    && (left >= 2 ==> x.stored.Some? ==> o.failRelease)
    && o.failStatus && d.id in t.deployments
  }

  lemma BadStepRecords(t: Tables, x: Exec)
    requires x.pc.Bad? && x.pc.f != LoadInterrupted && x.pc.f != FailStatus
    ensures var s := DecideBad(t, x);
      && s.next.pc.Bad? && s.next.pc.f != LoadInterrupted && s.next.error == x.error
      && (x.clean && WillRecordAll(t, x) <==> s.next.clean && WillRecordAll(Apply(t, s.write), s.next))
  {
  }

  /** Recording a failure adds no error exactly if every record goes through. */
  lemma {:induction false} BadErrorIff(t: Tables, x: Exec)
    requires x.pc.Bad? && x.pc.f != LoadInterrupted
    ensures RunOn(t, x).1.error <==> x.error || !x.clean || !WillRecordAll(t, x)
    decreases Rank(x.pc)
  {
    var s := DecideBad(t, x);
    StepProgresses(t, x);
    assert RunOn(t, x) == RunOn(Apply(t, s.write), s.next);
    if x.pc.f == FailStatus {
      assert RunOn(Apply(t, s.write), s.next) == (Apply(t, s.write), s.next);
    } else {
      BadStepRecords(t, x);
      BadErrorIff(Apply(t, s.write), s.next);
    }
  }

  /** Finalizing reports no error exactly if the release can be loaded and every record of the failure goes through. */
  lemma FinalizingErrorIff(t: Tables, d: Deployment, o: Outcomes)
    ensures !RunOn(t, StartInterrupted(d, o)).1.error <==>
      && o.loadRelease
      && o.failApp && d.appId in t.apps && Appends(o.failLog, t, d, o.endLine)
      && o.failEvent && Event(d.id, DeployFailed) !in t.events
      && (FindRelease(t, d.appId, d.commit).Some? ==> o.failRelease)
      && o.failStatus && d.id in t.deployments
  {
    var x := StartInterrupted(d, o);
    StepProgresses(t, x);
    var s := Decide(t, x);
    assert RunOn(t, x) == RunOn(t, s.next);
    if o.loadRelease {
      BadErrorIff(t, s.next);
    } else {
      assert RunOn(t, s.next) == (t, s.next);
    }
  }

  // ---------- the text of the log ----------

  /**
   The log of an attempt that comes to Compose and whose own two lines can be appended holds the
   started line, everything Compose wrote and the end line, whether Compose fails or not, up to
   the size limit. All other logs are as they were.
  */
  lemma LogHoldsComposeOutput(t: Tables, d: Deployment, o: Outcomes)
    requires d.id in t.deployments && HasLog(t, d) && t.logs[d.id].log == Logs.EMPTY
    requires Prepares(t, d, o) && o.logStarted && (if Deploys(t, d, o) then o.okLog else o.failLog)
    ensures var logs := RunOn(t, Start(d, o)).0.logs;
      && logs.Keys == t.logs.Keys
      && logs[d.id].log == Logs.Bounded(o.startedLine + Concat(o.output) + o.endLine)
      && (forall id | id in t.logs && id != d.id :: logs[id] == t.logs[id])
  {
    ExecutionLeaves(t, d, o);
    var lines := LogLines(t, d, o);
    assert lines == [o.startedLine] + o.output + [o.endLine];
    ConcatJoins([o.startedLine] + o.output, [o.endLine]);
    ConcatJoins([o.startedLine], o.output);
    ConcatOne(o.startedLine);
    ConcatOne(o.endLine);
    Logs.AppendsAreBounded(lines);
  }
}
