/**
 What an execution leaves in each table, told before it starts: from the rows it finds, from
 which of its calls go through and from the texts it has to write.
*/
module ExecutionRecords {
  import opened Tables
  import opened Results
  import opened Executor
  import opened Outcome
  import opened Texts
  import Logs = DeploymentLogs

  // ---------- from the start ----------

  predicate LoadsApp(t: Tables, d: Deployment, o: Outcomes) {
    o.loadApp && d.appId in t.apps
  }

  /** The release of the commit, if there is one, is the one the attempt names and gets marked. */
  ghost predicate ReleaseFits(t: Tables, d: Deployment, o: Outcomes) {
    match FindRelease(t, d.appId, d.commit)
    case Some(r) => r == d.releaseId && o.markDeploying
    case None => true
  }

  /** It comes to writing the first line of the log. */
  ghost predicate Admits(t: Tables, d: Deployment, o: Outcomes) {
    LoadsApp(t, d, o) && o.loadRelease && ReleaseFits(t, d, o)
  }

  predicate CanStart(t: Tables, d: Deployment, o: Outcomes) {
    o.eventStarted && Event(d.id, Started) !in t.events
  }

  /** It comes to Compose. */
  ghost predicate Prepares(t: Tables, d: Deployment, o: Outcomes) {
    && Admits(t, d, o) && Appends(o.logStarted, t, d, o.startedLine) && CanStart(t, d, o)
    && o.checkout && ReleaseUsable(t, d, o) && o.prepare
  }

  function IfSo(ok: bool, lines: seq<string>): seq<string> {
    if ok then lines else []
  }

  /** All lines an execution writes to a log that is there. */
  ghost function LogLines(t: Tables, d: Deployment, o: Outcomes): seq<string> {
    IfSo(Admits(t, d, o) && o.logStarted, [o.startedLine])
    + IfSo(Prepares(t, d, o), o.output)
    + IfSo(if Deploys(t, d, o) then o.okLog else o.failLog, [o.endLine])
  }

  /** The stage a failed execution is recorded under: that of the first call that does not go through. */
  ghost function StageOf(t: Tables, d: Deployment, o: Outcomes): Stage {
    if !LoadsApp(t, d, o) then StageLoad
    else if !o.loadRelease || !ReleaseFits(t, d, o) then StageRelease
    else if !Appends(o.logStarted, t, d, o.startedLine) then StageLog
    else if !CanStart(t, d, o) then StageStart
    else if !o.checkout then StageCheckout
    else if !ReleaseUsable(t, d, o) then StageRelease
    else if !o.prepare then StageConfig
    else StageCompose
  }

  /** The events it adds. */
  ghost function EventsOf(t: Tables, d: Deployment, o: Outcomes): set<Event> {
    (if Admits(t, d, o) && Appends(o.logStarted, t, d, o.startedLine) && o.eventStarted
     then {Event(d.id, Started)} else {})
    + (if Deploys(t, d, o) then (if o.okEvent then {Event(d.id, DeploySucceeded)} else {})
       else (if o.failEvent then {Event(d.id, DeployFailed)} else {}))
  }

  /** What the app is in the end, if that gets written. */
  ghost function AppOf(t: Tables, d: Deployment, o: Outcomes): Option<AppStatus> {
    if Deploys(t, d, o) then (if o.okApp then Some(AppHealthy) else None)
    else if o.failApp then Some(AppFailed) else None
  }

  function WithApp(apps: map<string, AppStatus>, appId: string, status: Option<AppStatus>): map<string, AppStatus> {
    if status.Some? && appId in apps then apps[appId := status.value] else apps
  }

  function WithLines(logs: map<Id, LogRow>, id: Id, lines: seq<string>): map<Id, LogRow>
    requires id in logs
  {
    logs[id := logs[id].(log := Logs.AppendAll(logs[id].log, lines))]
  }

  // ---------- the same from any point on ----------

  ghost predicate WillAdmit(t: Tables, x: Exec) {
    var left := Left(x);
    && (left >= 9 ==> LoadsApp(t, x.d, x.o))
    && (left >= 8 ==> x.o.loadRelease && ReleaseFits(t, x.d, x.o))
    && (left == 7 ==> x.o.markDeploying)
  }

  /** It comes to the started event. */
  ghost predicate WillStart(t: Tables, x: Exec) {
    WillAdmit(t, x) && (Left(x) >= 6 ==> Appends(x.o.logStarted, t, x.d, x.o.startedLine))
  }

  function ChunksAhead(x: Exec): seq<string> {
    if !x.pc.Run? then x.o.output else if x.pc.written <= |x.o.output| then x.o.output[x.pc.written..] else []
  }

  /** A failure is recorded, if the recovery of an interrupted attempt can load its release. */
  predicate WillRecordFailure(x: Exec)
    requires x.pc.Bad?
  {
    x.pc.f == LoadInterrupted ==> x.o.loadRelease
  }

  ghost function FirstAhead(t: Tables, x: Exec): seq<string> {
    IfSo(Left(x) >= 6 && WillAdmit(t, x) && x.o.logStarted, [x.o.startedLine])
  }

  ghost function EndAhead(t: Tables, x: Exec): seq<string> {
    IfSo(if WillDeploy(t, x) then x.o.okLog else x.o.failLog, [x.o.endLine])
  }

  ghost function LinesAhead(t: Tables, x: Exec): seq<string> {
    match x.pc
    case Good(g) => IfSo(GoodRank(g) >= 3 && x.o.okLog, [x.o.endLine])
    case Bad(f) => IfSo(BadRank(f) >= 4 && WillRecordFailure(x) && x.o.failLog, [x.o.endLine])
    case Done => []
    case _ => FirstAhead(t, x) + IfSo(WillCompose(t, x), ChunksAhead(x)) + EndAhead(t, x)
  }

  /** The line of one step. */
  function LineAt(x: Exec): seq<string> {
    match x.pc
    case Begin(b) => IfSo(b == LogStarted && x.o.logStarted, [x.o.startedLine])
    case Run(k) => if k < |x.o.output| then [x.o.output[k]] else []
    case Good(g) => IfSo(g == OkLog && x.o.okLog, [x.o.endLine])
    case Bad(f) => IfSo(f == FailLog && x.o.failLog, [x.o.endLine])
    case Done => []
  }

  ghost function StageAhead(t: Tables, x: Exec): Stage {
    var left := Left(x);
    if x.pc.Bad? then x.stage
    else if left >= 9 && !LoadsApp(t, x.d, x.o) then StageLoad
    else if !WillAdmit(t, x) then StageRelease
    else if !WillStart(t, x) then StageLog
    else if left >= 5 && !CanStart(t, x.d, x.o) then StageStart
    else if left >= 4 && !x.o.checkout then StageCheckout
    else if left >= 2 && !ReleaseAhead(t, x) then StageRelease
    else if left >= 1 && !x.o.prepare then StageConfig
    else StageCompose
  }

  ghost function EventsAhead(t: Tables, x: Exec): set<Event> {
    match x.pc
    case Good(g) => if GoodRank(g) >= 2 && x.o.okEvent then {Event(x.d.id, DeploySucceeded)} else {}
    case Bad(f) =>
      if BadRank(f) >= 3 && WillRecordFailure(x) && x.o.failEvent then {Event(x.d.id, DeployFailed)} else {}
    case Done => {}
    case _ =>
      (if Left(x) >= 5 && WillStart(t, x) && x.o.eventStarted then {Event(x.d.id, Started)} else {})
      + (if WillDeploy(t, x) then (if x.o.okEvent then {Event(x.d.id, DeploySucceeded)} else {})
         else (if x.o.failEvent then {Event(x.d.id, DeployFailed)} else {}))
  }

  ghost function AppAhead(t: Tables, x: Exec): Option<AppStatus> {
    match x.pc
    case Good(g) => if GoodRank(g) >= 4 && x.o.okApp then Some(AppHealthy) else None
    case Bad(f) => if BadRank(f) >= 5 && WillRecordFailure(x) && x.o.failApp then Some(AppFailed) else None
    case Done => None
    case _ =>
      if WillDeploy(t, x) then (if x.o.okApp then Some(AppHealthy) else None)
      else if x.o.failApp then Some(AppFailed) else None
  }

  lemma StartAhead(t: Tables, d: Deployment, o: Outcomes)
    ensures LinesAhead(t, Start(d, o)) == LogLines(t, d, o)
    ensures StageAhead(t, Start(d, o)) == StageOf(t, d, o)
    ensures EventsAhead(t, Start(d, o)) == EventsOf(t, d, o)
    ensures AppAhead(t, Start(d, o)) == AppOf(t, d, o)
  {
    StartWillDeploy(t, d, o);
  }

  // ---------- one step ----------

  lemma AlikeAdmits(t: Tables, t': Tables, x: Exec)
    requires LooksAlike(t, t', x)
    ensures WillAdmit(t, x) <==> WillAdmit(t', x)
    ensures WillStart(t, x) <==> WillStart(t', x)
  {
  }

  /** Rows that look alike promise the same. */
  lemma AlikeAhead(t: Tables, t': Tables, x: Exec)
    requires LooksAlike(t, t', x)
    ensures LinesAhead(t, x) == LinesAhead(t', x)
  {
    AlikeAdmits(t, t', x);
    AlikeWillDeploy(t, t', x);
  }

  /** What the steps before Compose do to the promises. */
  ghost predicate AdmitsAhead(t: Tables, x: Exec, s: Decision) {
    var t' := Apply(t, s.write);
    && (s.next.pc.Bad? && Left(x) >= 7 ==> !WillAdmit(t, x))
    && (s.next.pc.Bad? && Left(x) >= 6 ==> !WillStart(t, x))
    && (s.next.pc.Bad? ==> s.next.stage == StageAhead(t, x))
    && (s.next.pc.Begin? || s.next.pc.Run? ==>
          && (WillAdmit(t, x) <==> WillAdmit(t', s.next)) && (WillStart(t, x) <==> WillStart(t', s.next))
          && StageAhead(t, x) == StageAhead(t', s.next))
  }

  lemma LoadAppAdmits(t: Tables, x: Exec)
    requires x.pc == Begin(LoadApp)
    ensures AdmitsAhead(t, x, DecideBegin(t, x))
  {
    assert DecideBegin(t, x).write == Nothing;
  }

  lemma LoadReleaseAdmits(t: Tables, x: Exec)
    requires x.pc == Begin(LoadRelease)
    ensures AdmitsAhead(t, x, DecideBegin(t, x))
  {
    assert DecideBegin(t, x).write == Nothing;
  }

  /** After the release is marked only its status differs. */
  lemma MarkAdmits(t: Tables, x: Exec)
    requires x.pc == Begin(MarkDeploying) && Marks(x)
    ensures AdmitsAhead(t, x, DecideBegin(t, x))
  {
    MarkStepsAhead(t, x);
    var s := DecideBegin(t, x);
    if s.next.pc.Begin? {
      AlikeRelease(t, Apply(t, s.write), s.next);
    }
  }

  lemma WriteAdmits(t: Tables, x: Exec)
    requires x.pc == Begin(LogStarted) || x.pc == Begin(EventStarted)
    ensures AdmitsAhead(t, x, DecideBegin(t, x))
  {
    var s := DecideBegin(t, x);
    if s.next.pc.Begin? {
      AlikeRelease(t, Apply(t, s.write), s.next);
    }
  }

  lemma CheckoutAdmits(t: Tables, x: Exec)
    requires x.pc == Begin(Checkout) || x.pc == Begin(CreateRelease)
    ensures AdmitsAhead(t, x, DecideBegin(t, x))
  {
    var s := DecideBegin(t, x);
    assert WillAdmit(t, x) && WillStart(t, x);
    assert !s.next.pc.Bad? ==> ReleaseAhead(t, x) == ReleaseAhead(Apply(t, s.write), s.next);
  }

  lemma LateAdmits(t: Tables, x: Exec)
    requires x.pc == Begin(ReloadRelease) || x.pc == Begin(Prepare)
    ensures AdmitsAhead(t, x, DecideBegin(t, x))
  {
    assert WillAdmit(t, x) && WillStart(t, x);
  }

  lemma BeginAdmits(t: Tables, x: Exec)
    requires x.pc.Begin? && Marks(x)
    ensures AdmitsAhead(t, x, DecideBegin(t, x))
  {
    if Left(x) == 9 {
      LoadAppAdmits(t, x);
    } else if Left(x) == 8 {
      LoadReleaseAdmits(t, x);
    } else if Left(x) == 7 {
      MarkAdmits(t, x);
    } else if Left(x) >= 5 {
      WriteAdmits(t, x);
    } else if Left(x) >= 3 {
      CheckoutAdmits(t, x);
    } else {
      LateAdmits(t, x);
    }
  }

  /** One step writes its line, and what is promised before it is that line and what is promised after it. */
  ghost predicate LinesStep(t: Tables, x: Exec, s: Decision)
    requires HasLog(t, x.d)
  {
    var t' := Apply(t, s.write);
    && t'.logs == WithLines(t.logs, x.d.id, LineAt(x))
    && LinesAhead(t, x) == LineAt(x) + LinesAhead(t', s.next)
  }

  lemma AppendsOne(log: Logs.Log, line: string)
    ensures Logs.AppendAll(log, [line]) == Logs.Append(log, line) && Logs.AppendAll(log, []) == log
  {
    assert [line][..0] == [];
    assert Logs.AppendAll(log, [line][..0]) == log;
  }

  lemma WritesLine(t: Tables, x: Exec)
    requires x.pc != Done && HasLog(t, x.d)
    ensures Apply(t, Decide(t, x).write).logs == WithLines(t.logs, x.d.id, LineAt(x))
  {
    var line := if LineAt(x) == [] then "" else LineAt(x)[0];
    AppendsOne(t.logs[x.d.id].log, line);
    if x.pc.Begin? {
      BeginWritesLine(t, x);
    }
  }

  lemma BeginWritesLine(t: Tables, x: Exec)
    requires x.pc.Begin? && HasLog(t, x.d)
    ensures var t' := Apply(t, DecideBegin(t, x).write);
            if LineAt(x) == [] then t'.logs == t.logs
            else t'.logs == t.logs[x.d.id := t.logs[x.d.id].(log := Logs.Append(t.logs[x.d.id].log, LineAt(x)[0]))]
  {
  }

  /** The steps before the end of Compose. */
  lemma EarlyAhead(t: Tables, x: Exec)
    requires (x.pc.Begin? || x.pc.Run?) && Marks(x)
    ensures StepsAhead(t, x, Decide(t, x)) && AdmitsAhead(t, x, Decide(t, x)) && Early(t, x, Decide(t, x))
  {
    EarlyStep(t, x);
    if x.pc.Begin? {
      BeginStepsAhead(t, x);
      BeginAdmits(t, x);
    } else {
      RunStepsAhead(t, x);
    }
  }

  /** Where a step before Compose leads. */
  ghost predicate Leads(x: Exec, next: Exec) {
    && next.o == x.o && next.d == x.d
    && (next.pc == Bad(FailApp) || next.pc == Run(0) || (next.pc.Begin? && Left(next) < Left(x)))
    && (Left(x) >= 7 && next.pc.Begin? ==> Left(next) >= 6)
    && (next.pc.Run? ==> Left(x) < 5)
  }

  lemma FirstLeads(t: Tables, x: Exec)
    requires x.pc.Begin? && Left(x) >= 6
    ensures Leads(x, DecideBegin(t, x).next)
  {
  }

  lemma BeginLeads(t: Tables, x: Exec)
    requires x.pc.Begin?
    ensures Leads(x, DecideBegin(t, x).next)
  {
    if Left(x) >= 6 {
      FirstLeads(t, x);
    }
  }

  lemma RefusedLines(t: Tables, x: Exec)
    requires x.pc.Begin? && Marks(x) && HasLog(t, x.d) && DecideBegin(t, x).next.pc.Bad?
    ensures var s := DecideBegin(t, x); LinesAhead(t, x) == LineAt(x) + LinesAhead(Apply(t, s.write), s.next)
  {
    EarlyAhead(t, x);
    BeginLeads(t, x);
    assert FirstAhead(t, x) == [] && LineAt(x) == [];
    assert LinesAhead(t, x) == IfSo(x.o.failLog, [x.o.endLine]);
  }

  lemma TakenLines(t: Tables, x: Exec)
    requires x.pc.Begin? && Marks(x) && HasLog(t, x.d) && !DecideBegin(t, x).next.pc.Bad?
    ensures var s := DecideBegin(t, x);
            var t' := Apply(t, s.write);
      && FirstAhead(t, x) == LineAt(x) + FirstAhead(t', s.next)
      && (WillCompose(t, x) <==> WillCompose(t', s.next)) && (WillDeploy(t, x) <==> WillDeploy(t', s.next))
      && (s.next.pc.Begin? || s.next.pc == Run(0)) && s.next.o == x.o
  {
    EarlyAhead(t, x);
    BeginLeads(t, x);
  }

  lemma Rejoins(line: seq<string>, first: seq<string>, chunks: seq<string>, end: seq<string>)
    ensures line + first + chunks + end == line + (first + chunks + end)
  {
  }

  /** What is promised after a step, put together. */
  lemma PromisesJoin(t: Tables, x: Exec, t': Tables, next: Exec)
    requires x.pc.Begin? && (next.pc.Begin? || next.pc == Run(0)) && next.o == x.o
    requires FirstAhead(t, x) == LineAt(x) + FirstAhead(t', next)
    requires WillCompose(t, x) <==> WillCompose(t', next)
    requires WillDeploy(t, x) <==> WillDeploy(t', next)
    ensures LinesAhead(t, x) == LineAt(x) + LinesAhead(t', next)
  {
    assert ChunksAhead(next) == ChunksAhead(x) by { assert x.o.output[0..] == x.o.output; }
    assert EndAhead(t', next) == EndAhead(t, x);
    var chunks := IfSo(WillCompose(t, x), ChunksAhead(x));
    Rejoins(LineAt(x), FirstAhead(t', next), chunks, EndAhead(t, x));
  }

  lemma BeginLines(t: Tables, x: Exec)
    requires x.pc.Begin? && Marks(x) && HasLog(t, x.d)
    ensures var s := DecideBegin(t, x); LinesAhead(t, x) == LineAt(x) + LinesAhead(Apply(t, s.write), s.next)
  {
    var s := DecideBegin(t, x);
    if s.next.pc.Bad? {
      RefusedLines(t, x);
    } else {
      TakenLines(t, x);
      PromisesJoin(t, x, Apply(t, s.write), s.next);
    }
  }

  lemma RunPromises(t: Tables, x: Exec)
    requires x.pc.Run?
    ensures LinesAhead(t, x) == ChunksAhead(x) + EndAhead(t, x)
  {
    assert FirstAhead(t, x) == [] && WillCompose(t, x);
  }

  lemma ChunkStep(t: Tables, x: Exec)
    requires x.pc.Run? && x.pc.written < |x.o.output| && HasLog(t, x.d)
    ensures DecideRun(t, x).next == x.(pc := Run(x.pc.written + 1))
    ensures WillDeploy(t, x) <==> WillDeploy(Apply(t, DecideRun(t, x).write), DecideRun(t, x).next)
  {
    RunStepsAhead(t, x);
  }

  lemma ChunkLines(t: Tables, x: Exec)
    requires x.pc.Run? && x.pc.written < |x.o.output| && HasLog(t, x.d)
    ensures var s := DecideRun(t, x); LinesAhead(t, x) == LineAt(x) + LinesAhead(Apply(t, s.write), s.next)
  {
    ChunkStep(t, x);
    RunPromises(t, x);
    RunPromises(Apply(t, DecideRun(t, x).write), x.(pc := Run(x.pc.written + 1)));
    assert ChunksAhead(x) == LineAt(x) + ChunksAhead(x.(pc := Run(x.pc.written + 1)));
  }

  lemma LastLines(t: Tables, x: Exec)
    requires x.pc.Run? && x.pc.written >= |x.o.output|
    ensures var s := DecideRun(t, x); LinesAhead(t, x) == LineAt(x) + LinesAhead(Apply(t, s.write), s.next)
  {
    RunStepsAhead(t, x);
    RunPromises(t, x);
  }

  /** The writes at the end are made one after the other. */
  lemma GoodLeads(t: Tables, x: Exec)
    requires x.pc.Good?
    ensures var next := DecideGood(t, x).next;
            if x.pc.g == OkStatus then next.pc == Done
            else next.pc.Good? && GoodRank(next.pc.g) == GoodRank(x.pc.g) - 1
  {
  }

  lemma BadLeads(t: Tables, x: Exec)
    requires x.pc.Bad?
    ensures var next := DecideBad(t, x).next;
            if x.pc.f == FailStatus || !WillRecordFailure(x) then next.pc == Done
            else next.pc.Bad? && BadRank(next.pc.f) == BadRank(x.pc.f) - 1
  {
  }

  lemma GoodLines(t: Tables, x: Exec)
    requires x.pc.Good?
    ensures var s := DecideGood(t, x); LinesAhead(t, x) == LineAt(x) + LinesAhead(Apply(t, s.write), s.next)
  {
    GoodProgresses(t, x);
    GoodLeads(t, x);
  }

  lemma BadLines(t: Tables, x: Exec)
    requires x.pc.Bad?
    ensures var s := DecideBad(t, x); LinesAhead(t, x) == LineAt(x) + LinesAhead(Apply(t, s.write), s.next)
  {
    BadProgresses(t, x);
    BadLeads(t, x);
  }

  lemma StepLines(t: Tables, x: Exec)
    requires x.pc != Done && Marks(x) && HasLog(t, x.d)
    ensures LinesStep(t, x, Decide(t, x))
  {
    WritesLine(t, x);
    match x.pc
    case Begin(_) => BeginLines(t, x);
    case Run(k) =>
      if k < |x.o.output| {
        ChunkLines(t, x);
      } else {
        LastLines(t, x);
      }
    case Good(_) => GoodLines(t, x);
    case Bad(_) => BadLines(t, x);
  }

  /** The executions of an attempt go through states in which a release being marked is known. */
  lemma StepMarks(t: Tables, x: Exec)
    requires x.pc != Done && Marks(x)
    ensures var s := Decide(t, x); Marks(s.next) && (HasLog(t, x.d) ==> HasLog(Apply(t, s.write), s.next.d))
  {
    StepProgresses(t, x);
    if x.pc.Begin? || x.pc.Run? {
      EarlyAhead(t, x);
    }
  }

  lemma {:induction false} AppendsJoin(log: Logs.Log, a: seq<string>, b: seq<string>)
    ensures Logs.AppendAll(log, a + b) == Logs.AppendAll(Logs.AppendAll(log, a), b)
    decreases |b|
  {
    if b == [] {
      assert a + b == a;
    } else {
      var init := b[..|b| - 1];
      assert (a + b)[..|a + b| - 1] == a + init && (a + b)[|a + b| - 1] == b[|b| - 1];
      AppendsJoin(log, a, init);
    }
  }

  lemma LinesJoin(logs: map<Id, LogRow>, id: Id, a: seq<string>, b: seq<string>)
    requires id in logs
    ensures WithLines(WithLines(logs, id, a), id, b) == WithLines(logs, id, a + b)
  {
    AppendsJoin(logs[id].log, a, b);
  }

  /** An execution grows the log of its own attempt only, by the lines promised. */
  lemma {:induction false} RunWritesLines(t: Tables, x: Exec)
    requires Marks(x) && HasLog(t, x.d)
    ensures RunOn(t, x).0.logs == WithLines(t.logs, x.d.id, LinesAhead(t, x))
    decreases Rank(x.pc), Unwritten(x)
  {
    if x.pc == Done {
      AppendsOne(t.logs[x.d.id].log, "");
    } else {
      var s := Decide(t, x);
      StepProgresses(t, x);
      StepLines(t, x);
      StepMarks(t, x);
      RunWritesLines(Apply(t, s.write), s.next);
      LinesJoin(t.logs, x.d.id, LineAt(x), LinesAhead(Apply(t, s.write), s.next));
    }
  }

  /** Without its log it leaves all logs alone. */
  lemma {:induction false} RunWithoutLog(t: Tables, x: Exec)
    requires !HasLog(t, x.d)
    ensures RunOn(t, x).0.logs == t.logs
    decreases Rank(x.pc), Unwritten(x)
  {
    if x.pc != Done {
      StepProgresses(t, x);
      WritesNothing(t, x);
      RunWithoutLog(Apply(t, Decide(t, x).write), Decide(t, x).next);
    }
  }

  lemma WritesNothing(t: Tables, x: Exec)
    requires x.pc != Done && !HasLog(t, x.d)
    ensures Apply(t, Decide(t, x).write).logs == t.logs
  {
    if x.pc.Begin? {
      BeginWritesNothing(t, x);
    }
  }

  lemma BeginWritesNothing(t: Tables, x: Exec)
    requires x.pc.Begin? && !HasLog(t, x.d)
    ensures Apply(t, DecideBegin(t, x).write).logs == t.logs
  {
  }

  // ---------- events ----------

  /** A step adds to the events what it no longer promises. */
  ghost predicate EventsStep(t: Tables, x: Exec, s: Decision) {
    var t' := Apply(t, s.write);
    t'.events + EventsAhead(t', s.next) == t.events + EventsAhead(t, x)
  }

  lemma BeginEvents(t: Tables, x: Exec)
    requires x.pc.Begin? && Marks(x)
    ensures EventsStep(t, x, DecideBegin(t, x))
  {
    EarlyAhead(t, x);
    BeginLeads(t, x);
    BeginWritesEarly(t, x);
    BeginEvent(t, x);
  }

  /** The started event is the only one before Compose. */
  lemma BeginEvent(t: Tables, x: Exec)
    requires x.pc.Begin?
    ensures var s := DecideBegin(t, x);
      && (s.write.AddEvent? <==> x.pc.b == EventStarted && CanStart(t, x.d, x.o))
      && (s.write.AddEvent? ==> Left(s.next) == 4)
      && (Left(x) >= 6 && s.next.pc.Begin? ==> Left(s.next) >= 5)
  {
  }

  lemma RunEvents(t: Tables, x: Exec)
    requires x.pc.Run?
    ensures EventsStep(t, x, DecideRun(t, x))
  {
    RunStepsAhead(t, x);
  }

  lemma GoodEvents(t: Tables, x: Exec)
    requires x.pc.Good?
    ensures EventsStep(t, x, DecideGood(t, x))
  {
    GoodProgresses(t, x);
    GoodLeads(t, x);
    GoodWritesEvent(t, x);
  }

  lemma BadEvents(t: Tables, x: Exec)
    requires x.pc.Bad?
    ensures EventsStep(t, x, DecideBad(t, x))
  {
    BadProgresses(t, x);
    BadLeads(t, x);
    BadWritesEvent(t, x);
  }

  lemma GoodWritesEvent(t: Tables, x: Exec)
    requires x.pc.Good?
    ensures Apply(t, DecideGood(t, x).write).events ==
            t.events + if x.pc.g == OkEvent && x.o.okEvent then {Event(x.d.id, DeploySucceeded)} else {}
  {
  }

  lemma BadWritesEvent(t: Tables, x: Exec)
    requires x.pc.Bad?
    ensures Apply(t, DecideBad(t, x).write).events ==
            t.events + if x.pc.f == FailEvent && x.o.failEvent then {Event(x.d.id, DeployFailed)} else {}
  {
  }

  lemma {:induction false} RunAddsEvents(t: Tables, x: Exec)
    requires Marks(x)
    ensures RunOn(t, x).0.events == t.events + EventsAhead(t, x)
    decreases Rank(x.pc), Unwritten(x)
  {
    if x.pc != Done {
      StepProgresses(t, x);
      match x.pc {
        case Begin(_) => BeginEvents(t, x);
        case Run(_) => RunEvents(t, x);
        case Good(_) => GoodEvents(t, x);
        case Bad(_) => BadEvents(t, x);
      }
      StepMarks(t, x);
      RunAddsEvents(Apply(t, Decide(t, x).write), Decide(t, x).next);
    }
  }

  // ---------- the app ----------

  ghost predicate AppStep(t: Tables, x: Exec, s: Decision) {
    var t' := Apply(t, s.write);
    WithApp(t'.apps, x.d.appId, AppAhead(t', s.next)) == WithApp(t.apps, x.d.appId, AppAhead(t, x))
  }

  lemma EarlyApp(t: Tables, x: Exec)
    requires (x.pc.Begin? || x.pc.Run?) && Marks(x)
    ensures AppStep(t, x, Decide(t, x))
  {
    EarlyAhead(t, x);
    StepProgresses(t, x);
    if x.pc.Begin? {
      BeginWritesEarly(t, x);
    }
  }

  lemma GoodApp(t: Tables, x: Exec)
    requires x.pc.Good?
    ensures AppStep(t, x, DecideGood(t, x))
  {
    GoodProgresses(t, x);
    GoodLeads(t, x);
  }

  lemma BadApp(t: Tables, x: Exec)
    requires x.pc.Bad?
    ensures AppStep(t, x, DecideBad(t, x))
  {
    BadProgresses(t, x);
    BadLeads(t, x);
  }

  lemma {:induction false} RunSetsApp(t: Tables, x: Exec)
    requires Marks(x)
    ensures RunOn(t, x).0.apps == WithApp(t.apps, x.d.appId, AppAhead(t, x))
    decreases Rank(x.pc), Unwritten(x)
  {
    if x.pc != Done {
      StepProgresses(t, x);
      if x.pc.Begin? || x.pc.Run? {
        EarlyApp(t, x);
      } else if x.pc.Good? {
        GoodApp(t, x);
      } else {
        BadApp(t, x);
      }
      StepMarks(t, x);
      RunSetsApp(Apply(t, Decide(t, x).write), Decide(t, x).next);
    }
  }

  // ---------- the stage ----------

  /** A failed execution is recorded under the stage of its first failing call. */
  lemma {:induction false} RunFailsAtStage(t: Tables, x: Exec)
    requires (x.pc.Begin? || x.pc.Run?) && Marks(x) && x.d.id in t.deployments
    requires !ReachesGood(t, x) && x.o.failStatus
    ensures RunOn(t, x).0.deployments == Ended(t, x.d.id, Failed, FailedAt(StageAhead(t, x)))
    decreases Rank(x.pc), Unwritten(x)
  {
    StepProgresses(t, x);
    EarlyAhead(t, x);
    var s := Decide(t, x);
    if s.next.pc.Bad? {
      BadEndsFailed(Apply(t, s.write), s.next);
    } else {
      RunFailsAtStage(Apply(t, s.write), s.next);
    }
  }
}
