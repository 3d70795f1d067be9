/**
 One deployment attempt, one store statement or external call at a time. A step decides
 what to write from what it reads, so it can be iterated on its own or interleaved with
 other processes.
*/
module Executor {
  import opened Tables
  import opened Results

  /**
   How the calls of one execution come out: `true` means the call went through. A store
   call that goes through may still find no row, or a row with its id already there.
   The texts are the lines the execution writes. A Compose file that does not validate is a
   run whose output is the diagnosis and which ends with an error.
  */
  datatype Outcomes = Outcomes(
    loadApp: bool, loadRelease: bool, markDeploying: bool, logStarted: bool, eventStarted: bool,
    checkout: bool, createRelease: bool, reloadRelease: bool, prepare: bool,
    output: seq<string>, compose: bool, flush: bool, route: bool,
    okRelease: bool, okApp: bool, okLog: bool, okEvent: bool, okStatus: bool,
    failApp: bool, failLog: bool, failEvent: bool, failRelease: bool, failStatus: bool,
    startedLine: string, endLine: string)

  datatype BeginPc =
    | LoadApp
    | LoadRelease
    | MarkDeploying
    | LogStarted
    | EventStarted
    | Checkout
    | CreateRelease
    | ReloadRelease
    | Prepare

  datatype GoodPc = Route | OkRelease | OkApp | OkLog | OkEvent | OkStatus

  datatype BadPc = LoadInterrupted | FailApp | FailLog | FailEvent | FailRelease | FailStatus

  /** The next call: before Compose, during it, recording success, recording failure. */
  datatype Pc = Begin(b: BeginPc) | Run(written: nat) | Good(g: GoodPc) | Bad(f: BadPc) | Done

  /** `stored` is the release row once known; `clean` says no outcome write failed so far. */
  datatype Exec = Exec(
    d: Deployment, o: Outcomes, pc: Pc, stored: Option<string>, stage: Stage, clean: bool, error: bool
  )

  function Start(d: Deployment, o: Outcomes): Exec {
    Exec(d, o, Begin(LoadApp), None, StageLoad, true, false)
  }

  /** Finalizing the attempt of an earlier daemon, without running it again. */
  function StartInterrupted(d: Deployment, o: Outcomes): Exec {
    Exec(d, o, Bad(LoadInterrupted), None, StageRestart, true, false)
  }

  /** A write and what comes after it. */
  datatype Decision = Decision(write: Write, next: Exec)

  function Fail(x: Exec, stage: Stage): Decision {
    Decision(Nothing, x.(pc := Bad(FailApp), stage := stage, error := true))
  }

  function Go(write: Write, x: Exec, pc: Pc): Decision {
    Decision(write, x.(pc := pc))
  }

  /** An outcome write: when it does not land the rest of the list is still written. */
  function Record(ok: bool, write: Write, x: Exec, pc: Pc): Decision {
    if ok then Decision(write, x.(pc := pc)) else Decision(Nothing, x.(pc := pc, clean := false))
  }

  /** An append that goes through: appending nothing always does. */
  predicate Appends(up: bool, t: Tables, d: Deployment, output: string) {
    output == "" || (up && d.id in t.logs && t.logs[d.id].appId == d.appId)
  }

  ghost function DecideRelease(t: Tables, x: Exec): Decision {
    match FindRelease(t, x.d.appId, x.d.commit)
    case None => Go(Nothing, x, Begin(LogStarted))
    case Some(r) =>
      if r != x.d.releaseId then Fail(x.(stored := Some(r)), StageRelease)
      else Go(Nothing, x.(stored := Some(r)), Begin(MarkDeploying))
  }

  ghost function DecideCreate(t: Tables, x: Exec): Decision {
    if x.stored.Some? then Go(Nothing, x, Begin(Prepare))
    else if x.o.createRelease && x.d.releaseId !in t.releases && FindRelease(t, x.d.appId, x.d.commit) == None then
      Go(NewRelease(x.d.releaseId, x.d.appId, x.d.commit), x.(stored := Some(x.d.releaseId)), Begin(Prepare))
    else Go(Nothing, x, Begin(ReloadRelease))
  }

  /** From loading the app to the checked Compose file. */
  ghost function DecideBegin(t: Tables, x: Exec): Decision
    requires x.pc.Begin?
  {
    var d, o := x.d, x.o;
    match x.pc.b
    case LoadApp => if o.loadApp && d.appId in t.apps then Go(Nothing, x, Begin(LoadRelease)) else Fail(x, StageLoad)
    case LoadRelease => if o.loadRelease then DecideRelease(t, x) else Fail(x, StageRelease)
    case MarkDeploying =>
      if o.markDeploying then Go(MarkRelease(d.releaseId, ReleaseDeploying), x, Begin(LogStarted))
      else Fail(x, StageRelease)
    case LogStarted =>
      if Appends(o.logStarted, t, d, o.startedLine) then Go(AddLog(d.id, o.startedLine), x, Begin(EventStarted))
      else Fail(x, StageLog)
    case EventStarted =>
      if o.eventStarted && Event(d.id, Started) !in t.events
      then Go(AddEvent(Event(d.id, Started)), x, Begin(Checkout)) else Fail(x, StageStart)
    case Checkout => if o.checkout then Go(Nothing, x, Begin(CreateRelease)) else Fail(x, StageCheckout)
    case CreateRelease => DecideCreate(t, x)
    case ReloadRelease =>
      if o.reloadRelease && FindRelease(t, d.appId, d.commit) == Some(d.releaseId)
      then Go(Nothing, x.(stored := Some(d.releaseId)), Begin(Prepare)) else Fail(x, StageRelease)
    case Prepare => if o.prepare then Go(Nothing, x, Run(0)) else Fail(x, StageConfig)
  }

  /** Compose output is appended chunk by chunk; an append that fails ends the run. */
  function DecideRun(t: Tables, x: Exec): Decision
    requires x.pc.Run?
  {
    if x.pc.written < |x.o.output| && Appends(true, t, x.d, x.o.output[x.pc.written])
    then Go(AddLog(x.d.id, x.o.output[x.pc.written]), x, Run(x.pc.written + 1))
    else if x.pc.written >= |x.o.output| && x.o.compose && x.o.flush then Go(Nothing, x, Good(Route))
    else Fail(x, StageCompose)
  }

  /** Every outcome is recorded even when an earlier write of the list failed. */
  function DecideGood(t: Tables, x: Exec): Decision
    requires x.pc.Good?
  {
    var d, o := x.d, x.o;
    match x.pc.g
    case Route => Record(o.route, Nothing, x, Good(OkRelease))
    case OkRelease => Record(o.okRelease && d.releaseId in t.releases, SucceedRelease(d.releaseId), x, Good(OkApp))
    case OkApp => Record(o.okApp && d.appId in t.apps, SetApp(d.appId, AppHealthy), x, Good(OkLog))
    case OkLog => Record(Appends(o.okLog, t, d, o.endLine), AddLog(d.id, o.endLine), x, Good(OkEvent))
    case OkEvent =>
      var event := Event(d.id, DeploySucceeded);
      Record(o.okEvent && event !in t.events, AddEvent(event), x, Good(OkStatus))
    case OkStatus =>
      if o.okStatus && d.id in t.deployments
      then
        var message := if x.clean then NoMessage else OutcomeNotRecorded;
        Decision(EndAttempt(d.id, Succeeded, message), x.(pc := Done, error := !x.clean))
      else Decision(Nothing, x.(pc := Done, error := true))
  }

  ghost function DecideBad(t: Tables, x: Exec): Decision
    requires x.pc.Bad?
  {
    var d, o := x.d, x.o;
    match x.pc.f
    case LoadInterrupted =>
      if o.loadRelease then Go(Nothing, x.(stored := FindRelease(t, d.appId, d.commit)), Bad(FailApp))
      else Decision(Nothing, x.(pc := Done, error := true))
    case FailApp => Record(o.failApp && d.appId in t.apps, SetApp(d.appId, AppFailed), x, Bad(FailLog))
    case FailLog => Record(Appends(o.failLog, t, d, o.endLine), AddLog(d.id, o.endLine), x, Bad(FailEvent))
    case FailEvent =>
      var event := Event(d.id, DeployFailed);
      Record(o.failEvent && event !in t.events, AddEvent(event), x, Bad(FailRelease))
    case FailRelease =>
      if x.stored.None? then Go(Nothing, x, Bad(FailStatus))
      else Record(o.failRelease, MarkRelease(x.stored.value, ReleaseFailed), x, Bad(FailStatus))
    case FailStatus =>
      if o.failStatus && d.id in t.deployments
      then Decision(EndAttempt(d.id, Failed, FailedAt(x.stage)), x.(pc := Done, error := x.error || !x.clean))
      else Decision(Nothing, x.(pc := Done, error := true))
  }

  ghost function Decide(t: Tables, x: Exec): Decision {
    match x.pc
    case Begin(_) => DecideBegin(t, x)
    case Run(_) => DecideRun(t, x)
    case Good(_) => DecideGood(t, x)
    case Bad(_) => DecideBad(t, x)
    case Done => Decision(Nothing, x)
  }

  /** The execution is at its final status write, and that call does not go through. */
  predicate StatusFails(x: Exec) {
    || (x.pc == Good(OkStatus) && !x.o.okStatus)
    || (x.pc == Bad(FailStatus) && !x.o.failStatus)
  }

  function BeginRank(b: BeginPc): nat {
    match b
    case LoadApp => 9 case LoadRelease => 8 case MarkDeploying => 7 case LogStarted => 6 case EventStarted => 5
    case Checkout => 4 case CreateRelease => 3 case ReloadRelease => 2 case Prepare => 1
  }

  function GoodRank(g: GoodPc): nat {
    match g
    case Route => 6
    case OkRelease => 5
    case OkApp => 4
    case OkLog => 3
    case OkEvent => 2
    case OkStatus => 1
  }

  function BadRank(f: BadPc): nat {
    match f
    case LoadInterrupted => 6
    case FailApp => 5
    case FailLog => 4
    case FailEvent => 3
    case FailRelease => 2
    case FailStatus => 1
  }

  /** Store statements and calls still to come, at most, outside the Compose run. */
  function Rank(pc: Pc): nat {
    match pc
    case Begin(b) => 20 + BeginRank(b)
    case Run(_) => 15
    case Good(g) => 8 + GoodRank(g)
    case Bad(f) => BadRank(f)
    case Done => 0
  }

  function Unwritten(x: Exec): nat {
    if x.pc.Run? && x.pc.written <= |x.o.output| then |x.o.output| - x.pc.written else 0
  }

  ghost predicate Progress(x: Exec, x': Exec) {
    && x'.d == x.d && x'.o == x.o
    && (Rank(x'.pc) < Rank(x.pc) || (Rank(x'.pc) == Rank(x.pc) && Unwritten(x') < Unwritten(x)))
  }

  lemma BeginProgresses(t: Tables, x: Exec)
    requires x.pc.Begin?
    ensures Progress(x, DecideBegin(t, x).next)
  {
  }

  lemma RunProgresses(t: Tables, x: Exec)
    requires x.pc.Run?
    ensures Progress(x, DecideRun(t, x).next)
  {
  }

  lemma GoodProgresses(t: Tables, x: Exec)
    requires x.pc.Good?
    ensures Progress(x, DecideGood(t, x).next)
  {
  }

  lemma BadProgresses(t: Tables, x: Exec)
    requires x.pc.Bad?
    ensures Progress(x, DecideBad(t, x).next)
  {
  }

  lemma StepProgresses(t: Tables, x: Exec)
    requires x.pc != Done
    ensures Progress(x, Decide(t, x).next)
  {
    match x.pc
    case Begin(_) => BeginProgresses(t, x);
    case Run(_) => RunProgresses(t, x);
    case Good(_) => GoodProgresses(t, x);
    case Bad(_) => BadProgresses(t, x);
  }

  /** All remaining steps with nothing else running in between. */
  ghost function RunOn(t: Tables, x: Exec): (Tables, Exec)
    decreases Rank(x.pc), Unwritten(x)
  {
    if x.pc == Done then (t, x) else
      StepProgresses(t, x);
      RunOn(Apply(t, Decide(t, x).write), Decide(t, x).next)
  }

  /** The run gets past Compose: everything before it went through, and so did Compose and the flush. */
  ghost predicate ReachesGood(t: Tables, x: Exec)
    decreases Rank(x.pc), Unwritten(x)
  {
    if x.pc.Begin? || x.pc.Run? then
      StepProgresses(t, x);
      ReachesGood(Apply(t, Decide(t, x).write), Decide(t, x).next)
    else x.pc.Good?
  }

  /** The outcome of each write up to the current one, as the waiter and the history see it. */
  ghost predicate RecordedSoFar(t: Tables, x: Exec)
    requires x.pc.Good?
  {
    && (x.clean && GoodRank(x.pc.g) <= 4 ==>
           x.d.releaseId in t.releases && t.releases[x.d.releaseId].status == ReleaseSucceeded)
    && (x.clean && GoodRank(x.pc.g) <= 3 ==> x.d.appId in t.apps && t.apps[x.d.appId] == AppHealthy)
    && (x.clean && GoodRank(x.pc.g) <= 1 ==> Event(x.d.id, DeploySucceeded) in t.events)
  }

  /** Every outcome write still to come goes through and finds its row. */
  ghost predicate WillRecord(t: Tables, x: Exec)
    requires x.pc.Good?
  {
    var left := GoodRank(x.pc.g);
    && (left >= 6 ==> x.o.route)
    && (left >= 5 ==> x.o.okRelease && x.d.releaseId in t.releases)
    && (left >= 4 ==> x.o.okApp && x.d.appId in t.apps)
    && (left >= 3 ==> Appends(x.o.okLog, t, x.d, x.o.endLine))
    && (left >= 2 ==> x.o.okEvent && Event(x.d.id, DeploySucceeded) !in t.events)
    && x.o.okStatus
  }

  ghost predicate OutcomeRecorded(t: Tables, d: Deployment) {
    && d.releaseId in t.releases && t.releases[d.releaseId].status == ReleaseSucceeded
    && d.appId in t.apps && t.apps[d.appId] == AppHealthy
    && Event(d.id, DeploySucceeded) in t.events
  }

  lemma GoodStep(t: Tables, x: Exec)
    requires x.pc.Good? && x.pc.g != OkStatus && RecordedSoFar(t, x)
    ensures var s := DecideGood(t, x); s.next.pc.Good? && RecordedSoFar(Apply(t, s.write), s.next)
    ensures Apply(t, DecideGood(t, x).write).deployments == t.deployments
  {
  }

  lemma GoodStepRecords(t: Tables, x: Exec)
    requires x.pc.Good? && x.pc.g != OkStatus
    ensures var s := DecideGood(t, x);
            s.next.pc.Good? && (x.clean && WillRecord(t, x) <==> s.next.clean && WillRecord(Apply(t, s.write), s.next))
  {
  }

  /**
   Past Compose the attempt succeeds: if the status write lands the row says so, and its
   error column is empty exactly when the execution reports no error, which means that
   every outcome was recorded.
  */
  lemma {:induction false} GoodEndsSucceeded(t: Tables, x: Exec)
    requires x.pc.Good? && x.d.id in t.deployments && RecordedSoFar(t, x)
    ensures var (t', x') := RunOn(t, x);
            var message := if x'.error then OutcomeNotRecorded else NoMessage;
      && t'.deployments == (if x.o.okStatus
                            then Ended(t, x.d.id, Succeeded, message)
                            else t.deployments)
      && (!x'.error <==> x.clean && WillRecord(t, x))
      && (!x'.error ==> OutcomeRecorded(t', x.d))
    decreases Rank(x.pc)
  {
    var s := DecideGood(t, x);
    StepProgresses(t, x);
    if x.pc.g == OkStatus {
      assert RunOn(Apply(t, s.write), s.next) == (Apply(t, s.write), s.next);
    } else {
      GoodStep(t, x);
      GoodStepRecords(t, x);
      GoodEndsSucceeded(Apply(t, s.write), s.next);
    }
  }

  lemma BadStep(t: Tables, x: Exec)
    requires x.pc.Bad? && x.pc.f != LoadInterrupted && x.pc.f != FailStatus
    ensures var next := DecideBad(t, x).next;
            next.pc.Bad? && next.pc.f != LoadInterrupted && next.error == x.error && next.stage == x.stage
    ensures Apply(t, DecideBad(t, x).write).deployments == t.deployments
  {
  }

  /** Whatever else could not be recorded, a landed status write leaves the row failed. */
  lemma {:induction false} BadEndsFailed(t: Tables, x: Exec)
    requires x.pc.Bad? && x.pc.f != LoadInterrupted && x.d.id in t.deployments
    ensures var (t', x') := RunOn(t, x);
      && t'.deployments == (if x.o.failStatus
                            then Ended(t, x.d.id, Failed, FailedAt(x.stage))
                            else t.deployments)
      && (x.error ==> x'.error)
    decreases Rank(x.pc)
  {
    var s := DecideBad(t, x);
    StepProgresses(t, x);
    if x.pc.f == FailStatus {
      assert RunOn(Apply(t, s.write), s.next) == (Apply(t, s.write), s.next);
    } else {
      BadStep(t, x);
      BadEndsFailed(Apply(t, s.write), s.next);
    }
  }

  /** A step before Compose: the failure path or the next early step, and no attempt row written. */
  ghost predicate Early(t: Tables, x: Exec, s: Decision) {
    && s.next.clean == x.clean
    && (s.next.pc.Begin? || s.next.pc.Run? || s.next.pc == Good(Route) || s.next.pc == Bad(FailApp))
    && s.next.error == (x.error || s.next.pc.Bad?)
    && Apply(t, s.write).deployments == t.deployments
  }

  lemma BeginIsEarly(t: Tables, x: Exec)
    requires x.pc.Begin?
    ensures Early(t, x, DecideBegin(t, x)) && !DecideBegin(t, x).next.pc.Good?
  {
    if x.pc.b == LoadRelease {
      assert DecideBegin(t, x).write == Nothing;
    } else if x.pc.b == CreateRelease {
      assert Early(t, x, DecideCreate(t, x));
    }
  }

  lemma EarlyStep(t: Tables, x: Exec)
    requires x.pc.Begin? || x.pc.Run?
    ensures Early(t, x, Decide(t, x))
  {
    if x.pc.Begin? {
      BeginIsEarly(t, x);
    }
  }

  /** An execution changes its own row only, by one status write; which one depends on whether it gets past Compose. */
  lemma {:induction false} EarlyRunEnds(t: Tables, x: Exec)
    requires (x.pc.Begin? || x.pc.Run?) && x.d.id in t.deployments && !x.error && x.clean
    ensures var (t', x') := RunOn(t, x);
            var landed := if ReachesGood(t, x) then x.o.okStatus else x.o.failStatus;
      && t'.deployments.Keys == t.deployments.Keys
      && (forall id | id in t.deployments && id != x.d.id :: t'.deployments[id] == t.deployments[id])
      && (!landed ==> t'.deployments[x.d.id] == t.deployments[x.d.id] && x'.error)
      && (landed && ReachesGood(t, x) ==>
            && t'.deployments[x.d.id].status == Succeeded
            && (t'.deployments[x.d.id].errorMessage == NoMessage <==> !x'.error))
      && (landed && !ReachesGood(t, x) ==> t'.deployments[x.d.id].status == Failed && x'.error)
      && (!x'.error ==> OutcomeRecorded(t', x.d))
    decreases Rank(x.pc), Unwritten(x)
  {
    var s := Decide(t, x);
    var t1 := Apply(t, s.write);
    StepProgresses(t, x);
    EarlyStep(t, x);
    match s.next.pc
    case Good(_) => GoodEndsSucceeded(t1, s.next);
    case Bad(_) => BadEndsFailed(t1, s.next);
    case Begin(_) => EarlyRunEnds(t1, s.next);
    case Run(_) => EarlyRunEnds(t1, s.next);
  }
}
