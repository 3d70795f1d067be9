/**
 How an execution comes out, told before it starts: from the rows it finds and from which of
 its calls go through.
*/
module Outcome {
  import opened Tables
  import opened Results
  import opened Executor

  /** The release of the commit is the one the attempt names, or it can be made. */
  ghost predicate ReleaseUsable(t: Tables, d: Deployment, o: Outcomes) {
    match FindRelease(t, d.appId, d.commit)
    case Some(r) => r == d.releaseId && o.markDeploying
    case None => o.createRelease && d.releaseId !in t.releases
  }

  /** All output from a chunk on can be appended. */
  predicate OutputFits(t: Tables, d: Deployment, output: seq<string>, from: nat) {
    forall i | from <= i < |output| :: Appends(true, t, d, output[i])
  }

  /** Everything up to Compose goes through, and so do the Compose run and the flush of its output. */
  ghost predicate Deploys(t: Tables, d: Deployment, o: Outcomes) {
    && o.loadApp && d.appId in t.apps
    && o.loadRelease && ReleaseUsable(t, d, o)
    && Appends(o.logStarted, t, d, o.startedLine)
    && o.eventStarted && Event(d.id, Started) !in t.events
    && o.checkout && o.prepare
    && OutputFits(t, d, o.output, 0) && o.compose && o.flush
  }

  /** Every outcome of a deployment that went through can be recorded. */
  predicate Records(t: Tables, d: Deployment, o: Outcomes) {
    && o.route && o.okRelease && o.okApp
    && Appends(o.okLog, t, d, o.endLine)
    && o.okEvent && Event(d.id, DeploySucceeded) !in t.events
    && o.okStatus
  }

  // ---------- the same from any point before Compose ends ----------

  function Left(x: Exec): nat {
    if x.pc.Begin? then BeginRank(x.pc.b) else 0
  }

  /** The release known when it comes to making one. */
  ghost function StoredLater(t: Tables, x: Exec): Option<string> {
    var found := FindRelease(t, x.d.appId, x.d.commit);
    if Left(x) >= 8 && found.Some? then found else x.stored
  }

  ghost predicate IsOwnRelease(t: Tables, x: Exec) {
    x.o.reloadRelease && FindRelease(t, x.d.appId, x.d.commit) == Some(x.d.releaseId)
  }

  ghost predicate ReleaseAhead(t: Tables, x: Exec) {
    var left, found := Left(x), FindRelease(t, x.d.appId, x.d.commit);
    && (left >= 8 ==> x.o.loadRelease && (found.Some? ==> found.value == x.d.releaseId && x.o.markDeploying))
    && (left == 7 ==> x.o.markDeploying)
    && (left >= 3 && StoredLater(t, x).None? ==>
          (x.o.createRelease && x.d.releaseId !in t.releases && found.None?) || IsOwnRelease(t, x))
    && (left == 2 ==> IsOwnRelease(t, x))
  }

  /** What is left to do up to Compose goes through. */
  ghost predicate WillCompose(t: Tables, x: Exec) {
    var d, o, left := x.d, x.o, Left(x);
    && (left >= 9 ==> o.loadApp && d.appId in t.apps)
    && ReleaseAhead(t, x)
    && (left >= 6 ==> Appends(o.logStarted, t, d, o.startedLine))
    && (left >= 5 ==> o.eventStarted && Event(d.id, Started) !in t.events)
    && (left >= 4 ==> o.checkout)
    && (left >= 1 ==> o.prepare)
  }

  /** What is left to do up to the end of Compose goes through. */
  ghost predicate WillDeploy(t: Tables, x: Exec) {
    && WillCompose(t, x)
    && OutputFits(t, x.d, x.o.output, if x.pc.Run? then x.pc.written else 0) && x.o.compose && x.o.flush
  }

  lemma StartWillDeploy(t: Tables, d: Deployment, o: Outcomes)
    ensures WillDeploy(t, Start(d, o)) <==> Deploys(t, d, o)
  {
  }

  /** A release that is being marked was found. */
  predicate Marks(x: Exec) {
    x.pc == Begin(MarkDeploying) ==> x.stored.Some?
  }

  /** A step before Compose: what is left goes through exactly if the step does and what is left then does. */
  ghost predicate StepsAhead(t: Tables, x: Exec, s: Decision) {
    && Marks(s.next)
    && (s.next.pc.Bad? ==> !WillDeploy(t, x) && (x.pc.Begin? ==> !WillCompose(t, x)))
    && (s.next.pc.Begin? || s.next.pc.Run? ==> (WillCompose(t, x) <==> WillCompose(Apply(t, s.write), s.next)))
    && (s.next.pc.Good? ==> WillDeploy(t, x))
    && (s.next.pc.Begin? || s.next.pc.Run? ==> (WillDeploy(t, x) <==> WillDeploy(Apply(t, s.write), s.next)))
  }

  predicate HasLog(t: Tables, d: Deployment) {
    d.id in t.logs && t.logs[d.id].appId == d.appId
  }

  /** The rows that what is left of the execution still looks at are alike. */
  predicate LooksAlike(t: Tables, t': Tables, x: Exec) {
    && (Left(x) >= 9 ==> (x.d.appId in t.apps <==> x.d.appId in t'.apps))
    && (HasLog(t, x.d) <==> HasLog(t', x.d))
    && (Left(x) >= 5 ==> (Event(x.d.id, Started) in t.events <==> Event(x.d.id, Started) in t'.events))
    && (Left(x) >= 8 || Left(x) == 2 || x.stored.None? ==> t'.releases == t.releases)
  }

  lemma AlikeOutput(t: Tables, t': Tables, d: Deployment, output: seq<string>, from: nat)
    requires HasLog(t, d) <==> HasLog(t', d)
    ensures OutputFits(t, d, output, from) <==> OutputFits(t', d, output, from)
  {
    assert forall i | from <= i < |output| :: Appends(true, t, d, output[i]) <==> Appends(true, t', d, output[i]);
  }

  lemma AlikeRelease(t: Tables, t': Tables, x: Exec)
    requires LooksAlike(t, t', x)
    ensures ReleaseAhead(t, x) <==> ReleaseAhead(t', x)
  {
  }

  /** Then it goes through in both or in neither. */
  lemma AlikeWillDeploy(t: Tables, t': Tables, x: Exec)
    requires LooksAlike(t, t', x)
    ensures WillCompose(t, x) <==> WillCompose(t', x)
    ensures WillDeploy(t, x) <==> WillDeploy(t', x)
  {
    AlikeRelease(t, t', x);
    AlikeOutput(t, t', x.d, x.o.output, if x.pc.Run? then x.pc.written else 0);
  }

  lemma LoadStepsAhead(t: Tables, x: Exec)
    requires x.pc.Begin? && Left(x) >= 8 && Marks(x)
    ensures StepsAhead(t, x, DecideBegin(t, x))
  {
  }

  lemma MarkStepsAhead(t: Tables, x: Exec)
    requires x.pc == Begin(MarkDeploying) && Marks(x)
    ensures StepsAhead(t, x, DecideBegin(t, x))
  {
    var s := DecideBegin(t, x);
    if s.next.pc.Begin? {
      AlikeWillDeploy(t, Apply(t, s.write), s.next);
    }
  }

  lemma LogStepsAhead(t: Tables, x: Exec)
    requires x.pc == Begin(LogStarted)
    ensures StepsAhead(t, x, DecideBegin(t, x))
  {
    var s := DecideBegin(t, x);
    assert s.next.pc.Begin? ==> (WillCompose(t, x) <==> WillCompose(t, s.next));
    if s.next.pc.Begin? {
      AlikeWillDeploy(t, Apply(t, s.write), s.next);
    }
  }

  lemma EventStepsAhead(t: Tables, x: Exec)
    requires x.pc == Begin(EventStarted)
    ensures StepsAhead(t, x, DecideBegin(t, x))
  {
    var s := DecideBegin(t, x);
    assert s.next.pc.Begin? ==> (WillCompose(t, x) <==> WillCompose(t, s.next));
    if s.next.pc.Begin? {
      AlikeWillDeploy(t, Apply(t, s.write), s.next);
    }
  }

  lemma CreateStepsAhead(t: Tables, x: Exec)
    requires x.pc == Begin(CreateRelease)
    ensures StepsAhead(t, x, DecideBegin(t, x))
  {
    var s := DecideBegin(t, x);
    assert s.next.pc == Begin(Prepare) ==> (WillCompose(t, x) <==> WillCompose(t, s.next));
    if s.next.pc == Begin(Prepare) {
      AlikeWillDeploy(t, Apply(t, s.write), s.next);
    }
  }

  lemma LateStepsAhead(t: Tables, x: Exec)
    requires x.pc == Begin(Checkout) || x.pc == Begin(ReloadRelease) || x.pc == Begin(Prepare)
    ensures StepsAhead(t, x, DecideBegin(t, x))
  {
    assert DecideBegin(t, x).write == Nothing;
  }

  lemma BeginStepsAhead(t: Tables, x: Exec)
    requires x.pc.Begin? && Marks(x)
    ensures StepsAhead(t, x, DecideBegin(t, x))
  {
    match x.pc.b
    case LoadApp => LoadStepsAhead(t, x);
    case LoadRelease => LoadStepsAhead(t, x);
    case MarkDeploying => MarkStepsAhead(t, x);
    case LogStarted => LogStepsAhead(t, x);
    case EventStarted => EventStepsAhead(t, x);
    case CreateRelease => CreateStepsAhead(t, x);
    case Checkout => LateStepsAhead(t, x);
    case ReloadRelease => LateStepsAhead(t, x);
    case Prepare => LateStepsAhead(t, x);
  }

  lemma RunStepsAhead(t: Tables, x: Exec)
    requires x.pc.Run?
    ensures StepsAhead(t, x, DecideRun(t, x))
  {
    var written, output := x.pc.written, x.o.output;
    var s := DecideRun(t, x);
    assert written < |output| && OutputFits(t, x.d, output, written) ==> Appends(true, t, x.d, output[written]);
    assert OutputFits(t, x.d, output, written) <==>
           OutputFits(t, x.d, output, written + 1) && (written < |output| ==> Appends(true, t, x.d, output[written]));
  }

  lemma {:induction false} ReachesGoodIff(t: Tables, x: Exec)
    requires (x.pc.Begin? || x.pc.Run?) && Marks(x)
    ensures ReachesGood(t, x) <==> WillDeploy(t, x)
    decreases Rank(x.pc), Unwritten(x)
  {
    StepProgresses(t, x);
    var s := Decide(t, x);
    if x.pc.Run? {
      RunStepsAhead(t, x);
    } else {
      BeginStepsAhead(t, x);
    }
    EarlyStep(t, x);
    if s.next.pc.Begin? || s.next.pc.Run? {
      ReachesGoodIff(Apply(t, s.write), s.next);
    }
  }

  /** An execution gets past Compose exactly if everything up to it goes through and finds its rows. */
  lemma StartReachesGoodIff(t: Tables, d: Deployment, o: Outcomes)
    ensures ReachesGood(t, Start(d, o)) <==> Deploys(t, d, o)
  {
    ReachesGoodIff(t, Start(d, o));
    StartWillDeploy(t, d, o);
  }

  // ---------- recording success ----------

  /** Where an execution that gets past Compose starts recording its success. */
  ghost function AtGood(t: Tables, x: Exec): (good: (Tables, Exec))
    requires ReachesGood(t, x)
    ensures good.1.pc.Good?
    decreases Rank(x.pc), Unwritten(x)
  {
    if x.pc.Good? then (t, x)
    else
      StepProgresses(t, x);
      AtGood(Apply(t, Decide(t, x).write), Decide(t, x).next)
  }

  /** The release, once found or made, is the one the attempt names. */
  predicate ReleaseKnown(t: Tables, x: Exec) {
    && (x.stored.Some? ==> x.d.releaseId in t.releases)
    && (x.pc == Begin(MarkDeploying) || x.pc == Begin(Prepare) || x.pc.Run? || x.pc.Good? ==> x.stored.Some?)
  }

  /** What recording success looks at is as it was. */
  predicate KeepsForRecords(t: Tables, t': Tables, d: Deployment) {
    && t'.deployments == t.deployments
    && (d.appId in t'.apps <==> d.appId in t.apps) && (HasLog(t', d) <==> HasLog(t, d))
    && (Event(d.id, DeploySucceeded) in t'.events <==> Event(d.id, DeploySucceeded) in t.events)
  }

  /** The writes before Compose. */
  predicate IsEarlyWrite(w: Write, d: Deployment) {
    w == Nothing || w.NewRelease? || w.MarkRelease? || w.AddLog? || w == AddEvent(Event(d.id, Started))
  }

  lemma BeginWritesEarly(t: Tables, x: Exec)
    requires x.pc.Begin?
    ensures IsEarlyWrite(DecideBegin(t, x).write, x.d) && DecideBegin(t, x).next.d == x.d
  {
  }

  lemma BeginKnowsRelease(t: Tables, x: Exec)
    requires x.pc.Begin? && ReleaseKnown(t, x)
    ensures var s := DecideBegin(t, x);
            !s.next.pc.Bad? ==> ReleaseKnown(t, s.next) || s.write == NewRelease(x.d.releaseId, x.d.appId, x.d.commit)
  {
  }

  lemma EarlyWriteKeeps(t: Tables, w: Write, d: Deployment)
    requires IsEarlyWrite(w, d)
    ensures KeepsForRecords(t, Apply(t, w), d) && t.releases.Keys <= Apply(t, w).releases.Keys
  {
  }

  lemma EarlyKeepsForRecords(t: Tables, x: Exec)
    requires (x.pc.Begin? || x.pc.Run?) && ReleaseKnown(t, x)
    ensures var s := Decide(t, x);
            KeepsForRecords(t, Apply(t, s.write), x.d) && (!s.next.pc.Bad? ==> ReleaseKnown(Apply(t, s.write), s.next))
  {
    if x.pc.Begin? {
      BeginWritesEarly(t, x);
      BeginKnowsRelease(t, x);
    }
    EarlyWriteKeeps(t, Decide(t, x).write, x.d);
  }

  lemma {:induction false} RunsFromGood(t: Tables, x: Exec)
    requires (x.pc.Begin? || x.pc.Run?) && ReachesGood(t, x) && x.clean && !x.error && ReleaseKnown(t, x)
    ensures var (t1, x1) := AtGood(t, x);
      && RunOn(t, x) == RunOn(t1, x1) && x1.pc == Good(Route) && x1.d == x.d && x1.o == x.o && x1.clean
      && KeepsForRecords(t, t1, x.d) && x.d.releaseId in t1.releases
    decreases Rank(x.pc), Unwritten(x)
  {
    StepProgresses(t, x);
    EarlyStep(t, x);
    EarlyKeepsForRecords(t, x);
    var s := Decide(t, x);
    if !s.next.pc.Good? {
      RunsFromGood(Apply(t, s.write), s.next);
    }
  }

  lemma RecordsAtGood(t: Tables, d: Deployment, o: Outcomes)
    requires Deploys(t, d, o) && ReachesGood(t, Start(d, o))
    ensures WillRecord(AtGood(t, Start(d, o)).0, AtGood(t, Start(d, o)).1) <==> Records(t, d, o)
  {
    RunsFromGood(t, Start(d, o));
  }

  // ---------- how executions end ----------

  /** The status write an execution comes to goes through. */
  ghost predicate StatusLands(t: Tables, d: Deployment, o: Outcomes) {
    if Deploys(t, d, o) then o.okStatus else o.failStatus
  }

  /**
   For every pattern of failing calls: an execution changes its own row only, by one status
   write. It is succeeded exactly if everything up to Compose went through and the Compose run
   and the flush had no error, and failed otherwise; without the write it stays as it was and
   the execution reports an error.
  */
  lemma ExecutionEnds(t: Tables, d: Deployment, o: Outcomes)
    requires d.id in t.deployments
    ensures var (t', x') := RunOn(t, Start(d, o));
      && t'.deployments.Keys == t.deployments.Keys
      && (forall id | id in t.deployments && id != d.id :: t'.deployments[id] == t.deployments[id])
      && (!StatusLands(t, d, o) ==> t'.deployments[d.id] == t.deployments[d.id] && x'.error)
      && (StatusLands(t, d, o) ==> t'.deployments[d.id].status == if Deploys(t, d, o) then Succeeded else Failed)
      && (StatusLands(t, d, o) && Deploys(t, d, o) ==>
             (t'.deployments[d.id].errorMessage == NoMessage <==> Records(t, d, o)))
      && (!x'.error <==> Deploys(t, d, o) && Records(t, d, o))
      && (!x'.error ==> OutcomeRecorded(t', d))
  {
    var x := Start(d, o);
    StartReachesGoodIff(t, d, o);
    EarlyRunEnds(t, x);
    if Deploys(t, d, o) {
      RecordsAtGood(t, d, o);
      RunsFromGood(t, x);
      GoodEndsSucceeded(AtGood(t, x).0, AtGood(t, x).1);
    }
  }
}
