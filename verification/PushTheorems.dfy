/** What the invariant means for every run of pushes, redeploys, the daemon and its crashes. */
module PushTheorems {
  import Ordering
  import opened Tables
  import opened Results
  import opened Executor
  import opened PushProtocol
  import opened PushInvariant
  import opened PushFrames
  import opened PushSteps
  import opened PushSafety

  // ---------- what a step does to one attempt ----------

  /** Nothing may discard the attempt any more: its ref update happened, or it is a redeploy. */
  ghost predicate Permanent(c: Core, id: Id) {
    id in c.t.deployments && (id in c.accepted || c.t.deployments[id].trigger == Redeploy)
  }

  function ContentOf(t: Tables, id: Id): string
    requires id in t.logs
  {
    t.logs[id].log.content
  }

  /** How a permanent attempt, its log and its execution count may move. */
  ghost predicate Tracks(c: Core, c': Core, id: Id) {
    && id in c.t.deployments && id in c'.t.deployments
    && SameAttempt(c.t.deployments[id], c'.t.deployments[id])
    && (id in c.accepted ==> id in c'.accepted)
    && (c.t.deployments[id].status != Pending ==> c'.t.deployments[id].status != Pending)
    && (!IsActive(c.t.deployments[id]) ==> c'.t.deployments[id] == c.t.deployments[id])
    && (id in c'.t.logs ==>
          && id in c.t.logs && ContentOf(c.t, id) <= ContentOf(c'.t, id)
          && c'.t.logs[id].appId == c.t.logs[id].appId)
    && (!IsActive(c.t.deployments[id]) && id in c'.t.logs ==> c'.t.logs[id] == c.t.logs[id])
  }

  lemma ReserveTracks(c: Core, m: Deployment, expected: string, t': Tables, id: Id)
    requires RowsOk(c) && LogsOk(c.t) && Reserve(c.t, m, expected) == Ok(t') && m.id !in c.t.deployments
    requires ClockAhead(c.t, m)
    requires IsReservation(m, m.trigger) && (m.trigger == Push ==> IsOldId(c, m.appId, expected))
    requires Permanent(c, id)
    ensures Tracks(c, c.(t := t'), id)
  {
    var gone := ReserveShape(c.t, m, expected, t');
    ReplacedAreUntouched(c, m, expected, gone, t');
    ReserveKeepsLogs(c.t, m, expected, gone, t');
    var cleared := ReserveClears(c.t, m, expected, gone, t');
    assert RowOk(c, id);
    assert id in t'.logs ==> id in cleared.logs;
    forall g | g in gone ensures c.t.deployments[g].trigger == Push {
    }
  }

  lemma PerformTracks(c: Core, x: Exec, id: Id)
    requires LogsOk(c.t) && ExecOk(c, x) && id in c.t.deployments
    ensures Tracks(c, Perform(c, x), id)
  {
    PerformRows(c, x);
    ExecuteKeepsLogs(c, x);
  }

  /** Steps that leave rows and logs as they are, up to the claim of a queued attempt. */
  lemma QuietTracks(c: Core, c': Core, id: Id)
    requires id in c.t.deployments && c'.t.logs == c.t.logs && c.accepted <= c'.accepted
    requires c'.t.deployments == c.t.deployments
      || exists q :: q in Claimable(c.t) && c'.t == Claimed(c.t, q)
    ensures Tracks(c, c', id)
  {
  }

  lemma ReceiveTracks(w: World, call: Call, id: Id)
    requires Inv(w) && Enabled(w, call) && IsReceiveCall(call) && Permanent(w.c, id)
    ensures Tracks(w.c, Do(w, call).c, id)
  {
    if call.PreReceive? {
      var r := Reserve(w.c.t, call.m, call.expected);
      if r.Ok? {
        ReserveTracks(w.c, call.m, call.expected, r.value, id);
      }
    }
  }

  lemma DaemonTracks(w: World, call: Call, id: Id)
    requires Inv(w) && Enabled(w, call) && IsDaemonCall(call) && Permanent(w.c, id)
    ensures Tracks(w.c, Do(w, call).c, id)
  {
    match call
    case ExecuteStep => PerformTracks(w.c, w.daemon.x, id);
    case FinalizeStep => PerformTracks(w.c, w.daemon.x, id);
    case Claim(o) =>
      assert Oldest(w.c.t, Claimable(w.c.t)) in Claimable(w.c.t);
      QuietTracks(w.c, Do(w, call).c, id);
    case WorkerLock(_) => QuietTracks(w.c, w.c, id);
    case CrashDaemon => QuietTracks(w.c, w.c, id);
    case Boot(_) => QuietTracks(w.c, w.c, id);
    case FinalizeNext(_) => QuietTracks(w.c, w.c, id);
    case RestartDone => QuietTracks(w.c, w.c, id);
  }

  lemma StepTracks(w: World, call: Call, id: Id)
    requires Inv(w) && Enabled(w, call) && Permanent(w.c, id)
    ensures Tracks(w.c, Do(w, call).c, id)
    ensures Permanent(Do(w, call).c, id)
  {
    if IsReceiveCall(call) {
      ReceiveTracks(w, call, id);
    } else if IsDaemonCall(call) {
      DaemonTracks(w, call, id);
    } else {
      OtherTracks(w, call, id);
    }
    TracksPermanent(w.c, Do(w, call).c, id);
  }

  lemma TracksPermanent(c: Core, c': Core, id: Id)
    requires Permanent(c, id) && Tracks(c, c', id)
    ensures Permanent(c', id)
  {
  }

  lemma RedeployTracks(w: World, m: Deployment, id: Id)
    requires Inv(w) && Enabled(w, ReserveRedeploy(m)) && Permanent(w.c, id)
    ensures Tracks(w.c, Do(w, ReserveRedeploy(m)).c, id)
  {
    var r := Reserve(w.c.t, m, "");
    if r.Ok? {
      ReserveTracks(w.c, m, "", r.value, id);
    } else {
      QuietTracks(w.c, w.c, id);
    }
  }

  lemma OtherTracks(w: World, call: Call, id: Id)
    requires Inv(w) && Enabled(w, call) && !IsReceiveCall(call) && !IsDaemonCall(call) && Permanent(w.c, id)
    ensures Tracks(w.c, Do(w, call).c, id)
  {
    match call
    case ReserveRedeploy(m) => RedeployTracks(w, m, id);
    case RecoverStep(appId, listing, up) => RecoveryTracks(w, appId, listing, up, id);
    case _ =>
      LocksOnly(w, call);
      QuietTracks(w.c, w.c, id);
  }

  lemma RecoveryTracks(w: World, appId: string, listing: seq<Deployment>, up: bool, id: Id)
    requires Inv(w) && Enabled(w, RecoverStep(appId, listing, up)) && Permanent(w.c, id)
    ensures Tracks(w.c, Do(w, RecoverStep(appId, listing, up)).c, id)
  {
    var c := Recover(w.c, appId, RecoveryAt(w, appId), listing, up).0;
    assert Do(w, RecoverStep(appId, listing, up)).c == c;
    QuietTracks(w.c, c, id);
  }

  lemma LocksOnly(w: World, call: Call)
    requires Enabled(w, call) && (call.Attach? || call.Unlock? || call.KillReceive?)
    ensures Do(w, call).c == w.c
  {
  }

  lemma TracksCompose(a: Core, b: Core, c: Core, id: Id)
    requires Tracks(a, b, id) && Tracks(b, c, id)
    ensures Tracks(a, c, id)
  {
  }

  /** A permanent attempt keeps its row over every run; what is terminal stays as it is. */
  lemma {:induction false} RunsTrack(w: World, calls: seq<Call>, id: Id)
    requires Inv(w) && Runs(w, calls) && Permanent(w.c, id)
    ensures Tracks(w.c, After(w, calls).c, id) && Permanent(After(w, calls).c, id)
    decreases |calls|
  {
    if calls == [] {
      QuietTracks(w.c, w.c, id);
    } else {
      var w1 := Do(w, calls[0]);
      StepTracks(w, calls[0], id);
      StepKeepsInv(w, calls[0]);
      RunsTrack(w1, calls[1..], id);
      TracksCompose(w.c, w1.c, After(w, calls).c, id);
    }
  }

  lemma Reached(calls: seq<Call>) returns (w: World)
    requires Runs(INITIAL, calls)
    ensures w == After(INITIAL, calls) && Inv(w)
  {
    w := After(INITIAL, calls);
    InitialInv();
    RunsKeepInv(INITIAL, calls);
  }

  // ---------- accepted pushes ----------

  /**
   Once the ref update of a push has happened, no later step discards its reservation,
   and while the attempt is active `main` stays at its commit, whatever crashes in between.
  */
  lemma AcceptedPushIsNeverDiscarded(calls: seq<Call>, more: seq<Call>, id: Id)
    requires Runs(INITIAL, calls) && Runs(After(INITIAL, calls), more) && id in After(INITIAL, calls).c.accepted
    ensures var c := After(After(INITIAL, calls), more).c;
      && id in c.t.deployments && id in c.accepted
      && (IsActive(c.t.deployments[id]) ==> AtMain(c, c.t.deployments[id].appId, c.t.deployments[id].commit))
  {
    var w := Reached(calls);
    RunsTrack(w, more, id);
    RunsKeepInv(w, more);
    assert RowOk(After(w, more).c, id);
  }

  /** For a pending push, `main` being at its commit tells exactly whether Git accepted that reservation. */
  lemma MainTellsAcceptance(calls: seq<Call>, id: Id)
    requires Runs(INITIAL, calls)
    requires id in After(INITIAL, calls).c.t.deployments
    requires After(INITIAL, calls).c.t.deployments[id].trigger == Push
    requires After(INITIAL, calls).c.t.deployments[id].status == Pending
    ensures var c := After(INITIAL, calls).c;
            AtMain(c, c.t.deployments[id].appId, c.t.deployments[id].commit) <==> id in c.accepted
  {
    var w := Reached(calls);
    assert RowOk(w.c, id);
  }

  /** A push has its queued event, and with it the accepted event, only after its own ref update. */
  lemma QueuedPushWasAccepted(calls: seq<Call>, id: Id)
    requires Runs(INITIAL, calls)
    requires id in After(INITIAL, calls).c.t.deployments && After(INITIAL, calls).c.t.deployments[id].trigger == Push
    ensures var c := After(INITIAL, calls).c;
            (Event(id, Queued) in c.t.events <==> Event(id, RefAccepted) in c.t.events)
            && (Event(id, Queued) in c.t.events ==> id in c.accepted)
  {
    var w := Reached(calls);
    assert RowOk(w.c, id);
  }

  // ---------- execution ----------

  /** At most one attempt of an app is pending or deploying. */
  lemma OneActiveAttempt(calls: seq<Call>, a: Id, b: Id)
    requires Runs(INITIAL, calls)
    requires var ids := After(INITIAL, calls).c.t.deployments.Keys; a in ids && b in ids
    requires var rows := After(INITIAL, calls).c.t.deployments;
             IsActive(rows[a]) && IsActive(rows[b]) && rows[a].appId == rows[b].appId
    ensures a == b
  {
    var w := Reached(calls);
  }

  /** No attempt is executed twice, or at all before it is queued, however often the daemon crashes. */
  lemma ExecutedAtMostOnce(calls: seq<Call>, id: Id)
    requires Runs(INITIAL, calls)
    ensures var c := After(INITIAL, calls).c;
            c.executed[id] <= 1 && (c.executed[id] > 0 ==> id in c.t.deployments && Event(id, Queued) in c.t.events)
  {
    var w := Reached(calls);
    if id in w.c.t.deployments {
      assert RowOk(w.c, id);
    }
  }

  /** A succeeded or failed attempt is never touched again. */
  lemma TerminalIsAbsorbing(calls: seq<Call>, more: seq<Call>, id: Id)
    requires Runs(INITIAL, calls) && Runs(After(INITIAL, calls), more)
    requires var t := After(INITIAL, calls).c.t; id in t.deployments && !IsActive(t.deployments[id])
    ensures var t, t' := After(INITIAL, calls).c.t, After(After(INITIAL, calls), more).c.t;
            id in t'.deployments && t'.deployments[id] == t.deployments[id]
  {
    var w := Reached(calls);
    assert RowOk(w.c, id);
    RunsTrack(w, more, id);
  }

  /** Execution counts only grow. */
  lemma {:induction false} ExecutedGrows(w: World, calls: seq<Call>, id: Id)
    requires Inv(w) && Runs(w, calls)
    ensures w.c.executed[id] <= After(w, calls).c.executed[id]
    decreases |calls|
  {
    if calls != [] {
      StepKeepsInv(w, calls[0]);
      ExecutedGrowsOnce(w, calls[0], id);
      ExecutedGrows(Do(w, calls[0]), calls[1..], id);
    }
  }

  lemma ReceiveExecutesNothing(w: World, call: Call)
    requires Enabled(w, call) && IsReceiveCall(call)
    ensures Do(w, call).c.executed == w.c.executed
  {
    if call.PreReceive? {
      assert Do(w, call) == DoPreReceive(w, call.appId, call.m, call.expected);
    }
  }

  lemma OtherExecutesNothing(w: World, call: Call)
    requires Enabled(w, call) && !IsReceiveCall(call) && !IsDaemonCall(call)
    ensures Do(w, call).c.executed == w.c.executed
  {
    if call.RecoverStep? {
      assert Recover(w.c, call.appId, RecoveryAt(w, call.appId), call.listing, call.up).0.executed == w.c.executed;
    }
  }

  lemma DaemonExecutes(w: World, call: Call, id: Id)
    requires Enabled(w, call) && IsDaemonCall(call)
    ensures w.c.executed[id] <= Do(w, call).c.executed[id]
  {
  }

  lemma ExecutedGrowsOnce(w: World, call: Call, id: Id)
    requires Enabled(w, call)
    ensures w.c.executed[id] <= Do(w, call).c.executed[id]
  {
    if IsReceiveCall(call) {
      ReceiveExecutesNothing(w, call);
    } else if IsDaemonCall(call) {
      DaemonExecutes(w, call, id);
    } else {
      OtherExecutesNothing(w, call);
    }
  }

  // ---------- the deploying set ----------

  function InHand(daemon: Daemon): set<Id> {
    match daemon
    case Executing(x) => {x.d.id}
    case Restarting(todo) => IdsOf(todo)
    case Finalizing(x, todo) => {x.d.id} + IdsOf(todo)
    case _ => {}
  }

  /** While a daemon runs, the deploying attempts are those in its hand and those whose final status write it lost. */
  lemma DeployingIsInHandOrLost(calls: seq<Call>)
    requires Runs(INITIAL, calls) && After(INITIAL, calls).daemon != Down
    ensures var w := After(INITIAL, calls); WithStatus(w.c.t, Deploying) == InHand(w.daemon) + w.lost
  {
    var w := Reached(calls);
  }

  /** So an executing daemon has a single deploying attempt exactly when it lost no status write. */
  lemma OneDeployingIffNothingLost(calls: seq<Call>)
    requires Runs(INITIAL, calls) && After(INITIAL, calls).daemon.Executing?
    ensures var w := After(INITIAL, calls); |WithStatus(w.c.t, Deploying)| <= 1 <==> w.lost == {}
  {
    var w := Reached(calls);
    var id := w.daemon.x.d.id;
    DeployingIsInHandOrLost(calls);
    if w.lost != {} {
      var other :| other in w.lost;
      Ordering.SubsetSize({id, other}, WithStatus(w.c.t, Deploying));
    }
  }

  lemma AfterTwo(w: World, first: Call, second: Call)
    requires Enabled(w, first) && Enabled(Do(w, first), second)
    ensures Runs(w, [first, second]) && After(w, [first, second]) == Do(Do(w, first), second)
  {
    var rest := [second];
    assert [first, second][1..] == rest && rest[1..] == [];
    assert Runs(Do(Do(w, first), second), []);
    assert Runs(Do(w, first), rest) && After(Do(w, first), rest) == Do(Do(w, first), second);
  }

  /** The final status write of `w.daemon.x` fails. */
  ghost predicate LosesStatus(w: World) {
    w.daemon.Executing? && StatusFails(w.daemon.x)
  }

  lemma LosingDecision(t: Tables, x: Exec)
    requires StatusFails(x)
    ensures Decide(t, x).write == Nothing && Decide(t, x).next.pc == Done
  {
    assert Decide(t, x) == if x.pc.Good? then DecideGood(t, x) else DecideBad(t, x);
  }

  lemma LosingStep(w: World)
    requires Inv(w) && LosesStatus(w)
    ensures var w1 := Do(w, ExecuteStep);
            && w1.c.t == w.c.t && w1.daemon == Idle
            && w.daemon.x.d.id in WithStatus(w1.c.t, Deploying)
  {
    LosingDecision(w.c.t, w.daemon.x);
    ExecuteOnce(w);
  }

  lemma ClaimBeside(w: World, o: Outcomes, id: Id)
    requires Enabled(w, Claim(o)) && id in WithStatus(w.c.t, Deploying)
    ensures |WithStatus(Do(w, Claim(o)).c.t, Deploying)| >= 2
  {
    var next := Oldest(w.c.t, Claimable(w.c.t));
    Ordering.SubsetSize({id, next}, WithStatus(Claimed(w.c.t, next), Deploying));
  }

  /** A status write that fails leaves its attempt deploying beside the next one claimed. */
  lemma LostStatusLeavesTwoDeploying(calls: seq<Call>, o: Outcomes)
    requires Runs(INITIAL, calls) && LosesStatus(After(INITIAL, calls)) && Claimable(After(INITIAL, calls).c.t) != {}
    ensures var w := After(INITIAL, calls);
            Runs(w, [ExecuteStep, Claim(o)]) && |WithStatus(After(w, [ExecuteStep, Claim(o)]).c.t, Deploying)| >= 2
  {
    var w := Reached(calls);
    LosingStep(w);
    AfterTwo(w, ExecuteStep, Claim(o));
    ClaimBeside(Do(w, ExecuteStep), o, w.daemon.x.d.id);
  }

  // ---------- releases ----------

  ghost predicate HasSucceeded(t: Tables, r: string) {
    r in t.releases && t.releases[r].status == ReleaseSucceeded
  }

  lemma PerformKeepsSucceeded(c: Core, x: Exec, r: string)
    requires ExecOk(c, x) && HasSucceeded(c.t, r)
    ensures HasSucceeded(Perform(c, x).t, r) && Perform(c, x).t.releases[r] == c.t.releases[r]
  {
    StepWrites(c, x);
  }

  lemma ReserveKeepsSucceeded(t: Tables, m: Deployment, expected: string)
    requires OneActive(t)
    ensures var r := Reserve(t, m, expected); r.Ok? ==> r.value.releases == t.releases
  {
    var r := Reserve(t, m, expected);
    if r.Ok? {
      var gone := ReserveShape(t, m, expected, r.value);
    }
  }

  lemma SucceededReleaseStepStays(w: World, call: Call, r: string)
    requires Inv(w) && Enabled(w, call) && HasSucceeded(w.c.t, r)
    ensures var t := Do(w, call).c.t; HasSucceeded(t, r) && t.releases[r] == w.c.t.releases[r]
  {
    if IsReceiveCall(call) {
      ReceiveKeepsReleases(w, call);
    } else if IsDaemonCall(call) {
      DaemonKeepsSucceeded(w, call, r);
    } else {
      match call
      case ReserveRedeploy(m) => ReserveKeepsSucceeded(w.c.t, m, "");
      case _ =>
    }
  }

  lemma ReceiveKeepsReleases(w: World, call: Call)
    requires OneActive(w.c.t) && Enabled(w, call) && IsReceiveCall(call)
    ensures Do(w, call).c.t.releases == w.c.t.releases
  {
    if call.PreReceive? {
      ReserveKeepsSucceeded(w.c.t, call.m, call.expected);
      assert Do(w, call) == DoPreReceive(w, call.appId, call.m, call.expected);
    } else if call.RefUpdate? {
      assert Do(w, call) == DoRefUpdate(w, call.appId);
    }
  }

  lemma ExecuteKeepsSucceeded(w: World, call: Call, r: string)
    requires Inv(w) && Enabled(w, call) && IsExecuteCall(call) && HasSucceeded(w.c.t, r)
    ensures var t := Do(w, call).c.t; HasSucceeded(t, r) && t.releases[r] == w.c.t.releases[r]
  {
    PerformKeepsSucceeded(w.c, w.daemon.x, r);
    assert Do(w, call).c == Perform(w.c, w.daemon.x);
  }

  lemma DaemonKeepsSucceeded(w: World, call: Call, r: string)
    requires Inv(w) && Enabled(w, call) && IsDaemonCall(call) && HasSucceeded(w.c.t, r)
    ensures var t := Do(w, call).c.t; HasSucceeded(t, r) && t.releases[r] == w.c.t.releases[r]
  {
    if IsExecuteCall(call) {
      ExecuteKeepsSucceeded(w, call, r);
    } else if call.Claim? {
      assert Do(w, call) == DoClaim(w, call.o);
    } else {
      assert Do(w, call).c == w.c;
    }
  }

  /** A release once succeeded never becomes deploying or failed again. */
  lemma {:induction false} SucceededReleaseStays(w: World, calls: seq<Call>, r: string)
    requires Inv(w) && Runs(w, calls) && HasSucceeded(w.c.t, r)
    ensures var t := After(w, calls).c.t; r in t.releases && t.releases[r] == w.c.t.releases[r]
    decreases |calls|
  {
    if calls != [] {
      SucceededReleaseStepStays(w, calls[0], r);
      StepKeepsInv(w, calls[0]);
      SucceededReleaseStays(Do(w, calls[0]), calls[1..], r);
    }
  }

  /** A release is succeeded only if an attempt at its own commit ran Compose without error. */
  lemma SucceededReleaseWasComposed(calls: seq<Call>, r: string) returns (id: Id)
    requires Runs(INITIAL, calls)
    requires var t := After(INITIAL, calls).c.t; r in t.releases && t.releases[r].status == ReleaseSucceeded
    ensures var c := After(INITIAL, calls).c;
      && id in c.composed && id in c.t.deployments && c.executed[id] == 1
      && c.t.deployments[id].appId == c.t.releases[r].appId && c.t.deployments[id].commit == c.t.releases[r].commit
  {
    var w := Reached(calls);
    assert ComposedFor(w.c, r);
    id :| id in w.c.composed && id in w.c.t.deployments && w.c.t.deployments[id].releaseId == r
      && w.c.t.deployments[id].appId == w.c.t.releases[r].appId
      && w.c.t.deployments[id].commit == w.c.t.releases[r].commit;
  }

  // ---------- one receive ----------

  /** Post-receive looks up exactly the reservation its own pre-receive made. */
  lemma PostReceiveFindsOwn(calls: seq<Call>, appId: string)
    requires Runs(INITIAL, calls)
    requires Receives(After(INITIAL, calls), appId) && After(INITIAL, calls).locks[appId].phase.Found?
    ensures var w := After(INITIAL, calls); w.locks[appId].phase.target == w.locks[appId].phase.id
  {
    var w := Reached(calls);
    assert HolderOk(w.c, appId, w.locks[appId]);
  }

  /**
   A receive whose recovery pass went through follows its own attempt if its ref update
   happened and nobody otherwise, and the attempt it follows is queued: nothing was left
   behind between the ref update and the queue.
  */
  lemma ReceiveFollowsOwn(calls: seq<Call>, appId: string)
    requires Runs(INITIAL, calls)
    requires Enabled(After(INITIAL, calls), Attach(appId))
    ensures var w := After(INITIAL, calls);
            var phase := w.locks[appId].phase;
      && (phase.moved ==> phase.own.Some?)
      && Do(w, Attach(appId)).locks[appId].phase.attachment == (if phase.moved then Follow(phase.own.value) else Nobody)
      && (phase.moved ==> Event(phase.own.value, Queued) in w.c.t.events && phase.own.value in w.c.accepted)
  {
    var w := Reached(calls);
    var h := w.locks[appId];
    assert HolderOk(w.c, appId, h);
    AttachesOwn(w.c, appId, h.before, h.phase.own, h.phase.moved);
    if h.phase.moved {
      assert RowOk(w.c, h.phase.own.value);
    }
  }

  /** Each claim takes an attempt no other queued one started before. */
  lemma ClaimTakesOldest(calls: seq<Call>, o: Outcomes, other: Id)
    requires Runs(INITIAL, calls)
    requires var w := After(INITIAL, calls); Enabled(w, Claim(o)) && other in Claimable(w.c.t)
    ensures var w := After(INITIAL, calls);
            var x := Do(w, Claim(o)).daemon.x;
      && x.d.id in Claimable(w.c.t)
      && !w.c.t.deployments[other].startedAt.Earlier(w.c.t.deployments[x.d.id].startedAt)
  {
    var w := Reached(calls);
    var id := Oldest(w.c.t, Claimable(w.c.t));
    assert RowOk(w.c, id);
    assert other == id || Before(w.c.t, id, other);
    KeyOrdersAreTotal();
  }
}
