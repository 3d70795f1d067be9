/** Each change of the durable state, against the invariant. */
module PushSteps {
  import opened Tables
  import opened Results
  import opened Executor
  import opened PushProtocol
  import opened PushInvariant
  import opened PushFrames
  import Logs = DeploymentLogs

  // ---------- reserving ----------

  /** What a reservation that goes through does to the rows. */
  ghost predicate Reserves(t: Tables, m: Deployment, expected: string, gone: set<Id>, t': Tables) {
    && gone <= Active(t, m.appId) && Active(t, m.appId) <= gone
    && (forall id | id in gone :: MayReplace(t, id, m, expected))
    && t'.deployments == (t.deployments - gone)[m.id := m]
    && t'.events == (if m.trigger == Redeploy then t.events + {Event(m.id, Queued)} else t.events)
    && t'.releases == t.releases
  }

  lemma ReserveShape(t: Tables, m: Deployment, expected: string, t': Tables) returns (gone: set<Id>)
    requires OneActive(t) && Reserve(t, m, expected) == Ok(t')
    ensures Reserves(t, m, expected, gone, t')
  {
    gone := Active(t, m.appId);
    if gone != {} {
      var id := Oldest(t, gone);
      assert gone == {id};
    } else {
      assert t.deployments - gone == t.deployments;
    }
  }

  /** Nothing was accepted, queued or executed that a reservation replaces. */
  lemma ReplacedAreUntouched(c: Core, m: Deployment, expected: string, gone: set<Id>, t': Tables)
    requires RowsOk(c) && Reserves(c.t, m, expected, gone, t') && (m.trigger == Push ==> IsOldId(c, m.appId, expected))
    ensures gone !! c.accepted
    ensures forall id, kind | id in gone :: Event(id, kind) !in c.t.events
    ensures forall id | id in gone :: c.executed[id] == 0
  {
    forall id | id in gone
      ensures id !in c.accepted && c.executed[id] == 0 && forall kind :: Event(id, kind) !in c.t.events
    {
      assert RowOk(c, id);
    }
  }

  lemma ReserveKeepsKeys(c: Core, m: Deployment, expected: string, gone: set<Id>, c': Core)
    requires RowsOk(c) && m.id !in c.t.deployments
    requires Reserves(c.t, m, expected, gone, c'.t) && c' == c.(t := c'.t)
    requires m.trigger == Push ==> IsOldId(c, m.appId, expected)
    ensures KeysOk(c') && OneActive(c'.t)
  {
    ReplacedAreUntouched(c, m, expected, gone, c'.t);
    forall e | e in c'.t.events ensures e.deployment in c'.t.deployments {
      assert Event(e.deployment, e.kind) == e;
    }
  }

  lemma ReserveKeepsRow(c: Core, m: Deployment, expected: string, gone: set<Id>, c': Core, id: Id)
    requires RowsOk(c) && m.id !in c.t.deployments && IsReservation(m, m.trigger)
    requires Reserves(c.t, m, expected, gone, c'.t) && c' == c.(t := c'.t)
    requires m.trigger == Push ==> IsOldId(c, m.appId, expected) && m.commit != expected
    requires id in c'.t.deployments
    ensures RowOk(c', id)
  {
    if id == m.id {
      assert forall kind :: Event(id, kind) !in c.t.events;
    } else {
      assert RowOk(c, id);
    }
  }

  lemma ReserveKeepsRows(c: Core, m: Deployment, expected: string, gone: set<Id>, c': Core)
    requires RowsOk(c) && m.id !in c.t.deployments && IsReservation(m, m.trigger)
    requires Reserves(c.t, m, expected, gone, c'.t) && c' == c.(t := c'.t)
    requires m.trigger == Push ==> IsOldId(c, m.appId, expected) && m.commit != expected
    ensures RowsOk(c')
  {
    ReserveKeepsKeys(c, m, expected, gone, c');
    forall id | id in c'.t.deployments ensures RowOk(c', id) {
      ReserveKeepsRow(c, m, expected, gone, c', id);
    }
  }

  /** Locked apps other than the reserving one, and any locked app under a redeploy, are undisturbed. */
  lemma ReserveStable(c: Core, m: Deployment, expected: string, gone: set<Id>, c': Core, appId: string)
    requires m.id !in c.t.deployments && IsReservation(m, m.trigger)
    requires Reserves(c.t, m, expected, gone, c'.t) && c' == c.(t := c'.t)
    requires appId != m.appId || m.trigger == Redeploy
    ensures Stable(c, c', appId)
  {
    if m.trigger == Redeploy {
      forall id ensures id !in gone {
      }
      assert gone == {};
    }
    forall id | id in c.t.deployments && c.t.deployments[id].appId == appId
      ensures id in c'.t.deployments && SameAttempt(c.t.deployments[id], c'.t.deployments[id])
    {
      assert id !in gone;
    }
    forall id | IsPushOf(c.t, appId, id) && UnqueuedPush(c.t, id) ensures id in Active(c.t, appId) {
    }
  }

  lemma ReserveOwn(c: Core, m: Deployment, expected: string, gone: set<Id>, c': Core, before: set<Id>)
    requires RowsOk(c) && m.id !in c.t.deployments && IsReservation(m, Push)
    requires Reserves(c.t, m, expected, gone, c'.t) && c' == c.(t := c'.t)
    requires ClockAhead(c.t, m)
    requires HolderOk(c, m.appId, Receive(before, Opened))
    ensures HolderOk(c', m.appId, Receive(before, Reserved(m.id)))
  {
    assert Event(m.id, Queued) !in c.t.events;
    forall j | j in ForCommit(c'.t, m.appId, m.commit) && j != m.id ensures Before(c'.t, j, m.id) {
      assert j in ForCommit(c.t, m.appId, m.commit);
    }
    forall id | IsPushOf(c'.t, m.appId, id) && id !in before ensures id == m.id {
      if id != m.id {
        assert IsPushOf(c.t, m.appId, id);
      }
    }
  }

  lemma ReserveFramesDaemon(c: Core, m: Deployment, expected: string, gone: set<Id>, c': Core)
    requires m.id !in c.t.deployments && m.status == Pending
    requires Reserves(c.t, m, expected, gone, c'.t) && c' == c.(t := c'.t)
    ensures DaemonFrame(c, c')
  {
    assert forall id | id in gone :: MayReplace(c.t, id, m, expected);
  }

  lemma ReserveFramesReleases(c: Core, m: Deployment, expected: string, gone: set<Id>, c': Core)
    requires RowsOk(c) && ReleasesOk(c) && m.id !in c.t.deployments
    requires Reserves(c.t, m, expected, gone, c'.t) && c' == c.(t := c'.t)
    ensures ReleaseFrame(c, c')
  {
    forall id | id in c.composed ensures id !in gone {
      assert RowOk(c, id);
    }
  }

  /** The log of the new attempt is the newest of its app, so retention leaves it. */
  lemma ReserveKeepsLogs(t: Tables, m: Deployment, expected: string, gone: set<Id>, t': Tables)
    requires LogsOk(t) && ClockAhead(t, m) && m.id !in t.deployments
    requires Reserve(t, m, expected) == Ok(t') && Reserves(t, m, expected, gone, t') && OneActive(t)
    ensures LogsOk(t')
    ensures forall id | id in t.logs && id in t'.logs :: t'.logs[id] == t.logs[id]
  {
    var cleared := ReserveClears(t, m, expected, gone, t');
    var full := Inserted(cleared, m);
    NewestIsRetained(cleared, m);
    assert forall id | id in t'.logs :: id in full.logs && t'.logs[id] == full.logs[id];
    assert forall id | id in full.logs && full.logs[id].appId != m.appId :: id in t'.logs;
    forall id | id in t'.deployments && IsActive(t'.deployments[id])
      ensures id in t'.logs && t'.logs[id].appId == t'.deployments[id].appId
    {
      if id != m.id {
        assert id in t.deployments && id !in Active(t, m.appId);
      }
    }
  }

  /** The transaction cleared what it replaced, then admitted the new attempt. */
  lemma ReserveClears(t: Tables, m: Deployment, expected: string, gone: set<Id>, t': Tables) returns (cleared: Tables)
    requires Reserve(t, m, expected) == Ok(t') && Reserves(t, m, expected, gone, t') && OneActive(t)
    ensures cleared == t.(deployments := t.deployments - gone, logs := t.logs - gone)
    ensures Admit(cleared, m) == Ok(t') && m.id !in cleared.logs
    ensures t' == RetainLogs(Inserted(cleared, m), m.appId)
  {
    assert gone == Active(t, m.appId);
    if gone == {} {
      cleared := t;
      assert t.deployments - gone == t.deployments && t.logs - gone == t.logs;
    } else {
      cleared := Discard(t, Oldest(t, gone));
      assert gone == {Oldest(t, gone)};
    }
  }

  lemma NewestIsRetained(t: Tables, m: Deployment)
    requires forall id | id in t.logs && t.logs[id].appId == m.appId :: t.logs[id].createdAt.Earlier(m.startedAt)
    requires m.id !in t.logs
    ensures m.id !in ExpiredLogs(Inserted(t, m), m.appId)
  {
    var full := Inserted(t, m);
    var key: OrderKey := (full.logs[m.id].createdAt, m.id);
    var keys := LogKeys(full, m.appId);
    assert key in keys;
    forall k | k in keys ensures !KeyAfter(k, key) {
      assert k == key || k.0.Earlier(m.startedAt);
    }
    assert Ordering.Ahead(keys, KeyAfter, key) == {};
  }

  // ---------- the ref update ----------

  ghost predicate UpdatesRef(c: Core, appId: string, id: Id, c': Core) {
    && NewestUnqueued(c.t, appId, id) && id !in c.accepted
    && c' == c.(main := c.main[appId := c.t.deployments[id].commit], accepted := c.accepted + {id})
  }

  lemma RefUpdateKeepsRow(c: Core, appId: string, id: Id, c': Core, j: Id)
    requires RowsOk(c) && UpdatesRef(c, appId, id, c') && j in c.t.deployments
    ensures RowOk(c', j)
  {
    assert RowOk(c, j);
    var d := c.t.deployments[j];
    if j != id && d.appId == appId {
      assert !IsActive(d);
    }
  }

  lemma RefUpdateKeepsRows(c: Core, appId: string, id: Id, c': Core)
    requires RowsOk(c) && UpdatesRef(c, appId, id, c')
    ensures RowsOk(c')
  {
    forall j | j in c'.t.deployments ensures RowOk(c', j) {
      RefUpdateKeepsRow(c, appId, id, c', j);
    }
  }

  lemma RefUpdateStable(c: Core, appId: string, id: Id, c': Core, other: string)
    requires UpdatesRef(c, appId, id, c') && other != appId
    ensures Stable(c, c', other)
  {
  }

  // ---------- accepted and queued events ----------

  lemma RecordKeepsRow(c: Core, id: Id, c': Core, j: Id)
    requires RowsOk(c) && id in c.accepted && c' == c.(t := RecordQueued(c.t, id)) && j in c.t.deployments
    ensures RowOk(c', j)
  {
    assert RowOk(c, j);
    assert forall kind :: Event(j, kind) in c'.t.events ==> Event(j, kind) in c.t.events || j == id;
  }

  lemma RecordKeepsRows(c: Core, id: Id, c': Core)
    requires RowsOk(c) && id in c.accepted && c' == c.(t := RecordQueued(c.t, id))
    ensures RowsOk(c')
  {
    forall j | j in c'.t.deployments ensures RowOk(c', j) {
      RecordKeepsRow(c, id, c', j);
    }
  }

  lemma RecordStable(c: Core, id: Id, c': Core, appId: string)
    requires id in c.t.deployments && c.t.deployments[id].appId != appId && c' == c.(t := RecordQueued(c.t, id))
    ensures Stable(c, c', appId)
  {
  }

  // ---------- claiming ----------

  lemma ClaimKeepsRow(c: Core, id: Id, c': Core, j: Id)
    requires RowsOk(c) && id in Claimable(c.t) && c' == c.(t := Claimed(c.t, id)) && j in c.t.deployments
    ensures RowOk(c', j)
  {
    assert RowOk(c, j);
  }

  lemma ClaimKeepsRows(c: Core, id: Id, c': Core)
    requires RowsOk(c) && id in Claimable(c.t) && c' == c.(t := Claimed(c.t, id))
    ensures RowsOk(c')
  {
    forall j | j in c'.t.deployments ensures RowOk(c', j) {
      ClaimKeepsRow(c, id, c', j);
    }
  }

  lemma ClaimStable(c: Core, id: Id, c': Core, appId: string)
    requires id in Claimable(c.t) && c' == c.(t := Claimed(c.t, id))
    ensures Stable(c, c', appId)
  {
  }

  lemma ClaimDeploying(c: Core, id: Id, c': Core)
    requires id in Claimable(c.t) && c' == c.(t := Claimed(c.t, id))
    ensures WithStatus(c'.t, Deploying) == WithStatus(c.t, Deploying) + {id} && id !in WithStatus(c.t, Deploying)
  {
  }

  // ---------- executor steps ----------

  /** What an execution may write: its own row, its own events, its own release. */
  ghost predicate Writes(c: Core, x: Exec, s: Decision) {
    && s.next.d == x.d
    && (match s.write
        case Nothing => true
        case SetApp(_, _) => true
        case NewRelease(r, appId, commit) =>
          r == x.d.releaseId && appId == x.d.appId && commit == x.d.commit && r !in c.t.releases
          && FindRelease(c.t, appId, commit).None? && s.next.stored == Some(r)
        case MarkRelease(_, status) => status != ReleaseSucceeded
        case SucceedRelease(r) => r == x.d.releaseId && x.pc.Good?
        case AddLog(id, _) => id == x.d.id
        case AddEvent(e) => e.deployment == x.d.id && e.kind in {Started, DeploySucceeded, DeployFailed}
        case EndAttempt(id, end, _) => id == x.d.id && !end.Pending? && !end.Deploying? && s.next.pc == Done)
    && (s.next.pc == Done && !s.next.error ==> s.write.EndAttempt?)
  }

  lemma BeginWrites(c: Core, x: Exec)
    requires x.pc.Begin?
    ensures Writes(c, x, DecideBegin(c.t, x))
  {
  }

  lemma GoodWrites(c: Core, x: Exec)
    requires x.pc.Good?
    ensures Writes(c, x, DecideGood(c.t, x))
  {
  }

  lemma BadWrites(c: Core, x: Exec)
    requires x.pc.Bad?
    ensures Writes(c, x, DecideBad(c.t, x))
  {
  }

  lemma StepWrites(c: Core, x: Exec)
    requires x.pc != Done
    ensures Writes(c, x, Decide(c.t, x))
  {
    match x.pc
    case Begin(_) => BeginWrites(c, x);
    case Run(_) =>
    case Good(_) => GoodWrites(c, x);
    case Bad(_) => BadWrites(c, x);
  }

  /** Attempt rows and events under one executor step. */
  ghost predicate StepsRows(c: Core, x: Exec, c': Core) {
    && c'.main == c.main && c'.accepted == c.accepted
    && c'.t.deployments.Keys == c.t.deployments.Keys
    && (forall id | id in c.t.deployments && id != x.d.id :: c'.t.deployments[id] == c.t.deployments[id])
    && x.d.id in c.t.deployments && SameAttempt(c'.t.deployments[x.d.id], c.t.deployments[x.d.id])
    && c'.t.deployments[x.d.id].status != Pending
    && (c'.t.deployments[x.d.id] == c.t.deployments[x.d.id] || !IsActive(c'.t.deployments[x.d.id]))
    && c.t.events <= c'.t.events
    && (forall e | e in c'.t.events && e !in c.t.events ::
           e.deployment == x.d.id && e.kind in {Started, DeploySucceeded, DeployFailed})
    && c'.executed == (if x.pc == Begin(LoadApp) then c.executed + multiset{x.d.id} else c.executed)
  }

  lemma PerformRows(c: Core, x: Exec)
    requires ExecOk(c, x) && x.d.id in c.t.deployments
    ensures StepsRows(c, x, Perform(c, x))
  {
    StepWrites(c, x);
    var s := Decide(c.t, x);
    match s.write
    case Nothing =>
    case SetApp(_, _) =>
    case NewRelease(_, _, _) =>
    case MarkRelease(_, _) =>
    case SucceedRelease(_) =>
    case AddLog(_, _) =>
    case AddEvent(_) =>
    case EndAttempt(_, _, _) =>
  }

  lemma ExecuteKeepsRow(c: Core, x: Exec, c': Core, j: Id)
    requires RowsOk(c) && ExecOk(c, x) && StepsRows(c, x, c') && j in c.t.deployments
    ensures RowOk(c', j)
  {
    assert RowOk(c, j);
    assert RowOk(c, x.d.id);
  }

  lemma ExecuteKeepsKeys(c: Core, x: Exec, c': Core)
    requires RowsOk(c) && ExecOk(c, x) && StepsRows(c, x, c')
    ensures KeysOk(c') && OneActive(c'.t)
  {
  }

  lemma ExecuteKeepsRows(c: Core, x: Exec, c': Core)
    requires RowsOk(c) && ExecOk(c, x) && StepsRows(c, x, c')
    ensures RowsOk(c')
  {
    ExecuteKeepsKeys(c, x, c');
    forall j | j in c'.t.deployments ensures RowOk(c', j) {
      ExecuteKeepsRow(c, x, c', j);
    }
  }

  lemma ExecuteStable(c: Core, x: Exec, c': Core, appId: string)
    requires ExecOk(c, x) && StepsRows(c, x, c')
    ensures Stable(c, c', appId)
  {
  }

  lemma ExecuteDeploying(c: Core, x: Exec, c': Core)
    requires ExecOk(c, x) && StepsRows(c, x, c')
    ensures WithStatus(c'.t, Deploying) ==
      if IsActive(c'.t.deployments[x.d.id]) then WithStatus(c.t, Deploying) else WithStatus(c.t, Deploying) - {x.d.id}
  {
  }

  /** No write takes a release away or gives it to another commit. */
  lemma ApplyKeepsReleases(t: Tables, w: Write, x: Exec, r: string)
    requires ReleaseOf(t, x, r)
    ensures ReleaseOf(Apply(t, w), x, r)
  {
  }

  /** A step keeps the stored release, finds that of its commit, or makes it. */
  ghost predicate StoresOwn(t: Tables, x: Exec, s: Decision) {
    && s.next.d == x.d
    && (s.next.stored == x.stored
        || (s.next.stored.Some? && ReleaseOf(t, x, s.next.stored.value))
        || (s.next.stored.Some? && s.write == NewRelease(s.next.stored.value, x.d.appId, x.d.commit)
               && s.next.stored.value !in t.releases)
        || s.next.stored.None?)
  }

  lemma BeginStores(t: Tables, x: Exec)
    requires x.pc.Begin?
    ensures StoresOwn(t, x, DecideBegin(t, x))
  {
  }

  lemma BeginStoredPc(t: Tables, x: Exec)
    requires x.pc.Begin? && StoredPc(x)
    ensures StoredPc(DecideBegin(t, x).next)
  {
    if x.pc.b == LoadRelease {
      assert StoredPc(DecideRelease(t, x).next);
    } else if x.pc.b == CreateRelease {
      assert StoredPc(DecideCreate(t, x).next);
    }
  }

  lemma BadStores(t: Tables, x: Exec)
    requires x.pc.Bad?
    ensures StoresOwn(t, x, DecideBad(t, x))
  {
  }

  lemma StepStored(t: Tables, x: Exec)
    requires x.pc != Done && StoredOk(t, x)
    ensures var s := Decide(t, x); s.next.pc != Done ==> StoredOk(Apply(t, s.write), s.next)
  {
    match x.pc {
      case Begin(_) => BeginStores(t, x); BeginStoredPc(t, x);
      case Run(_) =>
      case Good(_) => GoodProgresses(t, x);
      case Bad(_) => BadStores(t, x); StepMovesBad(t, x);
    }
    var s := Decide(t, x);
    assert StoresOwn(t, x, s);
    if s.next.stored.Some? && ReleaseOf(t, x, s.next.stored.value) {
      ApplyKeepsReleases(t, s.write, x, s.next.stored.value);
    }
  }

  /** Before the last step the row is untouched; a move past Compose is recorded in the history. */
  lemma StepMoves(t: Tables, x: Exec)
    requires x.pc != Done
    ensures var s := Decide(t, x);
      && (s.next.pc != Done ==> !s.write.EndAttempt?)
      && (s.next.pc.Good? ==> x.pc.Run? || x.pc.Good?)
      && (x.pc.Bad? ==> s.next.pc.Bad? || s.next.pc == Done)
      && s.next.pc != Begin(LoadApp) && s.next.pc != Bad(LoadInterrupted)
  {
    match x.pc
    case Begin(_) => BeginIsEarly(t, x); BeginProgresses(t, x); StepMovesBegin(t, x);
    case Run(_) =>
    case Good(_) =>
    case Bad(_) => StepMovesBad(t, x);
  }

  lemma StepMovesBegin(t: Tables, x: Exec)
    requires x.pc.Begin?
    ensures !DecideBegin(t, x).write.EndAttempt? && DecideBegin(t, x).next.pc != Begin(LoadApp)
  {
  }

  lemma StepMovesBad(t: Tables, x: Exec)
    requires x.pc.Bad?
    ensures var s := DecideBad(t, x); (s.next.pc.Bad? || s.next.pc == Done) && s.next.pc != Bad(LoadInterrupted)
    ensures var s := DecideBad(t, x); s.next.pc != Done ==> !s.write.EndAttempt?
  {
  }

  lemma ExecuteKeepsExec(c: Core, x: Exec)
    requires ExecOk(c, x) && Decide(c.t, x).next.pc != Done
    ensures ExecOk(Perform(c, x), Decide(c.t, x).next)
  {
    PerformRows(c, x);
    StepWrites(c, x);
    StepStored(c.t, x);
    StepMoves(c.t, x);
  }

  lemma ExecuteKeepsReleases(c: Core, x: Exec)
    requires RowsOk(c) && ReleasesOk(c) && ExecOk(c, x)
    ensures ReleasesOk(Perform(c, x))
  {
    PerformRows(c, x);
    StepWrites(c, x);
    StepMoves(c.t, x);
    var s, c' := Decide(c.t, x), Perform(c, x);
    PerformSchema(c, x);
    PerformComposed(c, x);
    forall r | r in c'.t.releases && c'.t.releases[r].status == ReleaseSucceeded ensures ComposedFor(c', r) {
      PerformKeepsComposedFor(c, x, r);
    }
  }

  lemma PerformSchema(c: Core, x: Exec)
    requires Schema(c.t) && ExecOk(c, x)
    ensures Schema(Perform(c, x).t)
  {
    PerformRows(c, x);
    StepWrites(c, x);
  }

  lemma PerformComposed(c: Core, x: Exec)
    requires RowsOk(c) && ReleasesOk(c) && ExecOk(c, x)
    ensures var c' := Perform(c, x);
            && c.composed <= c'.composed <= c'.t.deployments.Keys
            && forall id | id in c'.composed :: c'.executed[id] == 1
  {
    PerformRows(c, x);
    StepMoves(c.t, x);
  }

  lemma PerformKeepsComposedFor(c: Core, x: Exec, r: string)
    requires RowsOk(c) && ReleasesOk(c) && ExecOk(c, x)
    requires r in Perform(c, x).t.releases && Perform(c, x).t.releases[r].status == ReleaseSucceeded
    ensures ComposedFor(Perform(c, x), r)
  {
    var c' := Perform(c, x);
    PerformRows(c, x);
    PerformComposed(c, x);
    StepWrites(c, x);
    if Decide(c.t, x).write == SucceedRelease(r) {
      assert x.d.id in c'.composed && c'.t.deployments[x.d.id].releaseId == r;
    } else {
      assert r in c.t.releases && c.t.releases[r] == c'.t.releases[r];
      ComposedStays(c, x, r);
    }
  }

  lemma ComposedStays(c: Core, x: Exec, r: string)
    requires RowsOk(c) && ExecOk(c, x) && r in c.t.releases && ComposedFor(c, r)
    requires r in Perform(c, x).t.releases && Perform(c, x).t.releases[r] == c.t.releases[r]
    ensures ComposedFor(Perform(c, x), r)
  {
    PerformRows(c, x);
    var id :| id in c.composed && id in c.t.deployments && c.t.deployments[id].releaseId == r
      && c.t.deployments[id].appId == c.t.releases[r].appId && c.t.deployments[id].commit == c.t.releases[r].commit;
    assert id in Perform(c, x).composed && Perform(c, x).t.deployments[id].releaseId == r;
  }

  /** Only the log of the running attempt grows. */
  lemma ExecuteKeepsLogs(c: Core, x: Exec)
    requires LogsOk(c.t) && ExecOk(c, x)
    ensures LogsOk(Perform(c, x).t)
    ensures Perform(c, x).t.logs.Keys == c.t.logs.Keys
    ensures forall id | id in c.t.logs :: c.t.logs[id].log.content <= Perform(c, x).t.logs[id].log.content
    ensures forall id | id in c.t.logs :: Perform(c, x).t.logs[id].appId == c.t.logs[id].appId
    ensures forall id | id in c.t.logs && id != x.d.id :: Perform(c, x).t.logs[id] == c.t.logs[id]
  {
    PerformRows(c, x);
    StepWrites(c, x);
    var w := Decide(c.t, x).write;
    if w.AddLog? && x.d.id in c.t.logs {
      Logs.AppendExtends(c.t.logs[x.d.id].log, w.output);
    }
  }
}
