/** Every step keeps the invariant, so every run does. */
module PushSafety {
  import opened Tables
  import opened Results
  import opened Executor
  import opened PushProtocol
  import opened PushInvariant
  import opened PushFrames
  import opened PushSteps

  /** Holders of other apps keep their locks and what they rely on. */
  lemma OthersKept(w: World, w': World, appId: string)
    requires LocksOk(w)
    requires forall a | a in w'.locks && a != appId :: a in w.locks && w'.locks[a] == w.locks[a] && Stable(w.c, w'.c, a)
    requires appId in w'.locks ==> HolderOk(w'.c, appId, w'.locks[appId])
    ensures LocksOk(w')
  {
    forall a | a in w'.locks ensures HolderOk(w'.c, a, w'.locks[a]) {
      if a != appId {
        HolderStable(w.c, w'.c, a, w.locks[a]);
      }
    }
  }

  lemma Unchanged(c: Core, appId: string)
    ensures Stable(c, c, appId)
  {
  }

  /** A step that only moves the holder of one app along. */
  lemma PhaseOnly(w: World, w': World, appId: string)
    requires Inv(w) && w'.c == w.c && w'.daemon == w.daemon && w'.lost == w.lost
    requires appId in w.locks && appId in w'.locks && w'.locks == w.locks[appId := w'.locks[appId]]
    requires (w'.locks[appId].Worker? <==> w.locks[appId].Worker?)
    requires HolderOk(w.c, appId, w'.locks[appId])
    ensures Inv(w')
  {
    forall a | a in w'.locks ensures Stable(w.c, w'.c, a) {
      Unchanged(w.c, a);
    }
    OthersKept(w, w', appId);
  }

  /** A core change that leaves the daemon, the releases and the logs alone. */
  lemma CoreStep(w: World, w': World, appId: string)
    requires Inv(w) && RowsOk(w'.c) && DaemonFrame(w.c, w'.c) && ReleaseFrame(w.c, w'.c) && LogsOk(w'.c.t)
    requires Schema(w'.c.t)
    requires w'.daemon == w.daemon && w'.lost == w.lost
    requires forall a | a != appId && a in w.locks :: Stable(w.c, w'.c, a)
    requires w'.locks.Keys == w.locks.Keys || w'.locks.Keys == w.locks.Keys + {appId}
    requires forall a | a in w.locks && a != appId :: w'.locks[a] == w.locks[a]
    requires appId in w'.locks ==> HolderOk(w'.c, appId, w'.locks[appId])
    requires appId in w'.locks ==> (w'.locks[appId].Worker? <==> w.daemon == Recovers(appId))
    requires w.daemon != Recovers(appId) || appId in w.locks
    ensures Inv(w')
  {
    OthersKept(w, w', appId);
    DaemonStable(w.c, w'.c, w.daemon, w.lost);
    ReleasesStable(w.c, w'.c);
  }

  lemma KeepsOpenReceive(w: World, appId: string)
    requires Inv(w) && Enabled(w, OpenReceive(appId))
    ensures Inv(Do(w, OpenReceive(appId)))
  {
    var w' := Do(w, OpenReceive(appId));
    AppsOnly(w.c, w'.c);
    assert HolderOk(w'.c, appId, w'.locks[appId]);
    CoreStep(w, w', appId);
  }

  lemma AppsOnly(c: Core, c': Core)
    requires c' == c.(t := c.t.(apps := c'.t.apps))
    ensures RowsOk(c) ==> RowsOk(c')
    ensures forall a :: Stable(c, c', a)
    ensures DaemonFrame(c, c') && (ReleasesOk(c) ==> ReleaseFrame(c, c'))
    ensures LogsOk(c.t) ==> LogsOk(c'.t)
  {
    if RowsOk(c) {
      forall id | id in c'.t.deployments ensures RowOk(c', id) {
        assert RowOk(c, id);
      }
    }
  }

  lemma KeepsPreReceive(w: World, appId: string, m: Deployment, expected: string)
    requires Inv(w) && Enabled(w, PreReceive(appId, m, expected))
    ensures Inv(Do(w, PreReceive(appId, m, expected)))
  {
    var w' := DoPreReceive(w, appId, m, expected);
    var before := w.locks[appId].before;
    assert HolderOk(w.c, appId, w.locks[appId]);
    match Reserve(w.c.t, m, expected)
    case Ok(t) =>
      var gone := ReserveShape(w.c.t, m, expected, t);
      ReserveKeepsRows(w.c, m, expected, gone, w'.c);
      ReserveFramesDaemon(w.c, m, expected, gone, w'.c);
      ReserveFramesReleases(w.c, m, expected, gone, w'.c);
      ReserveKeepsLogs(w.c.t, m, expected, gone, t);
      ReserveOwn(w.c, m, expected, gone, w'.c, before);
      forall a | a != appId && a in w.locks ensures Stable(w.c, w'.c, a) {
        ReserveStable(w.c, m, expected, gone, w'.c, a);
      }
      CoreStep(w, w', appId);
    case Err(_) =>
      PhaseOnly(w, w', appId);
  }

  lemma KeepsRefUpdate(w: World, appId: string)
    requires Inv(w) && Enabled(w, RefUpdate(appId))
    ensures Inv(Do(w, RefUpdate(appId)))
  {
    var w' := DoRefUpdate(w, appId);
    var id := w.locks[appId].phase.id;
    assert HolderOk(w.c, appId, w.locks[appId]);
    RefUpdateKeepsRows(w.c, appId, id, w'.c);
    forall a | a != appId && a in w.locks ensures Stable(w.c, w'.c, a) {
      RefUpdateStable(w.c, appId, id, w'.c, a);
    }
    CoreStep(w, w', appId);
  }

  lemma KeepsFindPosted(w: World, appId: string)
    requires Inv(w) && Enabled(w, FindPosted(appId))
    ensures Inv(Do(w, FindPosted(appId)))
  {
    var w' := Do(w, FindPosted(appId));
    var id := w.locks[appId].phase.id;
    assert HolderOk(w.c, appId, w.locks[appId]);
    NewestIsLatest(w.c.t, appId, id);
    PhaseOnly(w, w', appId);
  }

  /** The newest attempt at a commit is the one looked up by that commit. */
  lemma NewestIsLatest(t: Tables, appId: string, id: Id)
    requires NewestUnqueued(t, appId, id)
    ensures id in ForCommit(t, appId, t.deployments[id].commit)
    ensures Latest(t, ForCommit(t, appId, t.deployments[id].commit)) == id
  {
    var ids := ForCommit(t, appId, t.deployments[id].commit);
    assert id in ids;
    KeyOrdersAreTotal();
    var last := Latest(t, ids);
    assert last != id ==> Before(t, last, id);
  }

  lemma DoRecordsPosted(w: World, appId: string)
    requires Enabled(w, RecordPosted(appId))
    ensures var h := w.locks[appId];
            var next := h.(phase := Recovering(Some(h.phase.id), true, Listing));
            Do(w, RecordPosted(appId)) ==
            w.(c := w.c.(t := RecordQueued(w.c.t, h.phase.target)), locks := w.locks[appId := next])
  {
  }

  /** The attempt found is the one the receive reserved, and it is accepted. */
  lemma PostedHolder(w: World, appId: string, c': Core)
    requires Inv(w) && Enabled(w, RecordPosted(appId))
    requires c' == w.c.(t := RecordQueued(w.c.t, w.locks[appId].phase.target))
    ensures var h := w.locks[appId];
      && h.phase.target == h.phase.id && h.phase.id in w.c.t.deployments && h.phase.id in w.c.accepted
      && w.c.t.deployments[h.phase.id].appId == appId
      && HolderOk(c', appId, h.(phase := Recovering(Some(h.phase.id), true, Listing)))
  {
    assert HolderOk(w.c, appId, w.locks[appId]);
  }

  lemma KeepsRecordPosted(w: World, appId: string)
    requires Inv(w) && Enabled(w, RecordPosted(appId))
    ensures Inv(Do(w, RecordPosted(appId)))
  {
    var w' := Do(w, RecordPosted(appId));
    var id := w.locks[appId].phase.id;
    DoRecordsPosted(w, appId);
    PostedHolder(w, appId, w'.c);
    RecordKeepsRows(w.c, id, w'.c);
    forall a | a != appId && a in w.locks ensures Stable(w.c, w'.c, a) {
      RecordStable(w.c, id, w'.c, a);
    }
    CoreStep(w, w', appId);
  }

  lemma KeepsPhaseMove(w: World, call: Call)
    requires Inv(w) && Enabled(w, call) && (call.PushAborted? || call.RefRefused? || call.PostReceiveFails?)
    ensures Inv(Do(w, call))
  {
    assert HolderOk(w.c, call.appId, w.locks[call.appId]);
    PhaseOnly(w, Do(w, call), call.appId);
  }

  // ---------- recovery ----------

  lemma ListingIsTodo(t: Tables, appId: string, listing: seq<Deployment>)
    requires ListsRows(t, listing, UnqueuedPending(t))
    ensures TodoOk(t, appId, listing)
  {
    KeyOrdersAreTotal();
    forall i, j | 0 <= i < j < |listing| ensures listing[i].id != listing[j].id {
      assert KeyBefore((listing[i].startedAt, listing[i].id), (listing[j].startedAt, listing[j].id));
    }
  }

  lemma RecordKeepsTodo(t: Tables, appId: string, id: Id, todo: seq<Deployment>)
    requires TodoOk(t, appId, todo) && forall i | 0 <= i < |todo| :: todo[i].id != id
    ensures TodoOk(RecordQueued(t, id), appId, todo)
  {
  }

  /** Recovery arms only reservations whose ref update happened. */
  lemma RecoverKeepsRec(c: Core, appId: string, rec: Recovery, listing: seq<Deployment>, up: bool)
    requires RowsOk(c) && RecOk(c, appId, rec) && !rec.Ended?
    requires rec.Listing? && up ==> ListsRows(c.t, listing, UnqueuedPending(c.t))
    ensures var (c', rec') := Recover(c, appId, rec, listing, up);
            RecOk(c', appId, rec')
  {
    match rec
    case Listing =>
      if up {
        ListingIsTodo(c.t, appId, listing);
      }
    case Scanning(todo) =>
      if todo != [] && todo[0].appId == appId {
        assert RowOk(c, todo[0].id);
      }
    case Armed(head, todo) =>
      RecordKeepsTodo(c.t, appId, head.id, todo);
  }

  lemma RecoverKeepsAhead(c: Core, appId: string, rec: Recovery, listing: seq<Deployment>, up: bool, own: Id)
    requires RowsOk(c) && RecOk(c, appId, rec) && !rec.Ended?
    requires rec.Listing? && up ==> ListsRows(c.t, listing, UnqueuedPending(c.t))
    requires IsPushOf(c.t, appId, own) && own in c.accepted && appId in c.main
    requires Event(own, RefAccepted) in c.t.events || Ahead(rec, appId, own)
    ensures var (c', rec') := Recover(c, appId, rec, listing, up);
            Event(own, RefAccepted) in c'.t.events || Ahead(rec', appId, own)
  {
    assert RowOk(c, own);
    match rec
    case Listing =>
      if up && Event(own, RefAccepted) !in c.t.events {
        assert own in UnqueuedPending(c.t);
        assert c.t.deployments[own] in listing;
        var i :| 0 <= i < |listing| && listing[i] == c.t.deployments[own];
        assert listing[i].id == own;
      }
    case Scanning(todo) =>
      if Remains(todo, appId, own) && todo[0].id != own {
        var i :| 0 <= i < |todo| && todo[i].id == own && todo[i].appId == appId;
        assert todo[1..][i - 1].id == own;
      }
    case Armed(head, todo) =>
  }

  lemma KeepsRecoverStep(w: World, appId: string, listing: seq<Deployment>, up: bool)
    requires Inv(w) && Enabled(w, RecoverStep(appId, listing, up))
    ensures Inv(Do(w, RecoverStep(appId, listing, up)))
  {
    var w' := Do(w, RecoverStep(appId, listing, up));
    DoRecovers(w, appId, listing, up);
    RecoverKeepsHolder(w, appId, listing, up);
    if RecoveryAt(w, appId).Armed? && up {
      RecoverRecords(w, w', appId);
      RecoverStable(w, w', appId);
      CoreStep(w, w', appId);
    } else {
      PhaseOnly(w, w', appId);
    }
  }

  lemma RecoverStable(w: World, w': World, appId: string)
    requires Inv(w) && RecoveryOf(w, appId) && RecoveryAt(w, appId).Armed?
    requires w'.c == w.c.(t := RecordQueued(w.c.t, RecoveryAt(w, appId).head.id))
    ensures forall a | a != appId && a in w.locks :: Stable(w.c, w'.c, a)
  {
    assert HolderOk(w.c, appId, w.locks[appId]);
    forall a | a != appId && a in w.locks ensures Stable(w.c, w'.c, a) {
      RecordStable(w.c, RecoveryAt(w, appId).head.id, w'.c, a);
    }
  }

  lemma RecoverRecords(w: World, w': World, appId: string)
    requires Inv(w) && RecoveryOf(w, appId) && RecoveryAt(w, appId).Armed?
    requires w'.c == w.c.(t := RecordQueued(w.c.t, RecoveryAt(w, appId).head.id))
    ensures RowsOk(w'.c) && DaemonFrame(w.c, w'.c) && ReleaseFrame(w.c, w'.c) && LogsOk(w'.c.t) && Schema(w'.c.t)
  {
    assert HolderOk(w.c, appId, w.locks[appId]);
    RecordKeepsRows(w.c, RecoveryAt(w, appId).head.id, w'.c);
  }

  /** The holder of a lock with its recovery pass one step further. */
  function WithRec(h: Holder, rec: Recovery): Holder
    requires h.Worker? || h.phase.Recovering?
  {
    if h.Worker? then Worker(rec) else h.(phase := h.phase.(rec := rec))
  }

  lemma DoRecovers(w: World, appId: string, listing: seq<Deployment>, up: bool)
    requires Enabled(w, RecoverStep(appId, listing, up))
    ensures var s := Recover(w.c, appId, RecoveryAt(w, appId), listing, up);
            Do(w, RecoverStep(appId, listing, up)) ==
            w.(c := s.0, locks := w.locks[appId := WithRec(w.locks[appId], s.1)])
  {
  }

  lemma RecoverKeepsHolder(w: World, appId: string, listing: seq<Deployment>, up: bool)
    requires Inv(w) && Enabled(w, RecoverStep(appId, listing, up))
    ensures var s := Recover(w.c, appId, RecoveryAt(w, appId), listing, up);
            HolderOk(s.0, appId, WithRec(w.locks[appId], s.1))
  {
    var h, rec := w.locks[appId], RecoveryAt(w, appId);
    assert HolderOk(w.c, appId, h);
    RecoverKeepsRec(w.c, appId, rec, listing, up);
    if h.Receive? && h.phase.moved {
      RecoverKeepsAhead(w.c, appId, rec, listing, up, h.phase.own.value);
    }
  }

  // ---------- attaching and unlocking ----------

  /** The attachment finds the attempt of its own receive, or nobody; never more than one. */
  lemma AttachesOwn(c: Core, appId: string, before: set<Id>, own: Option<Id>, moved: bool)
    requires RowsOk(c) && OwnOk(c.t, appId, before, own)
    requires moved ==> own.Some? && Event(own.value, RefAccepted) in c.t.events
    requires own.Some? ==> (moved <==> own.value in c.accepted)
    ensures Attachments(c.t, appId, before) == if moved then Follow(own.value) else Nobody
  {
    var ids := AcceptedSince(c.t, appId, before);
    if moved {
      assert own.value in ids;
      assert ids == {own.value};
    } else {
      forall id ensures id !in ids {
        if id in c.t.deployments {
          assert RowOk(c, id);
        }
      }
      assert ids == {};
    }
  }

  lemma KeepsAttach(w: World, appId: string)
    requires Inv(w) && Enabled(w, Attach(appId))
    ensures Inv(Do(w, Attach(appId)))
  {
    var h := w.locks[appId];
    assert HolderOk(w.c, appId, h);
    AttachesOwn(w.c, appId, h.before, h.phase.own, h.phase.moved);
    PhaseOnly(w, Do(w, Attach(appId)), appId);
  }

  /** A lock is let go and the core stays. */
  lemma KeepsUnlock(w: World, call: Call)
    requires Inv(w) && Enabled(w, call) && (call.Unlock? || call.KillReceive? || call.CrashDaemon?)
    ensures Inv(Do(w, call))
  {
    var w' := Do(w, call);
    forall a | a in w'.locks ensures HolderOk(w'.c, a, w'.locks[a]) {
      assert HolderOk(w.c, a, w.locks[a]);
    }
  }

  lemma KeepsReserveRedeploy(w: World, m: Deployment)
    requires Inv(w) && Enabled(w, ReserveRedeploy(m))
    ensures Inv(Do(w, ReserveRedeploy(m)))
  {
    var r := Reserve(w.c.t, m, "");
    if r.Ok? {
      var w' := w.(c := w.c.(t := r.value));
      var gone := ReserveShape(w.c.t, m, "", r.value);
      ReserveKeepsRows(w.c, m, "", gone, w'.c);
      ReserveFramesDaemon(w.c, m, "", gone, w'.c);
      ReserveFramesReleases(w.c, m, "", gone, w'.c);
      ReserveKeepsLogs(w.c.t, m, "", gone, r.value);
      forall a | a in w.locks ensures Stable(w.c, w'.c, a) && HolderOk(w'.c, a, w.locks[a]) {
        ReserveStable(w.c, m, "", gone, w'.c, a);
        HolderStable(w.c, w'.c, a, w.locks[a]);
      }
      CoreStep(w, w', m.appId);
    }
  }

  // ---------- the daemon ----------

  lemma KeepsWorkerLock(w: World, appId: string)
    requires Inv(w) && Enabled(w, WorkerLock(appId))
    ensures Inv(Do(w, WorkerLock(appId)))
  {
    var w' := Do(w, WorkerLock(appId));
    forall a | a in w'.locks ensures HolderOk(w'.c, a, w'.locks[a]) {
      if a != appId {
        assert HolderOk(w.c, a, w.locks[a]);
      }
    }
  }

  lemma AllHoldersStable(w: World, w': World)
    requires LocksOk(w) && w'.locks == w.locks && forall a | a in w.locks :: Stable(w.c, w'.c, a)
    ensures LocksOk(w')
  {
    forall a | a in w'.locks ensures HolderOk(w'.c, a, w'.locks[a]) {
      HolderStable(w.c, w'.c, a, w.locks[a]);
    }
  }

  lemma ClaimDaemon(c: Core, id: Id, o: Outcomes, lost: set<Id>)
    requires RowsOk(c) && id in Claimable(c.t) && WithStatus(c.t, Deploying) == lost
    ensures var t := Claimed(c.t, id); DaemonOk(c.(t := t), Executing(Start(t.deployments[id], o)), lost)
  {
    ClaimDeploying(c, id, c.(t := Claimed(c.t, id)));
    assert RowOk(c, id);
  }

  lemma ClaimReleases(c: Core, id: Id)
    requires RowsOk(c) && ReleasesOk(c) && id in Claimable(c.t)
    ensures ReleasesOk(c.(t := Claimed(c.t, id)))
  {
    var c' := c.(t := Claimed(c.t, id));
    assert RowOk(c, id);
    assert ReleaseFrame(c, c');
    ReleasesStable(c, c');
  }

  lemma KeepsClaim(w: World, o: Outcomes)
    requires Inv(w) && Enabled(w, Claim(o))
    ensures Inv(Do(w, Claim(o)))
  {
    var w' := DoClaim(w, o);
    assert Do(w, Claim(o)) == w';
    var id := Oldest(w.c.t, Claimable(w.c.t));
    ClaimKeepsHolders(w, id, w');
    ClaimDaemon(w.c, id, o, w.lost);
    ClaimReleases(w.c, id);
  }

  lemma ClaimKeepsHolders(w: World, id: Id, w': World)
    requires RowsOk(w.c) && LocksOk(w) && id in Claimable(w.c.t)
    requires w'.c == w.c.(t := Claimed(w.c.t, id)) && w'.locks == w.locks
    ensures RowsOk(w'.c) && LocksOk(w')
  {
    ClaimKeepsRows(w.c, id, w'.c);
    forall a | a in w.locks ensures Stable(w.c, w'.c, a) {
      ClaimStable(w.c, id, w'.c, a);
    }
    AllHoldersStable(w, w');
  }

  /** The core parts of the invariant under one executor step. */
  lemma PerformKeeps(w: World, x: Exec, w': World)
    requires Inv(w) && ExecOk(w.c, x) && w'.c == Perform(w.c, x) && w'.locks == w.locks
    ensures RowsOk(w'.c) && LocksOk(w') && ReleasesOk(w'.c) && LogsOk(w'.c.t)
    ensures StepsRows(w.c, x, w'.c)
  {
    PerformRows(w.c, x);
    ExecuteKeepsRows(w.c, x, w'.c);
    ExecuteKeepsReleases(w.c, x);
    ExecuteKeepsLogs(w.c, x);
    forall a | a in w.locks ensures Stable(w.c, w'.c, a) {
      ExecuteStable(w.c, x, w'.c, a);
    }
    AllHoldersStable(w, w');
  }

  /** Before the last step the attempt stays deploying. */
  lemma PerformRunning(c: Core, x: Exec)
    requires ExecOk(c, x)
    ensures var c', s := Perform(c, x), Decide(c.t, x);
            x.d.id in c'.t.deployments
            && (s.next.pc != Done ==> c'.t.deployments == c.t.deployments)
            && (s.next.pc == Done && !s.next.error ==> !IsActive(c'.t.deployments[x.d.id]))
  {
    StepWrites(c, x);
    StepMoves(c.t, x);
  }

  /** An execution ends with a status write. */
  lemma EndsWithStatus(t: Tables, x: Exec)
    requires x.pc != Done && x.pc != Bad(LoadInterrupted) && Decide(t, x).next.pc == Done
    ensures x.pc == Good(OkStatus) || x.pc == Bad(FailStatus)
  {
    if x.pc.Begin? {
      BeginIsEarly(t, x);
    }
  }

  /** With its last step an attempt stays deploying exactly if that step was the status write and it failed. */
  lemma LastStepLoses(c: Core, x: Exec)
    requires ExecOk(c, x) && x.pc != Bad(LoadInterrupted) && Decide(c.t, x).next.pc == Done
    ensures x.d.id in WithStatus(Perform(c, x).t, Deploying) <==> StatusFails(x)
  {
    EndsWithStatus(c.t, x);
  }

  /** The daemon's own view after a step of an execution. */
  lemma ExecuteDaemon(c: Core, x: Exec, lost: set<Id>)
    requires DaemonOk(c, Executing(x), lost)
    ensures var (c', next) := (Perform(c, x), Decide(c.t, x).next);
            if next.pc != Done then DaemonOk(c', Executing(next), lost)
            else DaemonOk(c', Idle, if StatusFails(x) then lost + {x.d.id} else lost)
  {
    PerformRows(c, x);
    PerformRunning(c, x);
    ExecuteDeploying(c, x, Perform(c, x));
    StepWrites(c, x);
    if Decide(c.t, x).next.pc != Done {
      ExecuteKeepsExec(c, x);
      StepMoves(c.t, x);
    } else {
      LastStepLoses(c, x);
    }
  }

  lemma KeepsExecute(w: World)
    requires Inv(w) && Enabled(w, ExecuteStep)
    ensures Inv(Do(w, ExecuteStep))
  {
    var w' := DoExecute(w);
    PerformKeeps(w, w.daemon.x, w');
    ExecuteDaemon(w.c, w.daemon.x, w.lost);
  }

  lemma FinalizeDaemon(c: Core, x: Exec, todo: seq<Deployment>)
    requires DaemonOk(c, Finalizing(x, todo), {})
    ensures var (c', next) := (Perform(c, x), Decide(c.t, x).next);
            && (next.pc != Done ==> DaemonOk(c', Finalizing(next, todo), {}))
            && (next.pc == Done && !next.error ==> DaemonOk(c', Restarting(todo), {}))
  {
    PerformRows(c, x);
    PerformRunning(c, x);
    ExecuteDeploying(c, x, Perform(c, x));
    StepMoves(c.t, x);
    StepWrites(c, x);
    ListedKept(c.t, Perform(c, x).t, todo);
    if Decide(c.t, x).next.pc != Done {
      ExecuteKeepsExec(c, x);
    }
  }

  lemma KeepsFinalize(w: World)
    requires Inv(w) && Enabled(w, FinalizeStep)
    ensures Inv(Do(w, FinalizeStep))
  {
    var w' := DoFinalize(w);
    PerformKeeps(w, w.daemon.x, w');
    FinalizeDaemon(w.c, w.daemon.x, w.daemon.todo);
  }

  lemma ListedKept(t: Tables, t': Tables, todo: seq<Deployment>)
    requires Listed(t, todo)
    requires forall i | 0 <= i < |todo| ::
             todo[i].id in t'.deployments && t'.deployments[todo[i].id] == t.deployments[todo[i].id]
    ensures Listed(t', todo)
  {
  }

  // ---------- restarting ----------

  lemma BootListed(t: Tables, listing: seq<Deployment>)
    requires Schema(t) && ListsRows(t, listing, WithStatus(t, Deploying))
    ensures Listed(t, listing) && IdsOf(listing) == WithStatus(t, Deploying)
  {
    KeyOrdersAreTotal();
    forall i, j | 0 <= i < j < |listing| ensures listing[i].id != listing[j].id {
      assert KeyBefore((listing[i].startedAt, listing[i].id), (listing[j].startedAt, listing[j].id));
    }
    forall id | id in WithStatus(t, Deploying) ensures id in IdsOf(listing) {
      var i :| 0 <= i < |listing| && listing[i] == t.deployments[id];
      assert listing[i].id == id;
    }
  }

  lemma KeepsBoot(w: World, listing: seq<Deployment>)
    requires Inv(w) && Enabled(w, Boot(listing))
    ensures Inv(Do(w, Boot(listing)))
  {
    BootListed(w.c.t, listing);
    SameHolders(w, Do(w, Boot(listing)));
  }

  lemma SameHolders(w: World, w': World)
    requires LocksOk(w) && w'.locks == w.locks && w'.c == w.c
    ensures LocksOk(w')
  {
  }

  lemma NextIsListed(c: Core, todo: seq<Deployment>, o: Outcomes)
    requires DaemonOk(c, Restarting(todo), {}) && todo != []
    ensures DaemonOk(c, Finalizing(StartInterrupted(todo[0], o), todo[1..]), {})
  {
    assert forall id :: id in IdsOf(todo) <==> id == todo[0].id || id in IdsOf(todo[1..]) by {
      forall id | id in IdsOf(todo) ensures id == todo[0].id || id in IdsOf(todo[1..]) {
        var i :| 0 <= i < |todo| && todo[i].id == id;
        if i > 0 {
          assert todo[1..][i - 1].id == id;
        }
      }
    }
  }

  lemma KeepsFinalizeNext(w: World, o: Outcomes)
    requires Inv(w) && Enabled(w, FinalizeNext(o))
    ensures Inv(Do(w, FinalizeNext(o)))
  {
    NextIsListed(w.c, w.daemon.todo, o);
    SameHolders(w, Do(w, FinalizeNext(o)));
  }

  lemma KeepsRestartDone(w: World)
    requires Inv(w) && Enabled(w, RestartDone)
    ensures Inv(Do(w, RestartDone))
  {
    SameHolders(w, Do(w, RestartDone));
    assert IdsOf([]) == {};
  }

  // ---------- all steps, all runs ----------

  predicate IsReceiveCall(call: Call) {
    call.OpenReceive? || call.PreReceive? || call.PushAborted? || call.RefUpdate? || call.RefRefused?
    || call.FindPosted? || call.RecordPosted? || call.PostReceiveFails?
  }

  predicate IsExecuteCall(call: Call) {
    call.ExecuteStep? || call.FinalizeStep?
  }

  predicate IsDaemonCall(call: Call) {
    call.WorkerLock? || call.Claim? || call.ExecuteStep? || call.CrashDaemon? || call.Boot?
    || call.FinalizeNext? || call.FinalizeStep? || call.RestartDone?
  }

  lemma ReceiveKeepsInv(w: World, call: Call)
    requires Inv(w) && Enabled(w, call) && IsReceiveCall(call)
    ensures Inv(Do(w, call))
  {
    match call
    case OpenReceive(appId) => KeepsOpenReceive(w, appId);
    case PreReceive(appId, m, expected) => KeepsPreReceive(w, appId, m, expected);
    case PushAborted(appId) => KeepsPhaseMove(w, call);
    case RefUpdate(appId) => KeepsRefUpdate(w, appId);
    case RefRefused(appId) => KeepsPhaseMove(w, call);
    case FindPosted(appId) => KeepsFindPosted(w, appId);
    case RecordPosted(appId) => KeepsRecordPosted(w, appId);
    case PostReceiveFails(appId) => KeepsPhaseMove(w, call);
  }

  lemma DaemonKeepsInv(w: World, call: Call)
    requires Inv(w) && Enabled(w, call) && IsDaemonCall(call)
    ensures Inv(Do(w, call))
  {
    match call
    case WorkerLock(appId) => KeepsWorkerLock(w, appId);
    case Claim(o) => KeepsClaim(w, o);
    case ExecuteStep => KeepsExecute(w);
    case CrashDaemon => KeepsUnlock(w, call);
    case Boot(listing) => KeepsBoot(w, listing);
    case FinalizeNext(o) => KeepsFinalizeNext(w, o);
    case FinalizeStep => KeepsFinalize(w);
    case RestartDone => KeepsRestartDone(w);
  }

  /** Whatever step happens next, the invariant survives it. */
  lemma StepKeepsInv(w: World, call: Call)
    requires Inv(w) && Enabled(w, call)
    ensures Inv(Do(w, call))
  {
    if IsReceiveCall(call) {
      ReceiveKeepsInv(w, call);
    } else if IsDaemonCall(call) {
      DaemonKeepsInv(w, call);
    } else {
      match call
      case RecoverStep(appId, listing, up) => KeepsRecoverStep(w, appId, listing, up);
      case Attach(appId) => KeepsAttach(w, appId);
      case Unlock(appId) => KeepsUnlock(w, call);
      case KillReceive(appId) => KeepsUnlock(w, call);
      case ReserveRedeploy(m) => KeepsReserveRedeploy(w, m);
    }
  }

  /** The invariant holds after every run. */
  lemma {:induction false} RunsKeepInv(w: World, calls: seq<Call>)
    requires Inv(w) && Runs(w, calls)
    ensures Inv(After(w, calls))
    decreases |calls|
  {
    if calls != [] {
      StepKeepsInv(w, calls[0]);
      RunsKeepInv(Do(w, calls[0]), calls[1..]);
    }
  }
}
