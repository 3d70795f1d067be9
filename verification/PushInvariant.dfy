/** What every step of the push protocol keeps. */
module PushInvariant {
  import opened Tables
  import opened Results
  import opened Executor
  import opened PushProtocol
  import Logs = DeploymentLogs

  // ---------- rows, events, main ----------

  /** One attempt row against `main`, the events and the history. */
  ghost predicate RowOk(c: Core, id: Id)
    requires id in c.t.deployments
  {
    var d := c.t.deployments[id];
    var queued := Event(id, Queued) in c.t.events;
    && d.id == id
    && (id in c.accepted ==> d.trigger == Push)
    && (id in c.accepted && IsActive(d) ==> AtMain(c, d.appId, d.commit))
    && (d.trigger == Push && d.status == Pending && id !in c.accepted ==> !AtMain(c, d.appId, d.commit))
    && (d.trigger == Push && queued ==> id in c.accepted)
    && (Event(id, RefAccepted) in c.t.events <==> d.trigger == Push && queued)
    && (d.trigger == Redeploy ==> queued)
    && (d.status != Pending ==> queued)
    && (forall kind :: Event(id, kind) in c.t.events ==> queued)
    && (d.status == Pending ==> c.executed[id] == 0)
    && c.executed[id] <= 1
  }

  /** No app has two active attempts. */
  ghost predicate OneActive(t: Tables) {
    forall a, b | a in t.deployments && b in t.deployments && IsActive(t.deployments[a]) && IsActive(t.deployments[b])
                  && t.deployments[a].appId == t.deployments[b].appId :: a == b
  }

  /** Events and history speak of rows that exist. */
  ghost predicate KeysOk(c: Core) {
    && (forall e | e in c.t.events :: e.deployment in c.t.deployments)
    && c.accepted <= c.t.deployments.Keys
    && (forall id | id !in c.t.deployments :: c.executed[id] == 0)
  }

  ghost predicate AllRowsOk(c: Core) {
    forall id | id in c.t.deployments :: RowOk(c, id)
  }

  ghost predicate RowsOk(c: Core) {
    OneActive(c.t) && KeysOk(c) && AllRowsOk(c)
  }

  // ---------- lock holders ----------

  function OwnOf(phase: Phase): Option<Id> {
    match phase
    case Opened => None
    case Reserved(id) => Some(id)
    case Moved(id) => Some(id)
    case Found(id, _) => Some(id)
    case Recovering(own, _, _) => own
    case Attached(own, _, _) => own
  }

  ghost predicate IsPushOf(t: Tables, appId: string, id: Id) {
    id in t.deployments && t.deployments[id].appId == appId && t.deployments[id].trigger == Push
  }

  /** An unqueued reservation newer than every other attempt at its commit. */
  ghost predicate NewestUnqueued(t: Tables, appId: string, id: Id) {
    && IsPushOf(t, appId, id) && UnqueuedPush(t, id)
    && forall j | j in ForCommit(t, appId, t.deployments[id].commit) && j != id :: Before(t, j, id)
  }

  /** What is left of a listing still describes the rows of the locked app. */
  ghost predicate TodoOk(t: Tables, appId: string, todo: seq<Deployment>) {
    && (forall i | 0 <= i < |todo| && todo[i].appId == appId ::
          UnqueuedPush(t, todo[i].id) && t.deployments[todo[i].id] == todo[i])
    && (forall i, j | 0 <= i < j < |todo| :: todo[i].id != todo[j].id)
  }

  ghost predicate RecOk(c: Core, appId: string, rec: Recovery) {
    match rec
    case Listing => true
    case Scanning(todo) => TodoOk(c.t, appId, todo)
    case Armed(head, todo) =>
      && TodoOk(c.t, appId, todo) && IsPushOf(c.t, appId, head.id) && head.id in c.accepted
      && (forall i | 0 <= i < |todo| :: todo[i].id != head.id)
    case Ended(_) => true
  }

  /** `id` is among the rows of the app still to look at. */
  ghost predicate Remains(todo: seq<Deployment>, appId: string, id: Id) {
    exists i :: 0 <= i < |todo| && todo[i].id == id && todo[i].appId == appId
  }

  /** The pass will still come across `id`, unless it fails first. */
  ghost predicate Ahead(rec: Recovery, appId: string, id: Id) {
    match rec
    case Listing => true
    case Scanning(todo) => Remains(todo, appId, id)
    case Armed(head, todo) => head.id == id || Remains(todo, appId, id)
    case Ended(ok) => !ok
  }

  ghost predicate PhaseOk(c: Core, appId: string, before: set<Id>, phase: Phase) {
    match phase
    case Opened => before <= AppRows(c.t, appId)
    case Reserved(id) => NewestUnqueued(c.t, appId, id) && id !in c.accepted
    case Moved(id) => NewestUnqueued(c.t, appId, id) && id in c.accepted && appId in c.main
    case Found(id, target) => target == id && id in c.accepted && appId in c.main
    case Recovering(own, moved, rec) =>
      && RecOk(c, appId, rec)
      && (moved ==> own.Some? && appId in c.main)
      && (own.Some? ==> (moved <==> own.value in c.accepted))
      && (moved ==> Event(own.value, RefAccepted) in c.t.events || Ahead(rec, appId, own.value))
    case Attached(own, moved, attachment) =>
      && (moved ==> own.Some? && own.value in c.accepted)
      && attachment == if moved then Follow(own.value) else Nobody
  }

  /** The only new push attempt of a locked app is the one its own receive reserved. */
  ghost predicate OwnOk(t: Tables, appId: string, before: set<Id>, own: Option<Id>) {
    && (forall id | IsPushOf(t, appId, id) && id !in before :: own == Some(id))
    && (own.Some? ==> IsPushOf(t, appId, own.value) && own.value !in before)
  }

  ghost predicate HolderOk(c: Core, appId: string, h: Holder) {
    match h
    case Worker(rec) => RecOk(c, appId, rec)
    case Receive(before, phase) => OwnOk(c.t, appId, before, OwnOf(phase)) && PhaseOk(c, appId, before, phase)
  }

  ghost predicate LocksOk(w: World) {
    forall appId | appId in w.locks :: HolderOk(w.c, appId, w.locks[appId])
  }

  // ---------- the daemon ----------

  ghost predicate Listed(t: Tables, todo: seq<Deployment>) {
    && (forall i | 0 <= i < |todo| ::
           todo[i].id in t.deployments && t.deployments[todo[i].id] == todo[i] && todo[i].status == Deploying)
    && (forall i, j | 0 <= i < j < |todo| :: todo[i].id != todo[j].id)
  }

  ghost predicate ReleaseOf(t: Tables, x: Exec, r: string) {
    r in t.releases && t.releases[r].appId == x.d.appId && t.releases[r].commit == x.d.commit
  }

  /** On the way to success the stored release is the one the attempt names. */
  ghost predicate StoredPc(x: Exec) {
    && (!x.pc.Bad? && x.stored.Some? ==> x.stored.value == x.d.releaseId)
    && (x.pc == Begin(MarkDeploying) || x.pc == Begin(Prepare) || x.pc.Run? || x.pc.Good? ==> x.stored.Some?)
  }

  /** The release row an execution found or made is that of its own commit. */
  ghost predicate StoredOk(t: Tables, x: Exec) {
    (x.stored.Some? ==> ReleaseOf(t, x, x.stored.value)) && StoredPc(x)
  }

  /** A running execution: its row is as it was claimed, and it was started once. */
  ghost predicate ExecOk(c: Core, x: Exec) {
    && x.pc != Done
    && x.d.id in c.t.deployments && c.t.deployments[x.d.id] == x.d && x.d.status == Deploying
    && (!x.pc.Bad? ==> c.executed[x.d.id] == if x.pc == Begin(LoadApp) then 0 else 1)
    && StoredOk(c.t, x)
    && (x.pc.Good? ==> x.d.id in c.composed)
  }

  /** Which attempts are deploying: the one being worked on, the ones to finalize, the ones whose status was lost. */
  ghost predicate DaemonOk(c: Core, daemon: Daemon, lost: set<Id>) {
    match daemon
    case Down => true
    case Idle => WithStatus(c.t, Deploying) == lost
    case Recovers(_) => WithStatus(c.t, Deploying) == lost
    case Executing(x) =>
      && ExecOk(c, x) && x.pc != Bad(LoadInterrupted)
      && x.d.id !in lost && WithStatus(c.t, Deploying) == lost + {x.d.id}
    case Restarting(todo) => Listed(c.t, todo) && WithStatus(c.t, Deploying) == IdsOf(todo) && lost == {}
    case Finalizing(x, todo) =>
      && ExecOk(c, x) && x.pc.Bad? && Listed(c.t, todo) && x.d.id !in IdsOf(todo)
      && WithStatus(c.t, Deploying) == IdsOf(todo) + {x.d.id} && lost == {}
  }

  /** The worker holds a lock exactly while it recovers that app. */
  ghost predicate WorkerLockOk(w: World) {
    && (forall appId | appId in w.locks :: w.locks[appId].Worker? <==> w.daemon == Recovers(appId))
    && (w.daemon.Recovers? ==> w.daemon.appId in w.locks)
  }

  // ---------- releases and logs ----------

  /** A succeeded release was composed without error by an attempt at its own commit. */
  ghost predicate ReleasesOk(c: Core) {
    && Schema(c.t)
    && c.composed <= c.t.deployments.Keys
    && (forall id | id in c.composed :: c.executed[id] == 1)
    && (forall r | r in c.t.releases && c.t.releases[r].status == ReleaseSucceeded :: ComposedFor(c, r))
  }

  ghost predicate ComposedFor(c: Core, r: string)
    requires r in c.t.releases
  {
    exists id :: id in c.composed && id in c.t.deployments && c.t.deployments[id].releaseId == r
      && c.t.deployments[id].appId == c.t.releases[r].appId && c.t.deployments[id].commit == c.t.releases[r].commit
  }

  /** Stored logs keep to the limit, and every active attempt has one. */
  ghost predicate LogsOk(t: Tables) {
    && (forall id | id in t.logs :: Logs.Fits(t.logs[id].log))
    && (forall id | id in t.deployments && IsActive(t.deployments[id]) ::
           id in t.logs && t.logs[id].appId == t.deployments[id].appId)
  }

  ghost predicate Inv(w: World) {
    && RowsOk(w.c) && LocksOk(w) && WorkerLockOk(w)
    && DaemonOk(w.c, w.daemon, w.lost) && ReleasesOk(w.c) && LogsOk(w.c.t)
  }

  lemma InitialInv()
    ensures Inv(INITIAL)
  {
  }
}
