/**
 What a step may change without disturbing a lock holder, the daemon or the releases it
 is not about.
*/
module PushFrames {
  import opened Tables
  import opened PushProtocol
  import opened PushInvariant

  ghost predicate SameAttempt(a: Deployment, b: Deployment) {
    a.id == b.id && a.appId == b.appId && a.trigger == b.trigger && a.commit == b.commit && a.startedAt == b.startedAt
      && a.releaseId == b.releaseId
  }

  /** The rows of an app stay; its unqueued reservation stays as it is and shuts out new attempts. */
  ghost predicate StableRows(t: Tables, t': Tables, appId: string) {
    && (forall id | id in t.deployments && t.deployments[id].appId == appId ::
          id in t'.deployments && SameAttempt(t.deployments[id], t'.deployments[id]))
    && (forall id | IsPushOf(t', appId, id) :: id in t.deployments && t.deployments[id].appId == appId)
    && (forall id | IsPushOf(t, appId, id) && UnqueuedPush(t, id) ::
           t'.deployments[id] == t.deployments[id] && UnqueuedPush(t', id))
    && (forall id, j |
          IsPushOf(t, appId, id) && UnqueuedPush(t, id) && j in t'.deployments && t'.deployments[j].appId == appId ::
          j in t.deployments && t.deployments[j].appId == appId)
    && (forall id | IsPushOf(t, appId, id) && Event(id, RefAccepted) in t.events :: Event(id, RefAccepted) in t'.events)
  }

  ghost predicate Stable(c: Core, c': Core, appId: string) {
    && StableRows(c.t, c'.t, appId)
    && (forall id | IsPushOf(c.t, appId, id) :: id in c.accepted <==> id in c'.accepted)
    && (appId in c.main ==> appId in c'.main)
  }

  lemma TodoStable(c: Core, c': Core, appId: string, todo: seq<Deployment>)
    requires Stable(c, c', appId) && TodoOk(c.t, appId, todo)
    ensures TodoOk(c'.t, appId, todo)
  {
  }

  lemma RecStable(c: Core, c': Core, appId: string, rec: Recovery)
    requires Stable(c, c', appId) && RecOk(c, appId, rec)
    ensures RecOk(c', appId, rec)
  {
    match rec
    case Listing =>
    case Scanning(todo) => TodoStable(c, c', appId, todo);
    case Armed(head, todo) => TodoStable(c, c', appId, todo);
    case Ended(_) =>
  }

  lemma NewestStable(c: Core, c': Core, appId: string, id: Id)
    requires Stable(c, c', appId) && NewestUnqueued(c.t, appId, id)
    ensures NewestUnqueued(c'.t, appId, id)
  {
    forall j | j in ForCommit(c'.t, appId, c'.t.deployments[id].commit) && j != id ensures Before(c'.t, j, id) {
      assert j in c.t.deployments;
      assert j in ForCommit(c.t, appId, c.t.deployments[id].commit);
      assert Before(c.t, j, id);
    }
  }

  lemma PhaseStable(c: Core, c': Core, appId: string, before: set<Id>, phase: Phase)
    requires Stable(c, c', appId) && OwnOk(c.t, appId, before, OwnOf(phase)) && PhaseOk(c, appId, before, phase)
    ensures PhaseOk(c', appId, before, phase)
  {
    match phase
    case Opened =>
    case Reserved(id) => NewestStable(c, c', appId, id);
    case Moved(id) => NewestStable(c, c', appId, id);
    case Found(id, target) =>
    case Recovering(own, moved, rec) => RecStable(c, c', appId, rec);
    case Attached(own, moved, attachment) =>
  }

  lemma HolderStable(c: Core, c': Core, appId: string, h: Holder)
    requires Stable(c, c', appId) && HolderOk(c, appId, h)
    ensures HolderOk(c', appId, h)
  {
    match h
    case Worker(rec) => RecStable(c, c', appId, rec);
    case Receive(before, phase) => PhaseStable(c, c', appId, before, phase);
  }

  /** Nothing the daemon works on changes. */
  ghost predicate DaemonFrame(c: Core, c': Core) {
    && WithStatus(c.t, Deploying) == WithStatus(c'.t, Deploying)
    && (forall id | id in WithStatus(c.t, Deploying) ::
           c'.t.deployments[id] == c.t.deployments[id] && c'.executed[id] == c.executed[id])
    && c'.t.releases == c.t.releases && c'.composed == c.composed
  }

  lemma DaemonStable(c: Core, c': Core, daemon: Daemon, lost: set<Id>)
    requires DaemonFrame(c, c') && DaemonOk(c, daemon, lost)
    ensures DaemonOk(c', daemon, lost)
  {
  }

  /** Composed attempts keep their rows, and releases are untouched. */
  ghost predicate ReleaseFrame(c: Core, c': Core) {
    && c'.t.releases == c.t.releases && c'.composed == c.composed && c'.executed == c.executed
    && (forall id | id in c.composed ::
           id in c'.t.deployments && (id in c.t.deployments ==> SameAttempt(c.t.deployments[id], c'.t.deployments[id])))
    && (forall id | id in c'.t.deployments :: c'.t.deployments[id].id == id)
  }

  lemma ReleasesStable(c: Core, c': Core)
    requires ReleaseFrame(c, c') && ReleasesOk(c)
    ensures ReleasesOk(c')
  {
    forall r | r in c'.t.releases && c'.t.releases[r].status == ReleaseSucceeded ensures ComposedFor(c', r) {
      assert ComposedFor(c, r);
      var id :| id in c.composed && id in c.t.deployments && c.t.deployments[id].releaseId == r
        && c.t.deployments[id].appId == c.t.releases[r].appId && c.t.deployments[id].commit == c.t.releases[r].commit;
      assert id in c'.composed && id in c'.t.deployments;
    }
  }
}
