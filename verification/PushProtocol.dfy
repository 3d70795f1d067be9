/**
 Pushes, redeploys and the daemon as one transition system. Every call that reads or
 writes shared state is a step of its own; a receive can be killed and the daemon can
 crash between any two of them.

 Premises, stated where a step is enabled: one daemon; the app lock spans the hook, the
 ref update and post-receive, and dies with its holder; the hook is given the real `main`
 as the old id and a different, nonzero new id; deployment ids are fresh; a reservation's
 clock reading is later than those of earlier attempts at the same app commit and than
 those of the logs the app keeps; `main` moves through pushes only.
*/
module PushProtocol {
  import opened Tables
  import opened Results
  import opened Executor

  /** The recovery pass over unqueued reservations, made while holding the lock of one app. */
  datatype Recovery =
    | Listing
    | Scanning(todo: seq<Deployment>)
    | Armed(head: Deployment, todo: seq<Deployment>)  // main was seen at the commit of `head`
    | Ended(ok: bool)

  /** The attempt a receive follows once it is over. */
  datatype Attachment = Nobody | Follow(id: Id) | TooMany

  datatype Phase =
    | Opened
    | Reserved(id: Id)
    | Moved(id: Id)
    | Found(id: Id, target: Id)
    | Recovering(own: Option<Id>, moved: bool, rec: Recovery)
    | Attached(own: Option<Id>, moved: bool, attachment: Attachment)

  /** Who holds the lock of an app: a receive, with the attempts listed when it began, or the worker. */
  datatype Holder = Receive(before: set<Id>, phase: Phase) | Worker(rec: Recovery)

  datatype Daemon =
    | Down
    | Idle
    | Recovers(appId: string)
    | Executing(x: Exec)
    | Restarting(todo: seq<Deployment>)
    | Finalizing(x: Exec, todo: seq<Deployment>)

  /**
   The durable state, and what the runs so far did: `accepted` are reservations whose ref
   update happened, `executed` counts how often each attempt was executed, `composed` are
   attempts whose Compose run and output flush had no error.
  */
  datatype Core = Core(
    t: Tables, main: map<string, string>, accepted: set<Id>, executed: multiset<Id>, composed: set<Id>
  )

  /** `lost` are attempts whose final status write failed since the daemon started. */
  datatype World = World(c: Core, locks: map<string, Holder>, daemon: Daemon, lost: set<Id>)

  const INITIAL := World(Core(Tables(map[], map[], map[], {}, map[]), map[], {}, multiset{}, {}), map[], Down, {})

  predicate IsZeroId(commit: string) {
    commit != "" && forall i | 0 <= i < |commit| :: commit[i] == '0'
  }

  /** `commit` is what `main` of the app points at. */
  predicate AtMain(c: Core, appId: string, commit: string) {
    appId in c.main && c.main[appId] == commit
  }

  /** The old id Git gives the hook. */
  predicate IsOldId(c: Core, appId: string, expected: string) {
    if appId in c.main then expected == c.main[appId] else IsZeroId(expected)
  }

  /** The clock is ahead of earlier attempts at the commit and of the logs of the app. */
  predicate ClockAhead(t: Tables, m: Deployment) {
    && (forall id | id in ForCommit(t, m.appId, m.commit) :: t.deployments[id].startedAt.Earlier(m.startedAt))
    && (forall id | id in t.logs && t.logs[id].appId == m.appId :: t.logs[id].createdAt.Earlier(m.startedAt))
  }

  function AppRows(t: Tables, appId: string): set<Id> {
    set id | id in t.deployments && t.deployments[id].appId == appId
  }

  /** New push attempts whose accepted event is recorded. */
  function AcceptedSince(t: Tables, appId: string, before: set<Id>): set<Id> {
    set id | id in t.deployments && t.deployments[id].appId == appId && id !in before
             && t.deployments[id].trigger == Push && Event(id, RefAccepted) in t.events
  }

  ghost function Attachments(t: Tables, appId: string, before: set<Id>): Attachment {
    var ids := AcceptedSince(t, appId, before);
    if ids == {} then Nobody
    else if id :| id in ids && ids == {id} then Follow(id) else TooMany
  }

  /** One step of a recovery pass; `up` says whether its call goes through. */
  function Recover(c: Core, appId: string, rec: Recovery, listing: seq<Deployment>, up: bool): (Core, Recovery) {
    match rec
    case Listing => (c, if up then Scanning(listing) else Ended(false))
    case Scanning(todo) =>
      if todo == [] then (c, Ended(true))
      else if todo[0].appId != appId then (c, Scanning(todo[1..]))
      else if !up then (c, Ended(false))
      else if appId !in c.main then (c, Ended(true))
      else if c.main[appId] != todo[0].commit then (c, Scanning(todo[1..]))
      else (c, Armed(todo[0], todo[1..]))
    case Armed(head, todo) =>
      if up then (c.(t := RecordQueued(c.t, head.id)), Scanning(todo)) else (c, Ended(false))
    case Ended(ok) => (c, rec)
  }

  /** What an executor step adds to the history besides its write. */
  ghost function Perform(c: Core, x: Exec): Core {
    var s := Decide(c.t, x);
    Core(Apply(c.t, s.write), c.main, c.accepted,
         if x.pc == Begin(LoadApp) then c.executed + multiset{x.d.id} else c.executed,
         if x.pc.Run? && s.next.pc.Good? then c.composed + {x.d.id} else c.composed)
  }

  datatype Call =
    | OpenReceive(appId: string)
    | PreReceive(appId: string, m: Deployment, expected: string)
    | PushAborted(appId: string)
    | RefUpdate(appId: string)
    | RefRefused(appId: string)
    | FindPosted(appId: string)
    | RecordPosted(appId: string)
    | PostReceiveFails(appId: string)
    | RecoverStep(appId: string, listing: seq<Deployment>, up: bool)
    | Attach(appId: string)
    | Unlock(appId: string)
    | KillReceive(appId: string)
    | ReserveRedeploy(m: Deployment)
    | WorkerLock(appId: string)
    | Claim(o: Outcomes)
    | ExecuteStep
    | CrashDaemon
    | Boot(listing: seq<Deployment>)
    | FinalizeNext(o: Outcomes)
    | FinalizeStep
    | RestartDone

  predicate Receives(w: World, appId: string) {
    appId in w.locks && w.locks[appId].Receive?
  }

  predicate RecoveryOf(w: World, appId: string) {
    appId in w.locks && (w.locks[appId].Worker? || w.locks[appId].phase.Recovering?)
  }

  function RecoveryAt(w: World, appId: string): Recovery
    requires RecoveryOf(w, appId)
  {
    if w.locks[appId].Worker? then w.locks[appId].rec else w.locks[appId].phase.rec
  }

  predicate IsReservation(m: Deployment, trigger: Trigger) {
    m.trigger == trigger && m.status == Pending && m.errorMessage == NoMessage && HasNames(m)
  }

  ghost predicate Enabled(w: World, call: Call) {
    match call
    case OpenReceive(appId) => appId !in w.locks
    case PreReceive(appId, m, expected) =>
      && Receives(w, appId) && w.locks[appId].phase.Opened?
      && IsReservation(m, Push) && m.appId == appId && m.id !in w.c.t.deployments
      && IsOldId(w.c, appId, expected) && m.commit != expected && !IsZeroId(m.commit)
      && ClockAhead(w.c.t, m)
    case PushAborted(appId) => Receives(w, appId) && w.locks[appId].phase.Opened?
    case RefUpdate(appId) =>
      Receives(w, appId) && w.locks[appId].phase.Reserved? && w.locks[appId].phase.id in w.c.t.deployments
    case RefRefused(appId) => Receives(w, appId) && w.locks[appId].phase.Reserved?
    case FindPosted(appId) =>
      && Receives(w, appId) && w.locks[appId].phase.Moved? && w.locks[appId].phase.id in w.c.t.deployments
      && ForCommit(w.c.t, appId, w.c.t.deployments[w.locks[appId].phase.id].commit) != {}
    case RecordPosted(appId) => Receives(w, appId) && w.locks[appId].phase.Found?
    case PostReceiveFails(appId) => Receives(w, appId) && (w.locks[appId].phase.Moved? || w.locks[appId].phase.Found?)
    case RecoverStep(appId, listing, up) =>
      && RecoveryOf(w, appId) && !RecoveryAt(w, appId).Ended?
      && (RecoveryAt(w, appId).Listing? && up ==> ListsRows(w.c.t, listing, UnqueuedPending(w.c.t)))
    case Attach(appId) =>
      Receives(w, appId) && w.locks[appId].phase.Recovering? && w.locks[appId].phase.rec == Ended(true)
    case Unlock(appId) =>
      || (RecoveryOf(w, appId) && RecoveryAt(w, appId).Ended?)
      || (Receives(w, appId) && w.locks[appId].phase.Attached?)
    case KillReceive(appId) => Receives(w, appId)
    case ReserveRedeploy(m) =>
      IsReservation(m, Redeploy) && m.id !in w.c.t.deployments && ClockAhead(w.c.t, m)
    case WorkerLock(appId) => w.daemon == Idle && appId !in w.locks
    case Claim(o) => w.daemon == Idle && Claimable(w.c.t) != {}
    case ExecuteStep => w.daemon.Executing?
    case CrashDaemon => true
    case Boot(listing) => w.daemon == Down && ListsRows(w.c.t, listing, WithStatus(w.c.t, Deploying))
    case FinalizeNext(o) => w.daemon.Restarting? && w.daemon.todo != []
    case FinalizeStep => w.daemon.Finalizing?
    case RestartDone => w.daemon == Restarting([])
  }

  function WithPhase(w: World, appId: string, phase: Phase): World
    requires appId in w.locks && w.locks[appId].Receive?
  {
    w.(locks := w.locks[appId := w.locks[appId].(phase := phase)])
  }

  function WithRecovery(w: World, appId: string, rec: Recovery): World
    requires RecoveryOf(w, appId)
  {
    if w.locks[appId].Worker? then w.(locks := w.locks[appId := Worker(rec)])
    else WithPhase(w, appId, w.locks[appId].phase.(rec := rec))
  }

  /** The hook reserves, or its refusal ends the push before the ref update. */
  ghost function DoPreReceive(w: World, appId: string, m: Deployment, expected: string): World
    requires Enabled(w, PreReceive(appId, m, expected))
  {
    match Reserve(w.c.t, m, expected)
    case Ok(t) => WithPhase(w.(c := w.c.(t := t)), appId, Reserved(m.id))
    case Err(_) => WithPhase(w, appId, Recovering(None, false, Listing))
  }

  function DoRefUpdate(w: World, appId: string): World
    requires Enabled(w, RefUpdate(appId))
  {
    var id := w.locks[appId].phase.id;
    var c := w.c.(main := w.c.main[appId := w.c.t.deployments[id].commit], accepted := w.c.accepted + {id});
    WithPhase(w.(c := c), appId, Moved(id))
  }

  /** The executor took a step; after the last one the worker is free again. */
  ghost function DoExecute(w: World): World
    requires Enabled(w, ExecuteStep)
  {
    var x := w.daemon.x;
    var c := Perform(w.c, x);
    var next := Decide(w.c.t, x).next;
    if next.pc != Done then w.(c := c, daemon := Executing(next))
    else w.(c := c, daemon := Idle, lost := if StatusFails(x) then w.lost + {x.d.id} else w.lost)
  }

  /** A pass that could not record everything stops the daemon. */
  ghost function DoFinalize(w: World): World
    requires Enabled(w, FinalizeStep)
  {
    var x := w.daemon.x;
    var c := Perform(w.c, x);
    var next := Decide(w.c.t, x).next;
    w.(c := c, daemon := if next.pc != Done then Finalizing(next, w.daemon.todo)
                         else if next.error then Down else Restarting(w.daemon.todo))
  }

  function DoUnlock(w: World, appId: string): World {
    w.(locks := w.locks - {appId}, daemon := if w.daemon == Recovers(appId) then Idle else w.daemon)
  }

  function DoCrash(w: World): World {
    w.(daemon := Down, locks := if w.daemon.Recovers? then w.locks - {w.daemon.appId} else w.locks)
  }

  ghost function DoClaim(w: World, o: Outcomes): World
    requires Enabled(w, Claim(o))
  {
    var id := Oldest(w.c.t, Claimable(w.c.t));
    var t := Claimed(w.c.t, id);
    w.(c := w.c.(t := t), daemon := Executing(Start(t.deployments[id], o)))
  }

  ghost function Do(w: World, call: Call): World
    requires Enabled(w, call)
  {
    match call
    case OpenReceive(appId) =>
      var t := if appId in w.c.t.apps then w.c.t else w.c.t.(apps := w.c.t.apps[appId := AppCreated]);
      w.(c := w.c.(t := t), locks := w.locks[appId := Receive(AppRows(t, appId), Opened)])
    case PreReceive(appId, m, expected) => DoPreReceive(w, appId, m, expected)
    case PushAborted(appId) => WithPhase(w, appId, Recovering(None, false, Listing))
    case RefUpdate(appId) => DoRefUpdate(w, appId)
    case RefRefused(appId) => WithPhase(w, appId, Recovering(Some(w.locks[appId].phase.id), false, Listing))
    case FindPosted(appId) =>
      var id := w.locks[appId].phase.id;
      WithPhase(w, appId, Found(id, Latest(w.c.t, ForCommit(w.c.t, appId, w.c.t.deployments[id].commit))))
    case RecordPosted(appId) =>
      var phase := w.locks[appId].phase;
      WithPhase(w.(c := w.c.(t := RecordQueued(w.c.t, phase.target))), appId, Recovering(Some(phase.id), true, Listing))
    case PostReceiveFails(appId) => WithPhase(w, appId, Recovering(Some(w.locks[appId].phase.id), true, Listing))
    case RecoverStep(appId, listing, up) =>
      var s := Recover(w.c, appId, RecoveryAt(w, appId), listing, up);
      WithRecovery(w.(c := s.0), appId, s.1)
    case Attach(appId) =>
      var h := w.locks[appId];
      WithPhase(w, appId, Attached(h.phase.own, h.phase.moved, Attachments(w.c.t, appId, h.before)))
    case Unlock(appId) => DoUnlock(w, appId)
    case KillReceive(appId) => w.(locks := w.locks - {appId})
    case ReserveRedeploy(m) =>
      var r := Reserve(w.c.t, m, "");
      if r.Ok? then w.(c := w.c.(t := r.value)) else w
    case WorkerLock(appId) => w.(locks := w.locks[appId := Worker(Listing)], daemon := Recovers(appId))
    case Claim(o) => DoClaim(w, o)
    case ExecuteStep => DoExecute(w)
    case CrashDaemon => DoCrash(w)
    case Boot(listing) => w.(daemon := Restarting(listing), lost := {})
    case FinalizeNext(o) => w.(daemon := Finalizing(StartInterrupted(w.daemon.todo[0], o), w.daemon.todo[1..]))
    case FinalizeStep => DoFinalize(w)
    case RestartDone => w.(daemon := Idle)
  }

  /** A run: every call is enabled where it happens. */
  ghost predicate Runs(w: World, calls: seq<Call>)
    decreases |calls|
  {
    calls == [] || (Enabled(w, calls[0]) && Runs(Do(w, calls[0]), calls[1..]))
  }

  ghost function After(w: World, calls: seq<Call>): World
    requires Runs(w, calls)
    decreases |calls|
  {
    if calls == [] then w else After(Do(w, calls[0]), calls[1..])
  }

  /** One execution step, apart from what the other calls do. */
  lemma ExecuteOnce(w: World)
    requires w.daemon.Executing? && w.daemon.x.pc != Done
    ensures var s := Decide(w.c.t, w.daemon.x);
            var w' := Do(w, ExecuteStep);
      && w'.c == Perform(w.c, w.daemon.x) && w'.c.t == Apply(w.c.t, s.write) && w'.locks == w.locks
      && w'.daemon == (if s.next.pc == Done then Idle else Executing(s.next))
      && w'.lost == (if s.next.pc == Done && StatusFails(w.daemon.x) then w.lost + {w.daemon.x.d.id} else w.lost)
  {
    assert Do(w, ExecuteStep) == DoExecute(w);
  }

  lemma RunsFirst(w: World, first: Call, rest: seq<Call>)
    requires Enabled(w, first) && Runs(Do(w, first), rest)
    ensures Runs(w, [first] + rest) && After(w, [first] + rest) == After(Do(w, first), rest)
  {
    assert ([first] + rest)[1..] == rest;
  }

  lemma RunsOne(w: World, call: Call)
    requires Enabled(w, call)
    ensures Runs(w, [call]) && After(w, [call]) == Do(w, call)
  {
    assert [call] + [] == [call];
    RunsFirst(w, call, []);
  }

  lemma {:induction false} RunsJoin(w: World, a: seq<Call>, b: seq<Call>)
    requires Runs(w, a) && Runs(After(w, a), b)
    ensures Runs(w, a + b) && After(w, a + b) == After(After(w, a), b)
    decreases |a|
  {
    if a == [] {
      assert a + b == b;
    } else {
      RunsJoin(Do(w, a[0]), a[1..], b);
      RunsFirst(w, a[0], a[1..] + b);
      assert [a[0]] + (a[1..] + b) == a + b;
    }
  }
}
