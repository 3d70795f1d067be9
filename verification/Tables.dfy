/**
 The rows the deployment queue lives in, and what each store statement or transaction
 makes of them. A transaction is one function from tables to tables.
*/
module Tables {
  import opened Ordering
  import opened Timestamps
  import opened Results
  import Logs = DeploymentLogs

  /** The random number whose fixed-width hexadecimal text is the deployment id. */
  type Id = nat

  datatype Trigger = Push | Redeploy

  datatype Status = Pending | Deploying | Succeeded | Failed

  /** Where an attempt failed. */
  datatype Stage =
    StageLoad | StageRelease | StageLog | StageStart | StageCheckout | StageConfig | StageCompose | StageRestart

  /** The error column: empty, or one of the texts whose wording is not modelled. */
  datatype Message = NoMessage | OutcomeNotRecorded | FailedAt(stage: Stage)

  datatype Deployment = Deployment(
    id: Id, appId: string, releaseId: string, commit: string, trigger: Trigger,
    status: Status, startedAt: Instant, errorMessage: Message)

  /** The executor takes no attempt without them. */
  predicate HasNames(d: Deployment) {
    d.appId != "" && d.releaseId != "" && d.commit != ""
  }

  datatype AppStatus = AppCreated | AppDeploying | AppHealthy | AppFailed

  datatype ReleaseStatus = ReleasePending | ReleaseDeploying | ReleaseSucceeded | ReleaseFailed

  datatype Release = Release(appId: string, commit: string, status: ReleaseStatus)

  datatype EventKind = RefAccepted | Queued | Started | DeploySucceeded | DeployFailed

  /** An event id: the deployment id and a suffix. */
  datatype Event = Event(deployment: Id, kind: EventKind)

  datatype LogRow = LogRow(appId: string, log: Logs.Log, createdAt: Instant)

  datatype Tables = Tables(
    apps: map<string, AppStatus>,
    deployments: map<Id, Deployment>,
    releases: map<string, Release>,
    events: set<Event>,
    logs: map<Id, LogRow>)

  datatype StoreError = ActiveDeployment | NotFound | Conflict | BadModel | Unavailable

  const RETAINED_LOGS: nat := 20

  /** What the schema enforces: a row is stored under its id, and an app commit has one release. */
  ghost predicate Schema(t: Tables) {
    && (forall id | id in t.deployments :: t.deployments[id].id == id)
    && (forall a, b | a in t.releases && b in t.releases && t.releases[a].appId == t.releases[b].appId
                      && t.releases[a].commit == t.releases[b].commit :: a == b)
  }

  // ---------- row order ----------

  type OrderKey = (Instant, Id)

  /** The order of attempts: by time, then by id. */
  predicate KeyBefore(a: OrderKey, b: OrderKey) {
    a.0.Earlier(b.0) || (a.0 == b.0 && a.1 < b.1)
  }

  /** The same order, read backwards. */
  predicate KeyAfter(a: OrderKey, b: OrderKey) {
    KeyBefore(b, a)
  }

  /** `order by rtrim(started_at, 'Z'), id`: how the queries really compare. */
  predicate TextBefore(a: OrderKey, b: OrderKey) {
    LexLess(SortKey(a.0), SortKey(b.0)) || (SortKey(a.0) == SortKey(b.0) && a.1 < b.1)
  }

  /** Comparing the stored text is comparing times. */
  lemma TextOrderIsChronological(a: OrderKey, b: OrderKey)
    ensures TextBefore(a, b) <==> KeyBefore(a, b)
  {
    SortKeyIsChronological(a.0, b.0);
  }

  lemma KeyOrdersAreTotal()
    ensures StrictTotal(KeyBefore) && StrictTotal(KeyAfter)
  {
  }

  /** `order by rtrim(started_at, 'Z') desc, id desc`. */
  predicate TextAfter(a: OrderKey, b: OrderKey) {
    TextBefore(b, a)
  }

  lemma TextOrdersAreTotal()
    ensures StrictTotal(TextBefore) && StrictTotal(TextAfter)
    ensures forall a: OrderKey, b: OrderKey :: TextBefore(a, b) <==> KeyBefore(a, b)
  {
    KeyOrdersAreTotal();
    forall a: OrderKey, b: OrderKey ensures TextBefore(a, b) <==> KeyBefore(a, b) {
      TextOrderIsChronological(a, b);
    }
    TotalTransfers();
  }

  lemma TotalTransfers()
    requires StrictTotal(KeyBefore)
    requires forall a: OrderKey, b: OrderKey :: TextBefore(a, b) <==> KeyBefore(a, b)
    ensures StrictTotal(TextBefore) && StrictTotal(TextAfter)
  {
  }

  function Key(t: Tables, id: Id): OrderKey
    requires id in t.deployments
  {
    (t.deployments[id].startedAt, id)
  }

  predicate Before(t: Tables, a: Id, b: Id)
    requires a in t.deployments && b in t.deployments
  {
    KeyBefore(Key(t, a), Key(t, b))
  }

  function Keys(t: Tables, ids: set<Id>): set<OrderKey>
    requires ids <= t.deployments.Keys
  {
    set id | id in ids :: Key(t, id)
  }

  /** `order by ... limit 1` over the rows `ids`. */
  ghost function Oldest(t: Tables, ids: set<Id>): (id: Id)
    requires ids != {} && ids <= t.deployments.Keys
    ensures id in ids && forall j | j in ids && j != id :: Before(t, id, j)
  {
    KeyOrdersAreTotal();
    KeysNonempty(t, ids);
    var key := First(Keys(t, ids), KeyBefore);
    assert forall j | j in ids && j != key.1 :: Key(t, j) in Keys(t, ids);
    key.1
  }

  /** `order by ... desc limit 1` over the rows `ids`. */
  ghost function Latest(t: Tables, ids: set<Id>): (id: Id)
    requires ids != {} && ids <= t.deployments.Keys
    ensures id in ids && forall j | j in ids && j != id :: Before(t, j, id)
  {
    KeyOrdersAreTotal();
    KeysNonempty(t, ids);
    var key := First(Keys(t, ids), KeyAfter);
    assert forall j | j in ids && j != key.1 :: Key(t, j) in Keys(t, ids);
    key.1
  }

  /** The row a text-ordered query returns first is the oldest one. */
  lemma FirstByTextIsOldest(t: Tables, ids: set<Id>, key: OrderKey)
    requires ids != {} && ids <= t.deployments.Keys && IsFirst(Keys(t, ids), TextBefore, key)
    ensures key.1 in ids && key.1 == Oldest(t, ids)
  {
    var id := Oldest(t, ids);
    assert Key(t, id) in Keys(t, ids);
    TextOrderIsChronological(key, Key(t, id));
  }

  lemma FirstByTextIsLatest(t: Tables, ids: set<Id>, key: OrderKey)
    requires ids != {} && ids <= t.deployments.Keys && IsFirst(Keys(t, ids), TextAfter, key)
    ensures key.1 in ids && key.1 == Latest(t, ids)
  {
    var id := Latest(t, ids);
    assert Key(t, id) in Keys(t, ids);
    TextOrderIsChronological(Key(t, id), key);
  }

  lemma KeysNonempty(t: Tables, ids: set<Id>)
    requires ids != {} && ids <= t.deployments.Keys
    ensures Keys(t, ids) != {}
  {
    var id :| id in ids;
    assert Key(t, id) in Keys(t, ids);
  }

  function IdsOf(rows: seq<Deployment>): set<Id> {
    set i | 0 <= i < |rows| :: rows[i].id
  }

  lemma IdsOfOneMore(rows: seq<Deployment>, i: nat)
    requires i < |rows|
    ensures IdsOf(rows[..i + 1]) == IdsOf(rows[..i]) + {rows[i].id}
  {
    var more, less := rows[..i + 1], rows[..i];
    assert forall j | 0 <= j <= i :: more[j] == rows[j];
    assert forall j | 0 <= j < i :: less[j] == more[j];
    forall id | id in IdsOf(less) + {rows[i].id} ensures id in IdsOf(more) {
      if id == rows[i].id {
        assert more[i].id == id;
      } else {
        var j :| 0 <= j < |less| && less[j].id == id;
        assert more[j].id == id;
      }
    }
  }

  /** An ordered query result over the rows `ids`: each once, oldest first. */
  ghost predicate ListsRows(t: Tables, rows: seq<Deployment>, ids: set<Id>)
    requires ids <= t.deployments.Keys
  {
    && (forall i | 0 <= i < |rows| :: rows[i].id in ids && rows[i] == t.deployments[rows[i].id])
    && (forall id | id in ids :: t.deployments[id] in rows)
    && (forall i, j | 0 <= i < j < |rows| ::
           KeyBefore((rows[i].startedAt, rows[i].id), (rows[j].startedAt, rows[j].id)))
  }

  /** The rows `ids` as an ordered query returns them. */
  ghost function OldestFirst(t: Tables, ids: set<Id>): (rows: seq<Deployment>)
    requires Schema(t) && ids <= t.deployments.Keys
    ensures ListsRows(t, rows, ids)
    decreases |ids|
  {
    if ids == {} then []
    else
      var id := Oldest(t, ids);
      var rest := OldestFirst(t, ids - {id});
      OldestAhead(t, ids, id, rest);
      [t.deployments[id]] + rest
  }

  lemma OldestAhead(t: Tables, ids: set<Id>, id: Id, rest: seq<Deployment>)
    requires Schema(t) && id in ids && ids <= t.deployments.Keys && ListsRows(t, rest, ids - {id})
    requires forall j | j in ids && j != id :: Before(t, id, j)
    ensures ListsRows(t, [t.deployments[id]] + rest, ids)
  {
    var rows := [t.deployments[id]] + rest;
    forall i, j | 0 <= i < j < |rows|
      ensures KeyBefore((rows[i].startedAt, rows[i].id), (rows[j].startedAt, rows[j].id))
    {
      assert rows[j] == rest[j - 1];
      if i == 0 {
        assert Before(t, id, rest[j - 1].id);
      } else {
        assert rows[i] == rest[i - 1];
      }
    }
  }

  /** There is only one such list. */
  lemma {:induction false} ListsRowsOneWay(t: Tables, a: seq<Deployment>, b: seq<Deployment>, ids: set<Id>)
    requires Schema(t) && ids <= t.deployments.Keys && ListsRows(t, a, ids) && ListsRows(t, b, ids)
    ensures a == b
    decreases |a|
  {
    if a == [] {
      assert ids == {};
    } else {
      SameHead(t, a, b, ids);
      TailListsRows(t, a, ids);
      TailListsRows(t, b, ids);
      ListsRowsOneWay(t, a[1..], b[1..], ids - {a[0].id});
      assert a == [a[0]] + a[1..] && b == [b[0]] + b[1..];
    }
  }

  lemma SameHead(t: Tables, a: seq<Deployment>, b: seq<Deployment>, ids: set<Id>)
    requires Schema(t) && ids <= t.deployments.Keys && ListsRows(t, a, ids) && ListsRows(t, b, ids) && a != []
    ensures b != [] && a[0] == b[0]
  {
    KeyOrdersAreTotal();
    assert a[0] in b;
    assert b[0] in a;
    var i :| 0 <= i < |b| && b[i] == a[0];
    var j :| 0 <= j < |a| && a[j] == b[0];
  }

  lemma TailListsRows(t: Tables, rows: seq<Deployment>, ids: set<Id>)
    requires Schema(t) && ids <= t.deployments.Keys && ListsRows(t, rows, ids) && rows != []
    ensures ListsRows(t, rows[1..], ids - {rows[0].id})
  {
    KeyOrdersAreTotal();
    forall i | 0 <= i < |rows| - 1 ensures rows[1..][i].id != rows[0].id {
      assert KeyBefore((rows[0].startedAt, rows[0].id), (rows[i + 1].startedAt, rows[i + 1].id));
    }
    forall id | id in ids && id != rows[0].id ensures t.deployments[id] in rows[1..] {
      var i :| 0 <= i < |rows| && rows[i] == t.deployments[id];
      assert rows[1..][i - 1] == rows[i];
    }
  }

  // ---------- queries ----------

  predicate IsActive(d: Deployment) {
    d.status == Pending || d.status == Deploying
  }

  function Active(t: Tables, appId: string): set<Id> {
    set id | id in t.deployments && t.deployments[id].appId == appId && IsActive(t.deployments[id])
  }

  function WithStatus(t: Tables, status: Status): set<Id> {
    set id | id in t.deployments && t.deployments[id].status == status
  }

  /** Pending attempts whose queued event exists: what a worker may claim. */
  function Claimable(t: Tables): set<Id> {
    set id | id in t.deployments && t.deployments[id].status == Pending && Event(id, Queued) in t.events
  }

  predicate UnqueuedPush(t: Tables, id: Id) {
    id in t.deployments && t.deployments[id].status == Pending && t.deployments[id].trigger == Push
    && Event(id, Queued) !in t.events
  }

  function UnqueuedPending(t: Tables): set<Id> {
    set id | id in t.deployments && UnqueuedPush(t, id)
  }

  function ForCommit(t: Tables, appId: string, commit: string): set<Id> {
    set id | id in t.deployments && t.deployments[id].appId == appId && t.deployments[id].commit == commit
  }

  /** A release row of an app commit; the unique index allows one. */
  ghost function FindIn(releases: map<string, Release>, appId: string, commit: string): (r: Option<string>)
    ensures r.Some? ==> r.value in releases && releases[r.value].appId == appId && releases[r.value].commit == commit
    ensures r.None? ==> forall id | id in releases :: !(releases[id].appId == appId && releases[id].commit == commit)
  {
    if id :| id in releases && releases[id].appId == appId && releases[id].commit == commit then Some(id) else None
  }

  ghost function FindRelease(t: Tables, appId: string, commit: string): Option<string> {
    FindIn(t.releases, appId, commit)
  }

  /** The id of a release that is yet to be created. */
  function ReleaseId(appId: string, commit: string): string {
    "rel_" + appId + "_" + commit
  }

  /** Apps without an underscore in their names never share a release id, and neither do commits of one app. */
  lemma ReleaseIdsDiffer(appId: string, commit: string, otherApp: string, otherCommit: string)
    requires '_' !in appId && '_' !in otherApp
    ensures ReleaseId(appId, commit) == ReleaseId(otherApp, otherCommit) <==> appId == otherApp && commit == otherCommit
  {
    var a, b := ReleaseId(appId, commit), ReleaseId(otherApp, otherCommit);
    assert a[4..4 + |appId|] == appId && a[4 + |appId|] == '_' && a[5 + |appId|..] == commit;
    assert b[4..4 + |otherApp|] == otherApp && b[4 + |otherApp|] == '_' && b[5 + |otherApp|..] == otherCommit;
    assert |appId| < |otherApp| ==> b[4 + |appId|] == otherApp[|appId|] != '_';
    assert |otherApp| < |appId| ==> a[4 + |otherApp|] == appId[|otherApp|] != '_';
  }

  /** With underscores they can: the names are joined with one. */
  lemma ReleaseIdsCanMeet()
    ensures ReleaseId("a", "b_c") == ReleaseId("a_b", "c")
  {
    assert "rel_" + "a" + "_" + "b_c" == "rel_" + "a_b" + "_" + "c";
  }

  // ---------- reserving ----------

  /** A pending push nobody accepted, which a push from another commit may replace. */
  predicate Discardable(t: Tables, id: Id)
    requires id in t.deployments
  {
    && t.deployments[id].trigger == Push
    && Event(id, RefAccepted) !in t.events && Event(id, Queued) !in t.events
  }

  predicate MayReplace(t: Tables, id: Id, m: Deployment, expected: string)
    requires id in t.deployments
  {
    && m.trigger == Push && m.status == Pending
    && t.deployments[id].status == Pending && t.deployments[id].commit != expected
    && Discardable(t, id)
  }

  function Discard(t: Tables, id: Id): Tables {
    t.(deployments := t.deployments - {id}, logs := t.logs - {id})
  }

  /** Rows the insertions of a reservation would collide with. */
  predicate Collides(t: Tables, m: Deployment) {
    m.id in t.deployments || m.id in t.logs || (m.trigger == Redeploy && Event(m.id, Queued) in t.events)
  }

  function Inserted(t: Tables, m: Deployment): Tables {
    t.(deployments := t.deployments[m.id := m],
       logs := t.logs[m.id := LogRow(m.appId, Logs.EMPTY, m.startedAt)],
       apps := t.apps[m.appId := AppDeploying],
       events := if m.trigger == Redeploy then t.events + {Event(m.id, Queued)} else t.events)
  }

  function LogKeys(t: Tables, appId: string): set<OrderKey> {
    set id | id in t.logs && t.logs[id].appId == appId :: (t.logs[id].createdAt, id)
  }

  /** The logs beyond the newest ones of an app. */
  function ExpiredLogs(t: Tables, appId: string): set<Id> {
    set id | id in t.logs && t.logs[id].appId == appId
             && (t.logs[id].createdAt, id) !in Top(LogKeys(t, appId), KeyAfter, RETAINED_LOGS)
  }

  function RetainLogs(t: Tables, appId: string): Tables {
    t.(logs := t.logs - ExpiredLogs(t, appId))
  }

  lemma RetainedKeys(t: Tables, appId: string)
    ensures LogKeys(RetainLogs(t, appId), appId) == Top(LogKeys(t, appId), KeyAfter, RETAINED_LOGS)
  {
    var t' := RetainLogs(t, appId);
    forall key | key in Top(LogKeys(t, appId), KeyAfter, RETAINED_LOGS) ensures key in LogKeys(t', appId) {
      assert key.1 in t'.logs;
    }
  }

  /** An app keeps its newest logs, as many as there are up to the retained number; no other app loses one. */
  lemma RetentionKeepsNewest(t: Tables, appId: string)
    ensures var all := |LogKeys(t, appId)|; |LogKeys(RetainLogs(t, appId), appId)| == if all <= 20 then all else 20
    ensures var left := LogKeys(RetainLogs(t, appId), appId);
            forall kept, gone | kept in left && gone in LogKeys(t, appId) - left :: KeyBefore(gone, kept)
    ensures forall id | id in t.logs && t.logs[id].appId != appId :: id in RetainLogs(t, appId).logs
  {
    var all := LogKeys(t, appId);
    KeyOrdersAreTotal();
    TopIsBounded(all, KeyAfter, RETAINED_LOGS);
    TopIsFull(all, KeyAfter, RETAINED_LOGS);
    RetainedKeys(t, appId);
    forall kept, gone | kept in Top(all, KeyAfter, RETAINED_LOGS) && gone in all - Top(all, KeyAfter, RETAINED_LOGS)
      ensures KeyBefore(gone, kept)
    {
      assert KeyAfter(kept, gone);
    }
  }

  function Admit(t: Tables, m: Deployment): Result<Tables, StoreError> {
    if Collides(t, m) then Err(Conflict)
    else if m.appId !in t.apps then Err(NotFound)
    else Ok(RetainLogs(Inserted(t, m), m.appId))
  }

  /** The reservation transaction of pushes and redeploys. */
  ghost function Reserve(t: Tables, m: Deployment, expected: string): Result<Tables, StoreError> {
    if Active(t, m.appId) == {} then Admit(t, m)
    else
      var id := Oldest(t, Active(t, m.appId));
      if MayReplace(t, id, m, expected) then Admit(Discard(t, id), m) else Err(ActiveDeployment)
  }

  // ---------- claiming and recording ----------

  function Claimed(t: Tables, id: Id): Tables
    requires id in t.deployments
  {
    t.(deployments := t.deployments[id := t.deployments[id].(status := Deploying, errorMessage := NoMessage)])
  }

  function RecordQueued(t: Tables, id: Id): Tables {
    t.(events := t.events + {Event(id, RefAccepted), Event(id, Queued)})
  }

  function QueuedEvents(ids: set<Id>): set<Event> {
    (set id | id in ids :: Event(id, RefAccepted)) + (set id | id in ids :: Event(id, Queued))
  }

  /** Accepted and queued recorded for all of `ids`. */
  function WithQueued(t: Tables, ids: set<Id>): Tables {
    t.(events := t.events + QueuedEvents(ids))
  }

  /** The single-row writes of an executor. */
  datatype Write =
    | Nothing
    | SetApp(appId: string, appStatus: AppStatus)
    | NewRelease(releaseId: string, app: string, commit: string)
    | MarkRelease(releaseId: string, status: ReleaseStatus)
    | SucceedRelease(releaseId: string)
    | AddLog(id: Id, output: string)
    | AddEvent(event: Event)
    | EndAttempt(id: Id, end: Status, message: Message)

  /** The statement, or nothing when it has no row to work on or its row is already there. */
  function Apply(t: Tables, w: Write): Tables {
    match w
    case Nothing => t
    case SetApp(appId, status) => if appId in t.apps then t.(apps := t.apps[appId := status]) else t
    case NewRelease(id, appId, commit) =>
      if id in t.releases then t else t.(releases := t.releases[id := Release(appId, commit, ReleaseDeploying)])
    case MarkRelease(id, status) =>
      if id in t.releases && t.releases[id].status != ReleaseSucceeded then SetRelease(t, id, status) else t
    case SucceedRelease(id) => if id in t.releases then SetRelease(t, id, ReleaseSucceeded) else t
    case AddLog(id, output) =>
      if id in t.logs then t.(logs := t.logs[id := t.logs[id].(log := Logs.Append(t.logs[id].log, output))]) else t
    case AddEvent(event) => t.(events := t.events + {event})
    case EndAttempt(id, status, message) =>
      if id in t.deployments then t.(deployments := Ended(t, id, status, message)) else t
  }

  /** The attempts once one of them has ended. */
  function Ended(t: Tables, id: Id, status: Status, message: Message): map<Id, Deployment>
    requires id in t.deployments
  {
    t.deployments[id := t.deployments[id].(status := status, errorMessage := message)]
  }

  function SetRelease(t: Tables, id: string, status: ReleaseStatus): Tables
    requires id in t.releases
  {
    t.(releases := t.releases[id := t.releases[id].(status := status)])
  }

  /** The event ids of different deployments or kinds are different texts. */
  function EventText(deployment: string, kind: EventKind): string {
    "evt_" + deployment + Suffix(kind)
  }

  function Suffix(kind: EventKind): string {
    match kind
    case RefAccepted => "_git_ref_accepted"
    case Queued => "_queued"
    case Started => "_started"
    case DeploySucceeded => "_succeeded"
    case DeployFailed => "_failed"
  }

  lemma SuffixEnds(deployment: string, kind: EventKind)
    ensures var s := EventText(deployment, kind);
            |s| >= 7 + |deployment| && s[4..|s| - |Suffix(kind)|] == deployment
            && (s[|s| - 3], s[|s| - 4]) == (match kind
                case RefAccepted => ('t', 'p')
                case Queued => ('u', 'e')
                case Started => ('t', 'r')
                case DeploySucceeded => ('d', 'e')
                case DeployFailed => ('l', 'i'))
  {
  }

  lemma EventTextsDiffer(a: string, ka: EventKind, b: string, kb: EventKind)
    ensures EventText(a, ka) == EventText(b, kb) <==> a == b && ka == kb
  {
    SuffixEnds(a, ka);
    SuffixEnds(b, kb);
  }
}
