/**
 Pushes Git accepted whose hook never queued them. The pass runs under the lock of one
 app and lets `main` decide; the worker makes it for every app it can lock before it claims.
*/
module PendingRecovery {
  import opened Tables
  import opened Results
  import opened PushProtocol
  import opened PushInvariant
  import opened SqliteStores

  /** How the calls of one pass come out: the listing, and for which rows resolving main or recording fails. */
  datatype PassOutcomes = PassOutcomes(list: bool, unresolved: set<Id>, unrecorded: set<Id>)

  /** The pass from row `i` of its listing on: the rows it leaves, and whether it ended without an error. */
  function RecoverRows(
    t: Tables, main: Option<string>, appId: string, rows: seq<Deployment>, o: PassOutcomes, i: nat
  ): (Tables, bool)
    requires i <= |rows|
    decreases |rows| - i
  {
    if i == |rows| then (t, true)
    else if rows[i].appId != appId then RecoverRows(t, main, appId, rows, o, i + 1)
    else if rows[i].id in o.unresolved then (t, false)
    else if main.None? then (t, true)
    else if main.value != rows[i].commit then RecoverRows(t, main, appId, rows, o, i + 1)
    else if rows[i].id in o.unrecorded then (t, false)
    else RecoverRows(RecordQueued(t, rows[i].id), main, appId, rows, o, i + 1)
  }

  /** A whole pass, listing included. */
  ghost function PassOver(t: Tables, main: Option<string>, appId: string, o: PassOutcomes): (Tables, bool)
    requires Schema(t)
  {
    if o.list then RecoverRows(t, main, appId, OldestFirst(t, UnqueuedPending(t)), o, 0) else (t, false)
  }

  /** `main` is what the repository of the app answers, if it has a main at all. */
  method RecoverPendingDeployments(
    store: SqliteStore, appId: string, main: Option<string>, o: PassOutcomes
  ) returns (ok: bool)
    requires store.Valid()
    modifies store
    ensures store.Valid()
    ensures (store.Rows(), ok) == PassOver(old(store.Rows()), main, appId, o)
  {
    if !o.list {
      return false;
    }
    var rows := store.ListUnqueuedPendingDeployments();
    ghost var ids := UnqueuedPending(store.Rows());
    ListsRowsOneWay(store.Rows(), rows, OldestFirst(store.Rows(), ids), ids);
    var i := 0;
    while i < |rows|
      invariant i <= |rows| && store.Valid()
      invariant PassOver(old(store.Rows()), main, appId, o) == RecoverRows(store.Rows(), main, appId, rows, o, i)
    {
      if rows[i].appId == appId {
        if rows[i].id in o.unresolved {
          return false;
        }
        if main.None? {
          return true;
        }
        if main.value == rows[i].commit {
          if rows[i].id in o.unrecorded {
            return false;
          }
          var _ := store.RecordDeploymentQueued(rows[i].id);
        }
      }
      i := i + 1;
    }
    ok := true;
  }

  // ---------- what a pass does ----------

  /** Rows of the app between two positions of the listing whose commit is main. */
  function AtMainBetween(rows: seq<Deployment>, appId: string, main: Option<string>, from: nat, to: nat): set<Id>
    requires to <= |rows|
  {
    set i | from <= i < to && rows[i].appId == appId && main == Some(rows[i].commit) :: rows[i].id
  }

  lemma QueueOneMore(t: Tables, id: Id, ids: set<Id>)
    ensures WithQueued(RecordQueued(t, id), ids) == WithQueued(t, {id} + ids)
  {
  }

  lemma {:induction false} PassQueuesPrefix(
    t: Tables, main: Option<string>, appId: string, rows: seq<Deployment>, o: PassOutcomes, i: nat
  ) returns (k: nat)
    requires i <= |rows|
    ensures i <= k <= |rows|
    ensures RecoverRows(t, main, appId, rows, o, i).0 == WithQueued(t, AtMainBetween(rows, appId, main, i, k))
    ensures RecoverRows(t, main, appId, rows, o, i).1 ==> k == |rows|
    decreases |rows| - i
  {
    if i < |rows| && RecoverRows(t, main, appId, rows, o, i) == RecoverRows(t, main, appId, rows, o, i + 1)
       && !(rows[i].appId == appId && main == Some(rows[i].commit)) {
      k := PassQueuesPrefix(t, main, appId, rows, o, i + 1);
      assert AtMainBetween(rows, appId, main, i, k) == AtMainBetween(rows, appId, main, i + 1, k);
    } else if i < |rows| && rows[i].id !in o.unresolved && rows[i].id !in o.unrecorded && main.Some? {
      k := PassQueuesPrefix(RecordQueued(t, rows[i].id), main, appId, rows, o, i + 1);
      assert AtMainBetween(rows, appId, main, i, k) == {rows[i].id} + AtMainBetween(rows, appId, main, i + 1, k);
      QueueOneMore(t, rows[i].id, AtMainBetween(rows, appId, main, i + 1, k));
    } else {
      k := if i < |rows| && RecoverRows(t, main, appId, rows, o, i).1 then |rows| else i;
      assert AtMainBetween(rows, appId, main, i, k) == {};
      assert QueuedEvents({}) == {};
    }
  }

  /** The unqueued reservations of an app that Git really accepted. */
  function AcceptedUnqueued(c: Core, appId: string): set<Id> {
    set id | id in UnqueuedPending(c.t) && c.t.deployments[id].appId == appId && id in c.accepted
  }

  function MainOf(c: Core, appId: string): Option<string> {
    if appId in c.main then Some(c.main[appId]) else None
  }

  lemma ListedAtMain(c: Core, appId: string, rows: seq<Deployment>, k: nat)
    requires RowsOk(c) && ListsRows(c.t, rows, UnqueuedPending(c.t)) && k <= |rows|
    ensures AtMainBetween(rows, appId, MainOf(c, appId), 0, k) <= AcceptedUnqueued(c, appId)
    ensures k == |rows| ==> AtMainBetween(rows, appId, MainOf(c, appId), 0, k) == AcceptedUnqueued(c, appId)
  {
    forall i | 0 <= i < |rows| && rows[i].appId == appId && MainOf(c, appId) == Some(rows[i].commit)
      ensures rows[i].id in AcceptedUnqueued(c, appId)
    {
      assert RowOk(c, rows[i].id);
    }
    if k == |rows| {
      forall id | id in AcceptedUnqueued(c, appId) ensures id in AtMainBetween(rows, appId, MainOf(c, appId), 0, k) {
        assert RowOk(c, id);
        assert c.t.deployments[id] in rows;
        var i :| 0 <= i < |rows| && rows[i] == c.t.deployments[id];
        assert rows[i].id == id;
      }
    }
  }

  /**
   In every state the protocol reaches, a pass queues only reservations Git really accepted,
   and one that ends without an error queues all of those of its app.
  */
  lemma PassQueuesAccepted(c: Core, appId: string, rows: seq<Deployment>, o: PassOutcomes) returns (ids: set<Id>)
    requires RowsOk(c) && ListsRows(c.t, rows, UnqueuedPending(c.t))
    ensures ids <= AcceptedUnqueued(c, appId)
    ensures var (t', ok) := RecoverRows(c.t, MainOf(c, appId), appId, rows, o, 0);
      && t' == WithQueued(c.t, ids)
      && (ok ==> ids == AcceptedUnqueued(c, appId))
  {
    var k := PassQueuesPrefix(c.t, MainOf(c, appId), appId, rows, o, 0);
    ids := AtMainBetween(rows, appId, MainOf(c, appId), 0, k);
    ListedAtMain(c, appId, rows, k);
  }

  // ---------- the worker ----------

  /** `busy` apps are locked by someone else, `main` is what each repository answers. */
  datatype Surroundings = Surroundings(busy: set<string>, main: map<string, string>)

  /**
   How the calls of a round come out: the listing; for which listed rows taking the lock fails,
   although it is free, and for which letting it go does; and the passes.
  */
  datatype RoundOutcomes = RoundOutcomes(list: bool, refused: set<Id>, stuck: set<Id>, pass: Id -> PassOutcomes)

  function MainIn(s: Surroundings, appId: string): Option<string> {
    if appId in s.main then Some(s.main[appId]) else None
  }

  /** The lock can be taken and the app is there. */
  predicate Locks(t: Tables, s: Surroundings, o: RoundOutcomes, d: Deployment) {
    d.id !in o.refused && d.appId in t.apps
  }

  /** The rounds over the listed rows from `i` on; errors are collected and do not stop the others. */
  ghost function RecoverFrom(
    t: Tables, s: Surroundings, listed: seq<Deployment>, o: RoundOutcomes, i: nat
  ): (r: (Tables, bool))
    requires Schema(t) && i <= |listed|
    ensures Schema(r.0)
    decreases |listed| - i
  {
    if i == |listed| then (t, true)
    else if listed[i].appId in s.busy then RecoverFrom(t, s, listed, o, i + 1)
    else if !Locks(t, s, o, listed[i]) then (RecoverFrom(t, s, listed, o, i + 1).0, false)
    else
      PassKeepsSchema(t, MainIn(s, listed[i].appId), listed[i].appId, o.pass(listed[i].id));
      var (passed, ok) := PassOver(t, MainIn(s, listed[i].appId), listed[i].appId, o.pass(listed[i].id));
      var (recovered, rest) := RecoverFrom(passed, s, listed, o, i + 1);
      (recovered, ok && listed[i].id !in o.stuck && rest)
  }

  ghost function RecoverAll(t: Tables, s: Surroundings, o: RoundOutcomes): (r: (Tables, bool))
    requires Schema(t)
    ensures Schema(r.0)
  {
    if o.list then RecoverFrom(t, s, OldestFirst(t, UnqueuedPending(t)), o, 0) else (t, false)
  }

  lemma PassKeepsSchema(t: Tables, main: Option<string>, appId: string, o: PassOutcomes)
    requires Schema(t)
    ensures Schema(PassOver(t, main, appId, o).0)
  {
    var ids := PassQueues(t, main, appId, o);
  }

  /** A pass queues some of the unqueued rows of its app that are at main, and all of them if no call of it fails. */
  lemma PassQueues(t: Tables, main: Option<string>, appId: string, o: PassOutcomes) returns (ids: set<Id>)
    requires Schema(t)
    ensures ids <= AtMainIn(t, appId, main) && PassOver(t, main, appId, o).0 == WithQueued(t, ids)
    ensures PassOver(t, main, appId, o).1 ==> ids == AtMainIn(t, appId, main)
  {
    ids := {};
    assert QueuedEvents({}) == {};
    if o.list {
      var rows := OldestFirst(t, UnqueuedPending(t));
      var k := PassQueuesPrefix(t, main, appId, rows, o, 0);
      ids := AtMainBetween(rows, appId, main, 0, k);
      AllAtMain(t, appId, main, rows, k);
    }
  }

  function AtMainIn(t: Tables, appId: string, main: Option<string>): set<Id> {
    set id | id in UnqueuedPending(t) && t.deployments[id].appId == appId && main == Some(t.deployments[id].commit)
  }

  lemma AllAtMain(t: Tables, appId: string, main: Option<string>, rows: seq<Deployment>, k: nat)
    requires Schema(t) && ListsRows(t, rows, UnqueuedPending(t)) && k <= |rows|
    ensures AtMainBetween(rows, appId, main, 0, k) <= AtMainIn(t, appId, main)
    ensures k == |rows| ==> AtMainBetween(rows, appId, main, 0, k) == AtMainIn(t, appId, main)
  {
    if k == |rows| {
      forall id | id in AtMainIn(t, appId, main) ensures id in AtMainBetween(rows, appId, main, 0, k) {
        assert t.deployments[id] in rows;
        var i :| 0 <= i < |rows| && rows[i] == t.deployments[id];
        assert rows[i].id == id;
      }
    }
  }

  /** One pass per listed row whose app can be locked; errors are collected and do not stop the others. */
  method RecoverPending(store: SqliteStore, s: Surroundings, o: RoundOutcomes) returns (ok: bool)
    requires store.Valid()
    modifies store
    ensures store.Valid()
    ensures (store.Rows(), ok) == RecoverAll(old(store.Rows()), s, o)
  {
    if !o.list {
      return false;
    }
    var listed := store.ListUnqueuedPendingDeployments();
    ghost var ids := UnqueuedPending(store.Rows());
    ListsRowsOneWay(store.Rows(), listed, OldestFirst(store.Rows(), ids), ids);
    ok := true;
    var i := 0;
    while i < |listed|
      invariant i <= |listed| && store.Valid()
      invariant RecoverAll(old(store.Rows()), s, o) ==
        (RecoverFrom(store.Rows(), s, listed, o, i).0, ok && RecoverFrom(store.Rows(), s, listed, o, i).1)
    {
      var d := listed[i];
      if d.appId !in s.busy {
        if d.id in o.refused || d.appId !in store.apps {
          ok := false;
        } else {
          var passed := RecoverPendingDeployments(store, d.appId, MainIn(s, d.appId), o.pass(d.id));
          ok := ok && passed && d.id !in o.stuck;
        }
      }
      i := i + 1;
    }
  }

  /** Unqueued reservations a worker may queue: their app is free and their commit is main. */
  function Recoverable(t: Tables, s: Surroundings): set<Id> {
    set id | id in UnqueuedPending(t) && t.deployments[id].appId !in s.busy
             && t.deployments[id].appId in s.main && s.main[t.deployments[id].appId] == t.deployments[id].commit
  }

  /** Those whose own turn goes through: the lock is taken, the app is there and no call of the pass fails. */
  function Undisturbed(t: Tables, s: Surroundings, o: RoundOutcomes): set<Id> {
    set id | id in Recoverable(t, s) && o.list && Locks(t, s, o, t.deployments[id])
             && o.pass(id) == PassOutcomes(true, {}, {})
  }

  /** The turn of a row reports no error. */
  predicate TurnEnds(t: Tables, s: Surroundings, o: RoundOutcomes, id: Id)
    requires id in t.deployments
  {
    var d, pass := t.deployments[id], o.pass(id);
    d.appId in s.busy
    || (Locks(t, s, o, d) && id !in o.stuck && pass.list && id !in pass.unresolved
        && (MainIn(s, d.appId) == Some(d.commit) ==> id !in pass.unrecorded))
  }

  lemma QueuedTogether(t: Tables, s: Surroundings, ids: set<Id>, more: set<Id>)
    requires ids <= Recoverable(t, s) && more <= Recoverable(WithQueued(t, ids), s)
    ensures ids + more <= Recoverable(t, s)
    ensures WithQueued(WithQueued(t, ids), more) == WithQueued(t, ids + more)
  {
    assert QueuedEvents(ids) + QueuedEvents(more) == QueuedEvents(ids + more);
  }

  lemma {:induction false} FaultlessPassEnds(
    t: Tables, main: Option<string>, appId: string, rows: seq<Deployment>, o: PassOutcomes, i: nat
  )
    requires i <= |rows| && o.unresolved == {} && o.unrecorded == {}
    ensures RecoverRows(t, main, appId, rows, o, i).1
    decreases |rows| - i
  {
    if i < |rows| {
      FaultlessPassEnds(t, main, appId, rows, o, i + 1);
      FaultlessPassEnds(RecordQueued(t, rows[i].id), main, appId, rows, o, i + 1);
    }
  }

  ghost predicate RowsOf(t: Tables, listed: seq<Deployment>) {
    forall j | 0 <= j < |listed| :: listed[j].id in t.deployments && t.deployments[listed[j].id] == listed[j]
  }

  lemma UndisturbedQueued(t: Tables, s: Surroundings, o: RoundOutcomes, d: Deployment)
    requires Schema(t) && d.id in Undisturbed(t, s, o) && t.deployments[d.id] == d
    ensures var ids := AtMainIn(t, d.appId, MainIn(s, d.appId));
            d.id in ids && PassOver(t, MainIn(s, d.appId), d.appId, o.pass(d.id)).0 == WithQueued(t, ids)
  {
    var ids := PassQueues(t, MainIn(s, d.appId), d.appId, o.pass(d.id));
    FaultlessPassEnds(t, MainIn(s, d.appId), d.appId, OldestFirst(t, UnqueuedPending(t)), o.pass(d.id), 0);
  }

  lemma UndisturbedStays(t: Tables, s: Surroundings, o: RoundOutcomes, ids: set<Id>, id: Id)
    requires id in Undisturbed(t, s, o) && id !in ids
    ensures id in Undisturbed(WithQueued(t, ids), s, o)
  {
  }

  lemma {:induction false} RoundQueues(
    t: Tables, s: Surroundings, listed: seq<Deployment>, o: RoundOutcomes, i: nat
  ) returns (ids: set<Id>)
    requires Schema(t) && i <= |listed| && RowsOf(t, listed)
    ensures ids <= Recoverable(t, s) && RecoverFrom(t, s, listed, o, i).0 == WithQueued(t, ids)
    ensures forall j | i <= j < |listed| && listed[j].id in Undisturbed(t, s, o) :: listed[j].id in ids
    decreases |listed| - i
  {
    if i == |listed| {
      ids := {};
      assert QueuedEvents({}) == {};
    } else if listed[i].appId in s.busy || !Locks(t, s, o, listed[i]) {
      ids := RoundQueues(t, s, listed, o, i + 1);
    } else {
      ids := TurnQueues(t, s, listed, o, i);
    }
  }

  lemma TurnQueues(t: Tables, s: Surroundings, listed: seq<Deployment>, o: RoundOutcomes, i: nat) returns (ids: set<Id>)
    requires Schema(t) && i < |listed| && RowsOf(t, listed)
    requires listed[i].appId !in s.busy && Locks(t, s, o, listed[i])
    ensures ids <= Recoverable(t, s) && RecoverFrom(t, s, listed, o, i).0 == WithQueued(t, ids)
    ensures forall j | i <= j < |listed| && listed[j].id in Undisturbed(t, s, o) :: listed[j].id in ids
    decreases |listed| - i, 0
  {
    var d := listed[i];
    var first := PassQueues(t, MainIn(s, d.appId), d.appId, o.pass(d.id));
    if d.id in Undisturbed(t, s, o) {
      UndisturbedQueued(t, s, o, d);
      first := AtMainIn(t, d.appId, MainIn(s, d.appId));
    }
    assert first <= Recoverable(t, s);
    var rest := RoundQueues(WithQueued(t, first), s, listed, o, i + 1);
    ids := first + rest;
    QueuedTogether(t, s, first, rest);
    forall j | i < j < |listed| && listed[j].id in Undisturbed(t, s, o) ensures listed[j].id in ids {
      if listed[j].id !in first {
        UndisturbedStays(t, s, o, first, listed[j].id);
      }
    }
  }

  /**
   Whatever goes wrong for other rows: only recoverable reservations are queued, and every one
   whose own turn goes through is.
  */
  lemma RecoversUndisturbed(t: Tables, s: Surroundings, o: RoundOutcomes) returns (ids: set<Id>)
    requires Schema(t)
    ensures Undisturbed(t, s, o) <= ids <= Recoverable(t, s)
    ensures RecoverAll(t, s, o).0 == WithQueued(t, ids)
  {
    ids := {};
    assert QueuedEvents({}) == {};
    if o.list {
      var listed := OldestFirst(t, UnqueuedPending(t));
      ids := RoundQueues(t, s, listed, o, 0);
      forall id | id in Undisturbed(t, s, o) ensures id in ids {
        assert t.deployments[id] in listed;
        var j :| 0 <= j < |listed| && listed[j] == t.deployments[id];
      }
    }
  }

  /** The only row of its app decides how a pass ends. */
  lemma {:induction false} LonePassEnds(
    t: Tables, main: Option<string>, appId: string, rows: seq<Deployment>, o: PassOutcomes, i: nat, p: nat
  )
    requires i <= p < |rows| && rows[p].appId == appId && forall j | i <= j < |rows| && rows[j].appId == appId :: j == p
    ensures RecoverRows(t, main, appId, rows, o, i).1 <==>
      rows[p].id !in o.unresolved && (main == Some(rows[p].commit) ==> rows[p].id !in o.unrecorded)
    decreases |rows| - i
  {
    if i < p {
      LonePassEnds(t, main, appId, rows, o, i + 1, p);
    } else {
      NoRowsEnd(t, main, appId, rows, o, i + 1);
      NoRowsEnd(RecordQueued(t, rows[i].id), main, appId, rows, o, i + 1);
    }
  }

  lemma {:induction false} NoRowsEnd(
    t: Tables, main: Option<string>, appId: string, rows: seq<Deployment>, o: PassOutcomes, i: nat
  )
    requires i <= |rows| && forall j | i <= j < |rows| :: rows[j].appId != appId
    ensures RecoverRows(t, main, appId, rows, o, i).1
    decreases |rows| - i
  {
    if i < |rows| {
      NoRowsEnd(t, main, appId, rows, o, i + 1);
    }
  }

  lemma LoneTurnEnds(t: Tables, s: Surroundings, o: RoundOutcomes, d: Deployment)
    requires Schema(t) && OneActive(t) && d.id in UnqueuedPending(t) && t.deployments[d.id] == d
    ensures var (main, pass) := (MainIn(s, d.appId), o.pass(d.id));
            PassOver(t, main, d.appId, pass).1 <==>
              pass.list && d.id !in pass.unresolved && (main == Some(d.commit) ==> d.id !in pass.unrecorded)
  {
    var rows := OldestFirst(t, UnqueuedPending(t));
    assert t.deployments[d.id] in rows;
    var p :| 0 <= p < |rows| && rows[p] == d;
    KeyOrdersAreTotal();
    forall j | 0 <= j < |rows| && rows[j].appId == d.appId ensures j == p {
      assert rows[j].id == rows[p].id;
    }
    LonePassEnds(t, MainIn(s, d.appId), d.appId, rows, o.pass(d.id), 0, p);
  }

  ghost predicate StillListed(t: Tables, listed: seq<Deployment>, i: nat) {
    && RowsOf(t, listed)
    && (forall j | i <= j < |listed| :: listed[j].id in UnqueuedPending(t))
    && (forall j, k | 0 <= j < k < |listed| :: listed[j].id != listed[k].id)
  }

  lemma StillListedAfter(t: Tables, listed: seq<Deployment>, i: nat, ids: set<Id>)
    requires Schema(t) && OneActive(t) && i < |listed| && StillListed(t, listed, i)
    requires forall id | id in ids :: id == listed[i].id
    ensures var t' := WithQueued(t, ids); Schema(t') && OneActive(t') && StillListed(t', listed, i + 1)
  {
    assert forall j | i < j < |listed| :: listed[j].id != listed[i].id;
  }

  ghost predicate TurnsEnd(t: Tables, s: Surroundings, listed: seq<Deployment>, o: RoundOutcomes, i: nat)
    requires RowsOf(t, listed)
  {
    forall j | i <= j < |listed| :: TurnEnds(t, s, o, listed[j].id)
  }

  lemma TurnsEndAlike(t: Tables, s: Surroundings, listed: seq<Deployment>, o: RoundOutcomes, i: nat, ids: set<Id>)
    requires RowsOf(t, listed)
    ensures TurnsEnd(WithQueued(t, ids), s, listed, o, i) <==> TurnsEnd(t, s, listed, o, i)
  {
    assert forall j | i <= j < |listed| ::
        TurnEnds(WithQueued(t, ids), s, o, listed[j].id) <==> TurnEnds(t, s, o, listed[j].id);
  }

  lemma LoneTurn(t: Tables, s: Surroundings, listed: seq<Deployment>, o: RoundOutcomes, i: nat) returns (ids: set<Id>)
    requires Schema(t) && OneActive(t) && i < |listed| && StillListed(t, listed, i)
    requires listed[i].appId !in s.busy && Locks(t, s, o, listed[i])
    ensures forall id | id in ids :: id == listed[i].id
    ensures var d := listed[i];
            var (passed, ok) := PassOver(t, MainIn(s, d.appId), d.appId, o.pass(d.id));
            passed == WithQueued(t, ids) && (ok && d.id !in o.stuck <==> TurnEnds(t, s, o, d.id))
  {
    var d := listed[i];
    ids := PassQueues(t, MainIn(s, d.appId), d.appId, o.pass(d.id));
    LoneTurnEnds(t, s, o, d);
  }

  lemma TurnsEndHead(t: Tables, s: Surroundings, listed: seq<Deployment>, o: RoundOutcomes, i: nat)
    requires RowsOf(t, listed) && i < |listed|
    ensures TurnsEnd(t, s, listed, o, i) <==> TurnEnds(t, s, o, listed[i].id) && TurnsEnd(t, s, listed, o, i + 1)
  {
  }

  lemma {:induction false} RoundEndsIff(t: Tables, s: Surroundings, listed: seq<Deployment>, o: RoundOutcomes, i: nat)
    requires Schema(t) && OneActive(t) && i <= |listed| && StillListed(t, listed, i)
    ensures RecoverFrom(t, s, listed, o, i).1 <==> TurnsEnd(t, s, listed, o, i)
    decreases |listed| - i
  {
    if i < |listed| {
      TurnsEndHead(t, s, listed, o, i);
      if listed[i].appId in s.busy || !Locks(t, s, o, listed[i]) {
        SkippedEndsIff(t, s, listed, o, i);
      } else {
        TakenEndsIff(t, s, listed, o, i);
      }
    }
  }

  lemma SkippedEndsIff(t: Tables, s: Surroundings, listed: seq<Deployment>, o: RoundOutcomes, i: nat)
    requires Schema(t) && OneActive(t) && i < |listed| && StillListed(t, listed, i)
    requires listed[i].appId in s.busy || !Locks(t, s, o, listed[i])
    ensures RecoverFrom(t, s, listed, o, i).1 <==> TurnEnds(t, s, o, listed[i].id) && TurnsEnd(t, s, listed, o, i + 1)
    decreases |listed| - i, 0
  {
    RoundEndsIff(t, s, listed, o, i + 1);
    assert t.deployments[listed[i].id] == listed[i];
  }

  lemma TakenEndsIff(t: Tables, s: Surroundings, listed: seq<Deployment>, o: RoundOutcomes, i: nat)
    requires Schema(t) && OneActive(t) && i < |listed| && StillListed(t, listed, i)
    requires listed[i].appId !in s.busy && Locks(t, s, o, listed[i])
    ensures RecoverFrom(t, s, listed, o, i).1 <==> TurnEnds(t, s, o, listed[i].id) && TurnsEnd(t, s, listed, o, i + 1)
    decreases |listed| - i, 0
  {
    var ids := LoneTurn(t, s, listed, o, i);
    StillListedAfter(t, listed, i, ids);
    RoundEndsIff(WithQueued(t, ids), s, listed, o, i + 1);
    TurnsEndAlike(t, s, listed, o, i + 1, ids);
  }

  /** With one active attempt per app, a round reports no error exactly if no turn of it does. */
  lemma RoundEndsIffTurnsEnd(t: Tables, s: Surroundings, o: RoundOutcomes)
    requires Schema(t) && OneActive(t)
    ensures RecoverAll(t, s, o).1 <==> o.list && forall id | id in UnqueuedPending(t) :: TurnEnds(t, s, o, id)
  {
    if o.list {
      var listed := OldestFirst(t, UnqueuedPending(t));
      KeyOrdersAreTotal();
      forall j, k | 0 <= j < k < |listed| ensures listed[j].id != listed[k].id {
        assert KeyBefore((listed[j].startedAt, listed[j].id), (listed[k].startedAt, listed[k].id));
      }
      RoundEndsIff(t, s, listed, o, 0);
      forall id | id in UnqueuedPending(t) ensures exists j :: 0 <= j < |listed| && listed[j].id == id {
        assert t.deployments[id] in listed;
        var j :| 0 <= j < |listed| && listed[j] == t.deployments[id];
        assert listed[j].id == id;
      }
    }
  }
}
