/** The two hooks of a push: reserving before the ref update, queueing after it. */
module ReceiveHooks {
  import opened Tables
  import opened Timestamps
  import opened Results
  import opened SqliteStores
  import opened PushProtocol

  const MAIN_REF := "refs/heads/main"

  /** A hook input line: empty, or what splitting it at white space gives. */
  datatype HookLine = Blank | Split(fields: seq<string>)

  datatype HookError =
    | Malformed
    | NotMain
    | DeletesMain
    | SecondUpdate
    | NoUpdate
    | Unread
    | StoreFailed(error: StoreError)
    | OutputFailed

  datatype Update = Update(previous: string, commit: string)

  // ---------- pre-receive ----------

  /** The line updates main to a commit. */
  predicate UpdatesMain(line: HookLine) {
    line.Split? && |line.fields| == 3 && line.fields[2] == MAIN_REF && !IsZeroId(line.fields[1])
  }

  /** Only a push of exactly one update of main is read; `readable` says the input ends without an error. */
  method ReadQueuedReceiveUpdate(lines: seq<HookLine>, readable: bool) returns (r: Result<Update, HookError>)
    requires forall line | line in lines && line.Split? :: "" !in line.fields
    ensures r.Ok? <==> readable && |lines| == 1 && UpdatesMain(lines[0])
    ensures r.Ok? ==> r.value == Update(lines[0].fields[0], lines[0].fields[1])
    ensures r == Err(NoUpdate) <==> readable && lines == []
    ensures r == Err(Unread) <==> !readable && (lines == [] || (|lines| == 1 && UpdatesMain(lines[0])))
    ensures r == Err(SecondUpdate) <==> |lines| >= 2 && UpdatesMain(lines[0]) && UpdatesMain(lines[1])
    ensures r.Err? && r.error in {Malformed, NotMain, DeletesMain} <==>
      (|lines| >= 1 && !UpdatesMain(lines[0])) || (|lines| >= 2 && !UpdatesMain(lines[1]))
  {
    var update := Update("", "");
    var i := 0;
    while i < |lines|
      invariant i <= |lines| && i <= 1
      invariant i == 0 ==> update.commit == ""
      invariant i == 1 ==>
                  && UpdatesMain(lines[0]) && update.commit != ""
                  && update == Update(lines[0].fields[0], lines[0].fields[1])
    {
      var line := lines[i];
      if line.Blank? || |line.fields| != 3 {
        return Err(Malformed);
      }
      if line.fields[2] != MAIN_REF {
        return Err(NotMain);
      }
      if IsZeroId(line.fields[1]) {
        return Err(DeletesMain);
      }
      if update.commit != "" {
        return Err(SecondUpdate);
      }
      assert line.fields[1] in line.fields;
      update := Update(line.fields[0], line.fields[1]);
      i := i + 1;
    }
    if !readable {
      return Err(Unread);
    }
    if update.commit == "" {
      return Err(NoUpdate);
    }
    r := Ok(update);
  }

  /** The attempt a push asks for. */
  function PushAttempt(appId: string, commit: string, id: Id, now: Instant): Deployment {
    Deployment(id, appId, ReleaseId(appId, commit), commit, Push, Pending, now, NoMessage)
  }

  /** The input is one update of main, and the store takes the reservation of its commit. */
  ghost predicate IsAdmitted(t: Tables, appId: string, lines: seq<HookLine>, readable: bool, id: Id, now: Instant) {
    && readable && |lines| == 1 && UpdatesMain(lines[0])
    && Reserve(t, PushAttempt(appId, lines[0].fields[1], id, now), lines[0].fields[0]).Ok?
  }

  /** Reserve the one update of a push; a refusal leaves everything as it was. */
  method Queue(
    store: SqliteStore, appId: string, lines: seq<HookLine>, readable: bool, id: Id, now: Instant
  ) returns (r: Result<Deployment, HookError>)
    requires store.Valid()
    requires forall line | line in lines && line.Split? :: "" !in line.fields
    modifies store
    ensures store.Valid()
    ensures r.Err? ==> store.Rows() == old(store.Rows())
    ensures r.Ok? <==> IsAdmitted(old(store.Rows()), appId, lines, readable, id, now)
    ensures r.Ok? ==>
      && r.value.id == id && r.value.appId == appId && r.value.commit == lines[0].fields[1]
      && r.value.releaseId == "rel_" + appId + "_" + r.value.commit && r.value.startedAt == now
      && r.value.trigger == Push && r.value.status == Pending && r.value.errorMessage == NoMessage
      && Reserve(old(store.Rows()), r.value, lines[0].fields[0]) == Ok(store.Rows())
  {
    var update := ReadQueuedReceiveUpdate(lines, readable);
    if update.Err? {
      return Err(update.error);
    }
    var model := PushAttempt(appId, update.value.commit, id, now);
    var queued := store.QueueDeployment(model, update.value.previous);
    if queued.Err? {
      return Err(StoreFailed(queued.error));
    }
    r := Ok(model);
  }

  // ---------- post-receive ----------

  /** How the calls for one line come out: the lookup, the record, and the status lines for the client. */
  datatype LineCalls = LineCalls(find: bool, record: bool, written: bool)

  /** Why a line cannot be handled, if it cannot. */
  function Fault(t: Tables, appId: string, line: HookLine, calls: LineCalls): Option<HookError> {
    if line.Blank? then None
    else if |line.fields| != 3 then Some(Malformed)
    else if line.fields[2] != MAIN_REF then Some(NotMain)
    else if !calls.find then Some(StoreFailed(Unavailable))
    else if ForCommit(t, appId, line.fields[1]) == {} then Some(StoreFailed(NotFound))
    else if !calls.record then Some(StoreFailed(Unavailable))
    else None
  }

  /** For each line the latest attempt at its commit. */
  ghost function QueuedBy(t: Tables, appId: string, lines: seq<HookLine>): set<Id> {
    set i | 0 <= i < |lines| && lines[i].Split? && |lines[i].fields| == 3
            && ForCommit(t, appId, lines[i].fields[1]) != {} ::
      Latest(t, ForCommit(t, appId, lines[i].fields[1]))
  }

  lemma QueuedByOneMore(t: Tables, appId: string, lines: seq<HookLine>, i: nat)
    requires i < |lines|
    ensures QueuedBy(t, appId, lines[..i + 1]) == QueuedBy(t, appId, lines[..i]) + QueuedBy(t, appId, [lines[i]])
  {
    var more, less, one := lines[..i + 1], lines[..i], [lines[i]];
    assert one[0] == lines[i] == more[i];
    forall id | id in QueuedBy(t, appId, less) ensures id in QueuedBy(t, appId, more) {
      var j :| 0 <= j < |less| && less[j].Split? && |less[j].fields| == 3
        && ForCommit(t, appId, less[j].fields[1]) != {} && id == Latest(t, ForCommit(t, appId, less[j].fields[1]));
      assert more[j] == less[j];
    }
    forall id | id in QueuedBy(t, appId, more) ensures id in QueuedBy(t, appId, less) + QueuedBy(t, appId, one) {
      var j :| 0 <= j < |more| && more[j].Split? && |more[j].fields| == 3
        && ForCommit(t, appId, more[j].fields[1]) != {} && id == Latest(t, ForCommit(t, appId, more[j].fields[1]));
      if j < i {
        assert less[j] == more[j];
      }
    }
  }

  /** Queueing adds events only, so what a line queues does not depend on the lines before it. */
  lemma QueuesOne(t: Tables, appId: string, ids: set<Id>, line: HookLine)
    requires line.Split? && |line.fields| == 3
    ensures ForCommit(WithQueued(t, ids), appId, line.fields[1]) == ForCommit(t, appId, line.fields[1])
    ensures ForCommit(t, appId, line.fields[1]) != {} ==>
      var id := Latest(t, ForCommit(t, appId, line.fields[1]));
      && id == Latest(WithQueued(t, ids), ForCommit(t, appId, line.fields[1]))
      && QueuedBy(t, appId, [line]) == {id}
      && RecordQueued(WithQueued(t, ids), id) == WithQueued(t, ids + {id})
  {
    var commit := ForCommit(t, appId, line.fields[1]);
    if commit != {} {
      var id := Latest(t, commit);
      assert [line][0] == line;
      assert Keys(WithQueued(t, ids), commit) == Keys(t, commit);
      assert QueuedEvents(ids + {id}) == QueuedEvents(ids) + {Event(id, RefAccepted), Event(id, Queued)};
    }
  }

  lemma BlankQueuesNothing(t: Tables, appId: string, line: HookLine)
    requires line.Blank?
    ensures QueuedBy(t, appId, [line]) == {}
  {
  }

  /** The line is empty, or names main and a commit the app has an attempt at. */
  predicate NamesAttempt(t: Tables, appId: string, line: HookLine) {
    line.Split? ==>
      |line.fields| == 3 && line.fields[2] == "refs/heads/main" && ForCommit(t, appId, line.fields[1]) != {}
  }

  predicate AllHandled(t: Tables, appId: string, lines: seq<HookLine>, calls: nat -> LineCalls) {
    forall i | 0 <= i < |lines| :: Fault(t, appId, lines[i], calls(i)).None?
  }

  /** Some status lines did not reach the client. */
  predicate SomeUnwritten(lines: seq<HookLine>, calls: nat -> LineCalls) {
    exists i | 0 <= i < |lines| :: lines[i].Split? && !calls(i).written
  }

  lemma OneMoreLine(t: Tables, appId: string, lines: seq<HookLine>, calls: nat -> LineCalls, i: nat)
    requires i < |lines|
    ensures AllHandled(t, appId, lines[..i + 1], calls) <==>
            AllHandled(t, appId, lines[..i], calls) && Fault(t, appId, lines[i], calls(i)).None?
    ensures SomeUnwritten(lines[..i + 1], calls) <==>
            SomeUnwritten(lines[..i], calls) || (lines[i].Split? && !calls(i).written)
  {
    var more := lines[..i + 1];
    assert forall j | 0 <= j < i :: more[j] == lines[..i][j];
    assert more[i] == lines[i];
  }

  lemma HandledName(t: Tables, appId: string, lines: seq<HookLine>, calls: nat -> LineCalls)
    requires AllHandled(t, appId, lines, calls)
    ensures forall line | line in lines :: NamesAttempt(t, appId, line)
  {
    forall line | line in lines ensures NamesAttempt(t, appId, line) {
      var i :| 0 <= i < |lines| && lines[i] == line;
      assert Fault(t, appId, line, calls(i)).None?;
    }
  }

  /** One line: queue the latest attempt at its commit. */
  method HandleLine(
    store: SqliteStore, appId: string, line: HookLine, calls: LineCalls, ghost t0: Tables, ghost ids: set<Id>
  ) returns (fault: Option<HookError>)
    requires store.Valid() && store.Rows() == WithQueued(t0, ids)
    modifies store
    ensures store.Valid()
    ensures fault == Fault(t0, appId, line, calls)
    ensures fault == Some(Malformed) <==> line.Split? && |line.fields| != 3
    ensures fault == Some(NotMain) <==> line.Split? && |line.fields| == 3 && line.fields[2] != "refs/heads/main"
    ensures fault.None? <==> line.Blank? || (NamesAttempt(t0, appId, line) && calls.find && calls.record)
    ensures store.Rows() == WithQueued(t0, ids + if fault.None? then QueuedBy(t0, appId, [line]) else {})
  {
    if line.Blank? {
      BlankQueuesNothing(t0, appId, line);
      assert ids + {} == ids;
      return None;
    }
    assert ids + {} == ids;
    if |line.fields| != 3 {
      return Some(Malformed);
    }
    if line.fields[2] != MAIN_REF {
      return Some(NotMain);
    }
    QueuesOne(t0, appId, ids, line);
    if !calls.find {
      return Some(StoreFailed(Unavailable));
    }
    var found := store.FindDeploymentByAppCommit(appId, line.fields[1]);
    if found.None? {
      return Some(StoreFailed(NotFound));
    }
    if !calls.record {
      return Some(StoreFailed(Unavailable));
    }
    var _ := store.RecordDeploymentQueued(found.value.id);
    fault := None;
  }

  /**
   Queue every accepted update, up to the first line that cannot be handled. Status lines that do
   not reach the client are an error in the end, but the rest of the input is still handled.
  */
  method Handle(
    store: SqliteStore, appId: string, lines: seq<HookLine>, readable: bool, calls: nat -> LineCalls
  ) returns (r: Result<(), HookError>, ghost stop: nat)
    requires store.Valid()
    modifies store
    ensures store.Valid()
    ensures stop <= |lines| && AllHandled(old(store.Rows()), appId, lines[..stop], calls)
    ensures forall line | line in lines[..stop] :: NamesAttempt(old(store.Rows()), appId, line)
    ensures store.Rows() == WithQueued(old(store.Rows()), QueuedBy(old(store.Rows()), appId, lines[..stop]))
    ensures stop < |lines| ==>
      var fault := Fault(old(store.Rows()), appId, lines[stop], calls(stop));
      fault.Some? && r == Err(fault.value)
    ensures stop == |lines| ==>
      r == if !readable then Err(Unread)
           else if SomeUnwritten(lines, calls) then Err(OutputFailed)
           else Ok(())
  {
    var outputFailed := false;
    ghost var t0 := store.Rows();
    assert QueuedEvents(QueuedBy(t0, appId, lines[..0])) == {};
    var i := 0;
    stop := 0;
    while i < |lines|
      invariant i <= |lines| && stop == i && store.Valid()
      invariant AllHandled(t0, appId, lines[..i], calls)
      invariant store.Rows() == WithQueued(t0, QueuedBy(t0, appId, lines[..i]))
      invariant outputFailed <==> SomeUnwritten(lines[..i], calls)
    {
      QueuedByOneMore(t0, appId, lines, i);
      OneMoreLine(t0, appId, lines, calls, i);
      ghost var ids := QueuedBy(t0, appId, lines[..i]);
      var fault := HandleLine(store, appId, lines[i], calls(i), t0, ids);
      if fault.Some? {
        assert ids + {} == ids;
        HandledName(t0, appId, lines[..i], calls);
        return Err(fault.value), stop;
      }
      outputFailed := outputFailed || (lines[i].Split? && !calls(i).written);
      i := i + 1;
      stop := i;
    }
    assert lines[..|lines|] == lines;
    HandledName(t0, appId, lines, calls);
    if !readable {
      return Err(Unread), stop;
    }
    r := if outputFailed then Err(OutputFailed) else Ok(());
  }

  /**
   What one push does to the rows: the update its pre-receive reserved is what its
   post-receive queues, whatever other attempts at the same commit there were before.
  */
  lemma PushQueuesOwnReservation(t: Tables, m: Deployment, expected: string, t': Tables, previous: string)
    requires IsReservation(m, Push) && ClockAhead(t, m)
    requires Reserve(t, m, expected) == Ok(t')
    ensures QueuedBy(t', m.appId, [Split([previous, m.commit, MAIN_REF])]) == {m.id}
    ensures Fault(t', m.appId, Split([previous, m.commit, MAIN_REF]), LineCalls(true, true, true)).None?
  {
    ReservedIsLatest(t, m, expected, t');
    QueuesOne(t', m.appId, {}, Split([previous, m.commit, MAIN_REF]));
  }

  lemma ReservedRows(t: Tables, m: Deployment, expected: string, t': Tables)
    requires Reserve(t, m, expected) == Ok(t')
    ensures m.id in t'.deployments && t'.deployments[m.id] == m
    ensures forall id | id in t'.deployments && id != m.id ::
            id in t.deployments && t'.deployments[id] == t.deployments[id]
  {
  }

  lemma ReservedIsLatest(t: Tables, m: Deployment, expected: string, t': Tables)
    requires ClockAhead(t, m) && Reserve(t, m, expected) == Ok(t')
    ensures m.id in ForCommit(t', m.appId, m.commit) && Latest(t', ForCommit(t', m.appId, m.commit)) == m.id
  {
    ReservedRows(t, m, expected, t');
    var ids := ForCommit(t', m.appId, m.commit);
    assert m.id in ids;
    forall id | id in ids && id != m.id ensures Before(t', id, m.id) {
      assert id in ForCommit(t, m.appId, m.commit);
    }
  }

  // ---------- attaching ----------

  /** The attempt whose output the pushing client will follow. */
  method AcceptedDeploymentAfterReceive(
    store: SqliteStore, appId: string, before: seq<Deployment>
  ) returns (found: Attachment)
    requires store.Valid()
    ensures found == Attachments(store.Rows(), appId, IdsOf(before))
  {
    var beforeIds: set<Id> := {};
    for i := 0 to |before|
      invariant beforeIds == IdsOf(before[..i])
    {
      IdsOfOneMore(before, i);
      beforeIds := beforeIds + {before[i].id};
    }
    assert before[..|before|] == before;
    var ids := AppRows(store.Rows(), appId);
    var after := store.ListOrdered(ids);
    var accepted := [];
    for i := 0 to |after|
      invariant forall id ::
                  id in accepted <==> id in AcceptedSince(store.Rows(), appId, beforeIds) && id in IdsOf(after[..i])
      invariant forall j, k | 0 <= j < k < |accepted| :: accepted[j] != accepted[k]
    {
      IdsOfOneMore(after, i);
      DistinctSoFar(store.Rows(), after, ids, i);
      if after[i].id !in beforeIds && after[i].trigger == Push && Event(after[i].id, RefAccepted) in store.events {
        accepted := accepted + [after[i].id];
      }
    }
    assert after[..|after|] == after;
    AllListed(store.Rows(), after, ids);
    found := if |accepted| == 0 then Nobody else if |accepted| > 1 then TooMany else Follow(accepted[0]);
    CountsAttachments(store.Rows(), appId, beforeIds, accepted);
  }

  lemma DistinctSoFar(t: Tables, rows: seq<Deployment>, ids: set<Id>, i: nat)
    requires ids <= t.deployments.Keys && ListsRows(t, rows, ids) && i < |rows|
    ensures rows[i].id !in IdsOf(rows[..i])
  {
    KeyOrdersAreTotal();
    forall j | 0 <= j < i ensures rows[j].id != rows[i].id {
      assert KeyBefore((rows[j].startedAt, rows[j].id), (rows[i].startedAt, rows[i].id));
    }
  }

  lemma AllListed(t: Tables, rows: seq<Deployment>, ids: set<Id>)
    requires Schema(t) && ids <= t.deployments.Keys && ListsRows(t, rows, ids)
    ensures IdsOf(rows) == ids
  {
    forall id | id in ids ensures id in IdsOf(rows) {
      var i :| 0 <= i < |rows| && rows[i] == t.deployments[id];
      assert rows[i].id == id;
    }
  }

  lemma CountsAttachments(t: Tables, appId: string, before: set<Id>, accepted: seq<Id>)
    requires forall id :: id in accepted <==> id in AcceptedSince(t, appId, before)
    requires forall j, k | 0 <= j < k < |accepted| :: accepted[j] != accepted[k]
    ensures Attachments(t, appId, before) ==
            if |accepted| == 0 then Nobody else if |accepted| > 1 then TooMany else Follow(accepted[0])
  {
    var ids := AcceptedSince(t, appId, before);
    if |accepted| == 0 {
      assert ids == {};
    } else if |accepted| == 1 {
      assert ids == {accepted[0]};
    } else {
      assert accepted[0] in ids && accepted[1] in ids;
      forall id ensures ids != {id} {
      }
    }
  }
}
