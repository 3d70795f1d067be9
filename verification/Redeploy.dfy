/** Redeploying what `main` points at, and waiting for the attempt to be over. */
module Redeploys {
  import opened Tables
  import opened Timestamps
  import opened Results
  import opened Executor
  import opened Outcome
  import opened SqliteStores

  /** The attempt a redeploy asks for: under the stored release of the commit, if there is one. */
  ghost function RedeployAttempt(t: Tables, appId: string, commit: string, id: Id, now: Instant): Deployment {
    var releaseId := match FindRelease(t, appId, commit)
      case Some(found) => found
      case None => ReleaseId(appId, commit);
    Deployment(id, appId, releaseId, commit, Trigger.Redeploy, Pending, now, NoMessage)
  }

  /**
   Fix the revision and queue it. `main` is what the resolver answers and `release` says
   whether the release lookup goes through; `now` is the clock reading.
  */
  method QueueCurrentMain(
    store: SqliteStore, appId: string, id: Id, main: Option<string>, release: bool, now: Instant
  ) returns (r: Result<Deployment, StoreError>)
    requires store.Valid()
    modifies store
    ensures store.Valid()
    ensures r.Err? ==> store.Rows() == old(store.Rows())
    ensures r.Ok? <==>
      && appId != "" && appId in old(store.apps) && main.Some? && main.value != "" && release
      && Reserve(old(store.Rows()), RedeployAttempt(old(store.Rows()), appId, main.value, id, now), "").Ok?
    ensures r.Ok? ==>
      && r.value.id == id && r.value.appId == appId && r.value.commit == main.value && r.value.startedAt == now
      && r.value.trigger == Trigger.Redeploy && r.value.status == Pending && r.value.errorMessage == NoMessage
      && r.value.releaseId == (match FindRelease(old(store.Rows()), appId, main.value)
                               case Some(found) => found
                               case None => "rel_" + appId + "_" + main.value)
      && Reserve(old(store.Rows()), r.value, "") == Ok(store.Rows())
  {
    if appId == "" || appId !in store.apps {
      return Err(NotFound);
    }
    if main.None? || main.value == "" {
      return Err(Unavailable);
    }
    var existing := store.GetReleaseByAppCommit(release, appId, main.value);
    if existing.Err? {
      return Err(existing.error);
    }
    var releaseId := if existing.value.Some? then existing.value.value else ReleaseId(appId, main.value);
    var attempt := Deployment(id, appId, releaseId, main.value, Trigger.Redeploy, Pending, now, NoMessage);
    var queued := store.QueueRedeployment(attempt);
    if queued.Err? {
      return Err(queued.error);
    }
    r := Ok(attempt);
  }

  // ---------- waiting ----------

  /** How waiting ends: nothing to complain about, an outcome not recorded, a failure, or giving up. */
  datatype Verdict = Fine | NotRecorded | AttemptFailed(message: Message) | StoppedWaiting

  function Find(rows: seq<Deployment>, id: Id): Option<Deployment> {
    if rows == [] then None else if rows[0].id == id then Some(rows[0]) else Find(rows[1..], id)
  }

  function VerdictOn(d: Deployment): Option<Verdict> {
    match d.status
    case Succeeded => Some(if d.errorMessage == NoMessage then Fine else NotRecorded)
    case Failed => Some(AttemptFailed(d.errorMessage))
    case _ => None
  }

  /** What one poll settles; an unreadable list or a missing attempt ends the wait. */
  function Settles(read: Result<seq<Deployment>, StoreError>, id: Id): Option<Verdict> {
    match read
    case Err(_) => Some(StoppedWaiting)
    case Ok(rows) => match Find(rows, id)
      case None => Some(StoppedWaiting)
      case Some(d) => VerdictOn(d)
  }

  /** The first row of the attempt in what a poll read. */
  ghost predicate Sees(read: Result<seq<Deployment>, StoreError>, id: Id, d: Deployment) {
    read.Ok? && exists i | 0 <= i < |read.value| ::
      read.value[i] == d && d.id == id && forall j | 0 <= j < i :: read.value[j].id != id
  }

  lemma {:induction false} FindSees(rows: seq<Deployment>, id: Id, d: Deployment)
    ensures Find(rows, id) == Some(d) <==> Sees(Ok(rows), id, d)
    decreases |rows|
  {
    if rows != [] {
      FindSees(rows[1..], id, d);
      if Find(rows, id) == Some(d) && rows[0].id != id {
        var i :| 0 <= i < |rows[1..]| && rows[1..][i] == d && forall j | 0 <= j < i :: rows[1..][j].id != id;
        assert rows[i + 1] == d && forall j | 0 <= j < i + 1 :: j > 0 ==> rows[j].id == rows[1..][j - 1].id;
      }
      if Sees(Ok(rows), id, d) && rows[0].id != id {
        var i :| 0 <= i < |rows| && rows[i] == d && d.id == id && forall j | 0 <= j < i :: rows[j].id != id;
        assert rows[1..][i - 1] == d && forall j | 0 <= j < i - 1 :: rows[1..][j].id == rows[j + 1].id;
      }
    }
  }

  /** What each verdict of a poll means: success, success not recorded, a failure with its message, or no such row. */
  lemma SettlesIff(read: Result<seq<Deployment>, StoreError>, id: Id)
    ensures Settles(read, id) == Some(Fine) <==>
      exists d :: Sees(read, id, d) && d.status == Succeeded && d.errorMessage == NoMessage
    ensures Settles(read, id) == Some(NotRecorded) <==>
      exists d :: Sees(read, id, d) && d.status == Succeeded && d.errorMessage != NoMessage
    ensures forall m :: Settles(read, id) == Some(AttemptFailed(m)) <==>
      exists d :: Sees(read, id, d) && d.status == Failed && d.errorMessage == m
    ensures Settles(read, id) == None <==>
      exists d :: Sees(read, id, d) && (d.status == Pending || d.status == Deploying)
    ensures Settles(read, id) == Some(StoppedWaiting) <==> !exists d :: Sees(read, id, d)
  {
    if read.Ok? {
      forall d ensures Find(read.value, id) == Some(d) <==> Sees(read, id, d) {
        FindSees(read.value, id, d);
      }
    }
  }

  /** The first poll that settles the matter gives the verdict. */
  ghost predicate WaitEnds(polls: seq<Result<seq<Deployment>, StoreError>>, id: Id, verdict: Verdict) {
    || (exists k | 0 <= k < |polls| ::
          && Some(verdict) == Settles(polls[k], id)
          && forall j | 0 <= j < k :: Settles(polls[j], id).None?)
    || (verdict == StoppedWaiting && forall j | 0 <= j < |polls| :: Settles(polls[j], id).None?)
  }

  /** Poll until something settles it; `polls` are the answers of the store until the caller gives up. */
  method Wait(polls: seq<Result<seq<Deployment>, StoreError>>, id: Id) returns (verdict: Verdict)
    ensures WaitEnds(polls, id, verdict)
  {
    var poll := 0;
    while poll < |polls|
      invariant poll <= |polls|
      invariant forall j | 0 <= j < poll :: Settles(polls[j], id).None?
    {
      if polls[poll].Err? {
        return StoppedWaiting;
      }
      var rows := polls[poll].value;
      var i := 0;
      while i < |rows| && rows[i].id != id
        invariant i <= |rows|
        invariant Find(rows, id) == Find(rows[i..], id)
      {
        assert rows[i..][1..] == rows[i + 1..];
        i := i + 1;
      }
      if i == |rows| {
        return StoppedWaiting;
      }
      match rows[i].status {
        case Succeeded => return if rows[i].errorMessage == NoMessage then Fine else NotRecorded;
        case Failed => return AttemptFailed(rows[i].errorMessage);
        case _ =>
      }
      poll := poll + 1;
    }
    verdict := StoppedWaiting;
  }

  // ---------- the verdict and the execution ----------

  /** An execution reports no error exactly if Compose went through and every outcome was recorded. */
  lemma ErrorFreeIffRecorded(t: Tables, d: Deployment, o: Outcomes)
    requires d.id in t.deployments
    ensures !RunOn(t, Start(d, o)).1.error <==> Deploys(t, d, o) && Records(t, d, o)
  {
    ExecutionEnds(t, d, o);
  }

  /** A poll finds the attempt still active or as its execution left it. */
  predicate SeesAttempt(read: Result<seq<Deployment>, StoreError>, id: Id, final: Deployment) {
    && read.Ok? && Find(read.value, id).Some?
    && (Find(read.value, id).value == final || IsActive(Find(read.value, id).value))
  }

  /**
   The waiter says nothing is wrong exactly when everything up to Compose went through, Compose
   and the flush had no error, and every outcome was recorded: for every pattern of failing
   calls in which the status write lands, and for every sequence of polls that lasts until the
   attempt is over.
  */
  lemma FineIffEverythingRecorded(t: Tables, d: Deployment, o: Outcomes,
                                  polls: seq<Result<seq<Deployment>, StoreError>>, verdict: Verdict)
    requires d.id in t.deployments && StatusLands(t, d, o)
    requires var final := RunOn(t, Start(d, o)).0.deployments;
      && d.id in final && polls != []
      && (forall k | 0 <= k < |polls| :: SeesAttempt(polls[k], d.id, final[d.id]))
      && Settles(polls[|polls| - 1], d.id).Some?
    requires WaitEnds(polls, d.id, verdict)
    ensures verdict == Fine <==> Deploys(t, d, o) && Records(t, d, o)
    ensures verdict == Fine || verdict == NotRecorded <==> Deploys(t, d, o)
  {
    var final := RunOn(t, Start(d, o)).0.deployments[d.id];
    var k :| 0 <= k < |polls| && Some(verdict) == Settles(polls[k], d.id);
    assert SeesAttempt(polls[k], d.id, final);
    assert Some(verdict) == VerdictOn(final);
    ExecutionEnds(t, d, o);
  }
}
