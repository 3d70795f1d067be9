/** The store: tables held in fields, changed by single statements and by transactions. */
module SqliteStores {
  import opened Ordering
  import opened Tables
  import opened Results
  import Logs = DeploymentLogs

  class SqliteStore {
    var apps: map<string, AppStatus>
    var deployments: map<Id, Deployment>
    var releases: map<string, Release>
    var events: set<Event>
    var logs: map<Id, LogRow>

    constructor ()
      ensures Valid() && Rows() == Tables(map[], map[], map[], {}, map[])
    {
      apps, deployments, releases, events, logs := map[], map[], map[], {}, map[];
    }

    ghost predicate Valid()
      reads this
    {
      Schema(Rows())
    }

    function Rows(): Tables
      reads this
    {
      Tables(apps, deployments, releases, events, logs)
    }

    // ---------- queries ----------

    method SelectOldest(ids: set<Id>) returns (id: Id)
      requires ids != {} && ids <= deployments.Keys
      ensures id in ids && id == Oldest(Rows(), ids)
    {
      KeysNonempty(Rows(), ids);
      TextOrdersAreTotal();
      var key := SelectFirst(Keys(Rows(), ids), TextBefore);
      FirstByTextIsOldest(Rows(), ids, key);
      id := key.1;
    }

    method FindDeploymentByAppCommit(appId: string, commit: string) returns (found: Option<Deployment>)
      ensures found.None? <==> ForCommit(Rows(), appId, commit) == {}
      ensures found.Some? ==> found.value == deployments[Latest(Rows(), ForCommit(Rows(), appId, commit))]
    {
      var ids := ForCommit(Rows(), appId, commit);
      if ids == {} {
        return None;
      }
      KeysNonempty(Rows(), ids);
      TextOrdersAreTotal();
      var key := SelectFirst(Keys(Rows(), ids), TextAfter);
      FirstByTextIsLatest(Rows(), ids, key);
      found := Some(deployments[key.1]);
    }

    /** The rows `ids`, oldest first. */
    method ListOrdered(ids: set<Id>) returns (rows: seq<Deployment>)
      requires Valid()
      requires ids <= deployments.Keys
      ensures ListsRows(Rows(), rows, ids)
    {
      TextOrdersAreTotal();
      var keys := SelectOrdered(Keys(Rows(), ids), TextBefore);
      rows := [];
      while |rows| < |keys|
        invariant |rows| <= |keys|
        invariant forall i | 0 <= i < |rows| ::
                  keys[i].1 in ids && keys[i] == Key(Rows(), keys[i].1) && rows[i] == deployments[keys[i].1]
      {
        assert keys[|rows|] in Keys(Rows(), ids);
        rows := rows + [deployments[keys[|rows|].1]];
      }
      forall id | id in ids ensures deployments[id] in rows {
        assert Key(Rows(), id) in keys;
        var i :| 0 <= i < |keys| && keys[i] == Key(Rows(), id);
        assert rows[i] == deployments[id];
      }
      forall i, j | 0 <= i < j < |rows|
        ensures KeyBefore((rows[i].startedAt, rows[i].id), (rows[j].startedAt, rows[j].id))
      {
        assert TextBefore(keys[i], keys[j]);
      }
    }

    method ListUnqueuedPendingDeployments() returns (rows: seq<Deployment>)
      requires Valid()
      ensures ListsRows(Rows(), rows, UnqueuedPending(Rows()))
    {
      rows := ListOrdered(UnqueuedPending(Rows()));
    }

    method ListDeploymentsByStatus(status: Status) returns (rows: seq<Deployment>)
      requires Valid()
      ensures ListsRows(Rows(), rows, WithStatus(Rows(), status))
    {
      rows := ListOrdered(WithStatus(Rows(), status));
    }

    // ---------- transactions ----------

    method QueueDeployment(m: Deployment, expected: string) returns (r: Result<(), StoreError>)
      requires Valid()
      modifies this
      ensures Valid()
      ensures r.Ok? ==> Reserve(old(Rows()), m, expected) == Ok(Rows())
      ensures r.Err? ==> Reserve(old(Rows()), m, expected) == Err(r.error) && Rows() == old(Rows())
    {
      r := ReserveDeployment(m, expected);
    }

    method QueueRedeployment(m: Deployment) returns (r: Result<(), StoreError>)
      requires Valid()
      modifies this
      ensures Valid()
      ensures m.trigger == Redeploy && m.status == Pending ==>
                Reserve(old(Rows()), m, "") == if r.Ok? then Ok(Rows()) else Err(r.error)
      ensures r == Err(BadModel) <==> m.trigger != Redeploy || m.status != Pending
      ensures r.Err? ==> Rows() == old(Rows())
    {
      if m.status != Pending || m.trigger != Redeploy {
        return Err(BadModel);
      }
      r := ReserveDeployment(m, "");
    }

    method ReserveDeployment(m: Deployment, expected: string) returns (r: Result<(), StoreError>)
      requires Valid()
      modifies this
      ensures Valid()
      ensures r.Ok? ==> Reserve(old(Rows()), m, expected) == Ok(Rows())
      ensures r.Err? ==> Reserve(old(Rows()), m, expected) == Err(r.error) && Rows() == old(Rows())
    {
      var begin := Rows();
      var active := Active(begin, m.appId);
      if active != {} {
        var id := SelectOldest(active);
        var found := deployments[id];
        if m.trigger != Push || m.status != Pending || found.status != Pending || found.commit == expected {
          return Err(ActiveDeployment);
        }
        logs := logs - {id};
        if !Discardable(Rows(), id) {
          Rollback(begin);
          return Err(ActiveDeployment);
        }
        deployments := deployments - {id};
      }
      r := InsertReservation(m);
      if r.Err? {
        Rollback(begin);
      }
    }

    /** The second half of the transaction; after an error the caller rolls back. */
    method InsertReservation(m: Deployment) returns (r: Result<(), StoreError>)
      requires Valid()
      modifies this
      ensures r.Ok? ==> Valid() && Admit(old(Rows()), m) == Ok(Rows())
      ensures r.Err? ==> Admit(old(Rows()), m) == Err(r.error)
    {
      if Collides(Rows(), m) {
        return Err(Conflict);
      }
      deployments := deployments[m.id := m];
      logs := logs[m.id := LogRow(m.appId, Logs.EMPTY, m.startedAt)];
      if m.appId !in apps {
        return Err(NotFound);
      }
      apps := apps[m.appId := AppDeploying];
      if m.trigger == Redeploy {
        events := events + {Event(m.id, Queued)};
      }
      assert Rows() == Inserted(old(Rows()), m);
      logs := logs - ExpiredLogs(Rows(), m.appId);
      r := Ok(());
    }

    /** Undo everything since the transaction began. */
    method Rollback(begin: Tables)
      modifies this
      ensures Rows() == begin
    {
      apps, deployments, releases := begin.apps, begin.deployments, begin.releases;
      events, logs := begin.events, begin.logs;
    }

    /** Hand the oldest queued attempt to the worker. */
    method ClaimNextPendingDeployment() returns (claimed: Option<Deployment>)
      requires Valid()
      modifies this
      ensures Valid()
      ensures claimed.None? ==> Claimable(old(Rows())) == {} && Rows() == old(Rows())
      ensures claimed.Some? ==>
        && Claimable(old(Rows())) != {}
        && claimed.value.id == Oldest(old(Rows()), Claimable(old(Rows())))
        && Rows() == Claimed(old(Rows()), claimed.value.id)
        && claimed.value == old(deployments)[claimed.value.id].(status := Deploying, errorMessage := NoMessage)
        && deployments == old(deployments)[claimed.value.id := claimed.value]
    {
      var ids := Claimable(Rows());
      if ids == {} {
        return None;
      }
      var id := SelectOldest(ids);
      deployments := deployments[id := deployments[id].(status := Deploying, errorMessage := NoMessage)];
      claimed := Some(deployments[id]);
    }

    /** Accepted and queued become visible together; an event already there stays. */
    method RecordDeploymentQueued(id: Id) returns (r: Result<(), StoreError>)
      requires Valid()
      modifies this
      ensures Valid()
      ensures r == Ok(()) && Rows() == RecordQueued(old(Rows()), id)
    {
      ghost var was := events;
      var todo := [Event(id, RefAccepted), Event(id, Queued)];
      while todo != []
        invariant Rows() == old(Rows()).(events := events)
        invariant events + (set e | e in todo) == was + {Event(id, RefAccepted), Event(id, Queued)}
        decreases |todo|
      {
        ghost var rest := set e | e in todo[1..];
        assert (set e | e in todo) == rest + {todo[0]};
        events := events + {todo[0]};
        todo := todo[1..];
      }
      assert (set e | e in todo) == {};
      r := Ok(());
    }

    // ---------- single statements; `up` says whether the call reaches the database ----------

    method UpdateAppStatus(up: bool, appId: string, status: AppStatus) returns (ok: bool)
      requires Valid()
      modifies this
      ensures Valid()
      ensures ok <==> up && appId in old(apps)
      ensures Rows() == if ok then Apply(old(Rows()), SetApp(appId, status)) else old(Rows())
    {
      if !up || appId !in apps {
        return false;
      }
      apps := apps[appId := status];
      ok := true;
    }

    method GetReleaseByAppCommit(
      up: bool, appId: string, commit: string
    ) returns (r: Result<Option<string>, StoreError>)
      requires Valid()
      ensures r.Ok? <==> up
      ensures r.Ok? ==> r.value == FindRelease(Rows(), appId, commit)
    {
      if !up {
        return Err(Unavailable);
      }
      if id :| id in releases && releases[id].appId == appId && releases[id].commit == commit {
        r := Ok(Some(id));
      } else {
        r := Ok(None);
      }
    }

    method CreateRelease(up: bool, id: string, appId: string, commit: string) returns (ok: bool)
      requires Valid()
      modifies this
      ensures Valid()
      ensures ok <==> up && id !in old(releases) && FindRelease(old(Rows()), appId, commit).None?
      ensures Rows() == if ok then Apply(old(Rows()), NewRelease(id, appId, commit)) else old(Rows())
    {
      if || !up || id in releases
         || exists other | other in releases :: releases[other].appId == appId && releases[other].commit == commit
      {
        return false;
      }
      releases := releases[id := Release(appId, commit, ReleaseDeploying)];
      ok := true;
    }

    method UpdateReleaseSucceeded(up: bool, id: string) returns (ok: bool)
      requires Valid()
      modifies this
      ensures Valid()
      ensures ok <==> up && id in old(releases)
      ensures Rows() == if ok then Apply(old(Rows()), SucceedRelease(id)) else old(Rows())
    {
      if !up || id !in releases {
        return false;
      }
      releases := releases[id := releases[id].(status := ReleaseSucceeded)];
      ok := true;
    }

    /** No matching row is not an error here. */
    method MarkReleaseStatusUnlessSucceeded(up: bool, id: string, status: ReleaseStatus) returns (ok: bool)
      requires Valid()
      modifies this
      ensures Valid()
      ensures ok <==> up
      ensures Rows() == if ok then Apply(old(Rows()), MarkRelease(id, status)) else old(Rows())
    {
      if !up {
        return false;
      }
      if id in releases && releases[id].status != ReleaseSucceeded {
        releases := releases[id := releases[id].(status := status)];
      }
      ok := true;
    }

    method EndDeployment(up: bool, id: Id, status: Status, message: Message) returns (ok: bool)
      requires Valid()
      modifies this
      ensures Valid()
      ensures ok <==> up && id in old(deployments)
      ensures Rows() == if ok then Apply(old(Rows()), EndAttempt(id, status, message)) else old(Rows())
    {
      if !up || id !in deployments {
        return false;
      }
      deployments := deployments[id := deployments[id].(status := status, errorMessage := message)];
      ok := true;
    }

    method AppendDeploymentLog(up: bool, appId: string, id: Id, output: string) returns (ok: bool)
      requires Valid()
      modifies this
      ensures Valid()
      ensures ok <==> output == "" || (up && id in old(logs) && old(logs)[id].appId == appId)
      ensures Rows() == if ok then Apply(old(Rows()), AddLog(id, output)) else old(Rows())
    {
      if output == "" {
        return true;
      }
      if !up || id !in logs || logs[id].appId != appId {
        return false;
      }
      if !logs[id].log.truncated {
        logs := logs[id := logs[id].(log := Logs.AppendContent(logs[id].log.content, output))];
      }
      assert logs[id] == old(logs)[id].(log := Logs.Append(old(logs)[id].log, output));
      ok := true;
    }

    method CreateEvent(up: bool, event: Event) returns (ok: bool)
      requires Valid()
      modifies this
      ensures Valid()
      ensures ok <==> up && event !in old(events)
      ensures Rows() == if ok then Apply(old(Rows()), AddEvent(event)) else old(Rows())
    {
      if !up || event in events {
        return false;
      }
      events := events + {event};
      ok := true;
    }
  }
}
