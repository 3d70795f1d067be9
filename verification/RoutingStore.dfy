/** The tables of stored domains and recorded failures, and the routes Caddy serves. */
module RoutingStores {
  import opened Results
  import opened Routing

  class DomainStore {
    var apps: set<string>
    var rows: Rows
    var failures: Failures

    constructor (apps: set<string>)
      ensures this.apps == apps && rows == map[] && failures == map[]
    {
      this.apps, rows, failures := apps, map[], map[];
    }

    method ListDomains() returns (list: seq<Domain>)
      requires forall id | id in rows :: rows[id].id == id
      ensures ListsRows(list, rows)
    {
      list := [];
      var rest := rows.Keys;
      while rest != {}
        invariant rest <= rows.Keys
        invariant forall i | 0 <= i < |list| ::
                    list[i].id in rows && list[i].id !in rest && rows[list[i].id] == list[i]
        invariant forall i, j | 0 <= i < j < |list| :: list[i].id != list[j].id
        invariant forall id | id in rows && id !in rest :: rows[id] in list
        decreases |rest|
      {
        var id :| id in rest;
        list := list + [rows[id]];
        rest := rest - {id};
      }
    }

    /** Insert, or replace the row of the id; nothing without the app. */
    method AttachDomain(up: bool, d: Domain) returns (r: Result<(), RouteError>)
      modifies this`rows
      ensures r.Ok? <==> up && d.appId in apps
      ensures rows == if r.Ok? then old(rows)[d.id := d] else old(rows)
      ensures r.Err? ==> r.error == if up then NoApp else StoreFailed
    {
      if !up {
        return Err(StoreFailed);
      }
      if d.appId !in apps {
        return Err(NoApp);
      }
      rows := rows[d.id := d];
      r := Ok(());
    }

    method DeleteDomainByAppAndName(up: bool, appId: string, name: string) returns (r: Result<(), RouteError>)
      modifies this`rows
      ensures r.Ok? <==>
        up && exists id :: id in old(rows) && old(rows)[id].appId == appId && old(rows)[id].name == name
      ensures rows == if r.Ok? then WithoutName(old(rows), appId, name) else old(rows)
      ensures r.Err? ==> r.error == if up then NoDomain else StoreFailed
    {
      if !up {
        return Err(StoreFailed);
      }
      if !exists id | id in rows :: rows[id].appId == appId && rows[id].name == name {
        return Err(NoDomain);
      }
      rows := map id | id in rows && !(rows[id].appId == appId && rows[id].name == name) :: rows[id];
      r := Ok(());
    }

    /** Insert, or replace what is recorded for the app and address. */
    method UpsertRouteApplyFailure(up: bool, key: FailureKey, failure: Failure) returns (ok: bool)
      modifies this`failures
      ensures ok == up
      ensures failures == if ok then old(failures)[key := failure] else old(failures)
    {
      if up {
        failures := failures[key := failure];
      }
      ok := up;
    }

    method ClearRouteApplyFailures(up: bool) returns (ok: bool)
      modifies this`failures
      ensures ok == up
      ensures failures == if ok then map[] else old(failures)
    {
      if up {
        failures := map[];
      }
      ok := up;
    }

    /** Removing apps takes their domains and recorded failures along. */
    method RemoveApps(gone: set<string>)
      modifies this
      ensures apps == old(apps) - gone
      ensures rows == WithoutApps(old(rows), gone) && failures == ForgetApps(old(failures), gone)
      ensures forall id :: id in rows <==> id in old(rows) && old(rows)[id].appId !in gone
      ensures forall id | id in rows :: rows[id] == old(rows)[id]
      ensures forall key :: key in failures <==> key in old(failures) && key.appId !in gone
      ensures forall key | key in failures :: failures[key] == old(failures)[key]
    {
      apps := apps - gone;
      rows := map id | id in rows && rows[id].appId !in gone :: rows[id];
      failures := map key | key in failures && key.appId !in gone :: failures[key];
    }
  }

  /** Caddy: a configuration that cannot be written, validated or loaded leaves the active one running. */
  class CaddyRouter {
    var active: map<string, Route>

    constructor ()
      ensures active == map[]
    {
      active := map[];
    }

    method SyncRoutes(up: bool, routes: seq<Route>) returns (ok: bool)
      modifies this
      ensures ok == up
      ensures active == if ok then ByDomain(routes) else old(active)
    {
      if up {
        active := RoutesByDomain(routes);
      }
      ok := up;
    }
  }
}
