/** The operations on routing intent, under the routes lock. */
module RoutingServices {
  import opened Results
  import opened Routing
  import opened RoutingStores

  // ---------- the id of an address ----------

  method AvailableDomainId(
    read: Reading, appId: string, key: string, list: seq<Domain>, ghost rows: Rows
  ) returns (r: Result<DomainId, RouteError>)
    requires ListsRows(list, rows) && forall id | id in rows :: rows[id].id == id
    ensures r.Ok? ==> IsAvailable(read, rows, appId, key, r.value)
    ensures r.Ok? ==> forall id | HasKey(read, rows, id, key) :: id == r.value
    ensures r.Err? ==> Conflicts(read, rows, appId, key, r.error)
  {
    var id := Minted(appId, key);
    var matched := false;
    var i := 0;
    while i < |list|
      invariant i <= |list|
      invariant forall j | 0 <= j < i && read.key(list[j].name) == Some(key) ::
                  list[j].appId == appId && matched && list[j].id == id
      invariant if matched then HasKey(read, rows, id, key) && rows[id].appId == appId else id == Minted(appId, key)
      invariant matched ==> exists j :: 0 <= j < i && list[j].id == id
    {
      if read.key(list[i].name) == Some(key) {
        assert HasKey(read, rows, list[i].id, key);
        if list[i].appId != appId {
          return Err(TakenBy(list[i].appId));
        }
        if matched {
          return Err(Ambiguous);
        }
        matched, id := true, list[i].id;
      }
      i := i + 1;
    }
    forall other | HasKey(read, rows, other, key) ensures matched && other == id {
      assert rows[other] in list;
      var j :| 0 <= j < |list| && list[j] == rows[other];
    }
    r := Ok(id);
  }

  /** With addresses apart, the only thing that can be in the way is another app. */
  lemma AvailableUnlessTaken(
    read: Reading, rows: Rows, appId: string, name: string, key: string, id: Result<DomainId, RouteError>
  )
    requires RowsOk(read, rows) && read.key(name) == Some(key)
    requires id.Ok? ==> IsAvailable(read, rows, appId, key, id.value)
    requires id.Ok? ==> forall other | HasKey(read, rows, other, key) :: other == id.value
    requires id.Err? ==> Conflicts(read, rows, appId, key, id.error)
    ensures id.Ok? <==> !TakenByOther(read, rows, appId, name)
  {
    if TakenByOther(read, rows, appId, name) {
      var other :| other in rows && rows[other].appId != appId && read.key(rows[other].name) == read.key(name);
      assert HasKey(read, rows, other, key);
    }
  }

  // ---------- the rows of an address ----------

  method MatchesOf(read: Reading, list: seq<Domain>, appId: string, key: string) returns (matches: seq<Domain>)
    ensures forall i | 0 <= i < |matches| ::
              matches[i] in list && matches[i].appId == appId && read.key(matches[i].name) == Some(key)
    ensures forall d | d in list && d.appId == appId && read.key(d.name) == Some(key) :: d in matches
    ensures DifferentIds(list) ==> DifferentIds(matches)
  {
    matches := [];
    for i := 0 to |list|
      invariant forall j | 0 <= j < |matches| ::
                  matches[j] in list[..i] && matches[j].appId == appId && read.key(matches[j].name) == Some(key)
      invariant forall d | d in list[..i] && d.appId == appId && read.key(d.name) == Some(key) :: d in matches
      invariant DifferentIds(list) ==> DifferentIds(matches)
    {
      assert list[..i + 1] == list[..i] + [list[i]];
      if list[i].appId == appId && read.key(list[i].name) == Some(key) {
        matches := matches + [list[i]];
      }
    }
    assert list[..|list|] == list;
  }

  ghost predicate DifferentIds(list: seq<Domain>) {
    forall i, j | 0 <= i < j < |list| :: list[i].id != list[j].id
  }

  /** An app has at most one row for a public address. */
  lemma MatchIsTheRow(
    read: Reading, rows: Rows, list: seq<Domain>, appId: string, name: string, matches: seq<Domain>
  )
    requires RowsOk(read, rows) && ListsRows(list, rows) && read.key(name).Some?
    requires forall i | 0 <= i < |matches| :: matches[i] in list && Detaches(read, matches[i], appId, name)
    requires forall d | d in list && Detaches(read, d, appId, name) :: d in matches
    requires DifferentIds(matches)
    ensures |matches| <= 1
    ensures |matches| == 1 <==> HasAddress(read, rows, appId, name)
    ensures |matches| == 1 ==> matches[0].id in rows && rows[matches[0].id] == matches[0]
  {
    assert forall i | 0 <= i < |matches| :: matches[i].id in rows && rows[matches[i].id] == matches[i];
    assert |matches| > 1 ==> matches[0].id == matches[1].id;
    forall id | id in rows && Detaches(read, rows[id], appId, name) ensures rows[id] in matches {
      assert rows[id] in list;
    }
    assert |matches| >= 1 ==> matches[0] in list;
  }

  /** The app has the public address. */
  ghost predicate HasAddress(read: Reading, rows: Rows, appId: string, name: string) {
    exists id :: id in rows && Detaches(read, rows[id], appId, name)
  }

  lemma DeletesTheMatch(read: Reading, rows: Rows, gone: set<string>, appId: string, name: string, d: Domain)
    requires RowsOk(read, rows) && d.id in rows && rows[d.id] == d && Detaches(read, d, appId, name)
    ensures WithoutName(WithoutApps(rows, gone), appId, d.name) == WithoutApps(Detached(read, rows, appId, name), gone)
    ensures (exists id :: id in WithoutApps(rows, gone) && rows[id].appId == appId && rows[id].name == d.name)
       <==> appId !in gone
  {
    forall id | id in rows && rows[id].appId == appId
      ensures rows[id].name == d.name <==> Detaches(read, rows[id], appId, name)
    {
    }
  }

  // ---------- rebuilding ----------

  /** Every listed intent is usable, and no two have the same public address. */
  ghost predicate Turnable(read: Reading, list: seq<Domain>) {
    && (forall j | 0 <= j < |list| :: ValidTarget(list[j].service, list[j].port) && read.key(list[j].name).Some?)
    && (forall j, k | 0 <= j < k < |list| :: read.key(list[j].name) != read.key(list[k].name))
  }

  /** The loop over the stored intents. */
  method RoutesFrom(read: Reading, list: seq<Domain>) returns (r: Result<seq<Route>, RouteError>)
    requires Coherent(read)
    ensures r.Ok? <==> Turnable(read, list)
    ensures r.Ok? ==> RoutesOf(read, list, r.value)
  {
    var routes: seq<Route>, owners: map<string, string> := [], map[];
    for i := 0 to |list|
      invariant RoutesOf(read, list[..i], routes) && Turnable(read, list[..i])
      invariant forall key :: key in owners <==> exists j :: 0 <= j < i && read.key(list[j].name) == Some(key)
    {
      var d := list[i];
      var canonical := read.canonical(d.name);
      if canonical.None? {
        return Err(BadAddress);
      }
      if !ValidTarget(d.service, d.port) {
        return Err(BadTarget);
      }
      var key := read.key(canonical.value.address).value;
      assert read.key(d.name) == Some(key);
      if key in owners {
        return Err(Duplicate);
      }
      owners := owners[key := d.appId];
      routes := routes + [Route(d.appId, d.service, canonical.value.address, d.port, canonical.value.https)];
      assert list[..i + 1] == list[..i] + [d];
    }
    assert list[..|list|] == list;
    r := Ok(routes);
  }

  /** Requests for the address go to the service and port of the app. */
  ghost predicate ServesTarget(
    read: Reading, served: map<string, Route>, appId: string, service: string, name: string, port: int
  ) {
    && read.canonical(name).Some?
    && var (address, https) := (read.canonical(name).value.address, read.canonical(name).value.https);
       address in served && served[address] == Route(appId, service, address, port, https)
  }

  /** The route of what was attached is as it was asked for. */
  lemma IntentIsServed(
    read: Reading, before: Rows, gone: set<string>, later: set<string>, served: map<string, Route>, d: Domain,
    appId: string, service: string, name: string, port: int
  )
    requires Coherent(read) && IsIntent(read, d, appId, service, name, port) && appId !in later
    requires var rows := Written(before, d, gone, later); AllReadable(read, rows) && ServesExactly(read, rows, served)
    ensures ServesTarget(read, served, appId, service, name, port)
  {
    var rows := Written(before, d, gone, later);
    assert d.id in rows && rows[d.id] == d;
    assert ServesRow(read, served, rows[d.id]);
    assert read.canonical(d.name) == read.canonical(name);
  }

  lemma TurnableIffRebuildable(read: Reading, list: seq<Domain>, rows: Rows)
    requires ListsRows(list, rows) && Coherent(read) && forall id | id in rows :: rows[id].id == id
    ensures Turnable(read, list) <==> Rebuildable(read, rows)
  {
    forall id | id in rows ensures exists j :: 0 <= j < |list| && list[j] == rows[id] {
    }
  }

  // ---------- operations ----------

  /**
   Whether the calls of an operation go through, in the order they are made: taking the lock,
   reading the app, listing the domains, reading the server configuration, making an operation
   id, writing the row, recording the event; then, to apply the change, listing again, loading
   the routes, recording a failure, recording the outcome, clearing the failures; and giving the
   lock back.
  */
  datatype Calls = Calls(
    acquire: bool,
    app: bool,
    list: bool,
    config: bool,
    id: bool,
    write: bool,
    event: bool,
    relist: bool,
    sync: bool,
    failure: bool,
    outcome: bool,
    clear: bool,
    unlock: bool
  ) {
    /** The routes get loaded. */
    predicate Loads() {
      relist && sync
    }

    /** Applying a change reports nothing: an automatic route leaves a failed load to its records. */
    predicate Silent(automatic: bool) {
      if Loads() then outcome && clear else automatic && failure && outcome
    }

    /** A load, or else the record that it failed. */
    predicate Accounts() {
      Loads() || failure
    }
  }

  /** Refused without a change; or done, without any error to report if `clean`. */
  datatype Answer<T> = Refused(error: RouteError) | Done(value: T, clean: bool)

  /** The recorded failures once a change was applied. */
  function AfterApply(failures: Failures, key: FailureKey, failure: Failure, calls: Calls): Failures {
    if calls.Loads() then if calls.clear then map[] else failures
    else if calls.failure then failures[key := failure] else failures
  }

  lemma NothingMoves(read: Reading, rows: Rows)
    ensures Moves(read, rows, rows)
  {
    assert rows == WithoutApps(rows, {});
  }

  /**
   The change of one public address is accounted for, whether it could be loaded or not, and
   whatever apps were removed before and after it.
  */
  lemma OperationIsAccounted(
    read: Reading, apps: set<string>, rows: Rows, after: Rows, failures: Failures, served: map<string, Route>,
    gone: set<string>, later: set<string>, key: FailureKey, failure: Failure, calls: Calls, now: map<string, Route>
  )
    requires Coherent(read) && RowsOk(read, rows) && RowsOk(read, after)
    requires ChangesOnly(read, WithoutApps(WithoutApps(rows, gone), later), after, key.appId, key.name)
    requires calls.Loads() ==> ServesExactly(read, after, now)
    requires !calls.Loads() ==> now == served
    ensures Accounted(read, apps, rows, failures, served) && calls.Accounts() ==>
      var left := ForgetApps(ForgetApps(failures, gone), later);
      Accounted(read, apps - gone - later, after, AfterApply(left, key, failure, calls), now)
  {
    var between, left := WithoutApps(rows, gone), ForgetApps(ForgetApps(failures, gone), later);
    if calls.Loads() {
      ServedIsAccounted(read, apps - gone - later, after, AfterApply(left, key, failure, calls), now);
    } else if Accounted(read, apps, rows, failures, served) && calls.failure {
      RemovalIsAccounted(read, apps, rows, failures, served, gone);
      RemovalIsAccounted(read, apps - gone, between, ForgetApps(failures, gone), served, later);
      FailureIsAccounted(
        read, apps - gone - later, WithoutApps(between, later), after, left, served, key, failure);
    }
  }

  lemma DetachmentMoves(
    read: Reading, rows: Rows, appId: string, name: string, gone: set<string>, later: set<string>
  )
    requires RowsOk(read, rows)
    ensures RowsOk(read, WithoutApps(Detached(read, rows, appId, name), gone))
    ensures Moves(read, rows, WithoutApps(WithoutApps(Detached(read, rows, appId, name), gone), later))
  {
    var detached := Detached(read, rows, appId, name);
    RowsShrink(read, rows, WithoutApps(detached, gone));
    assert WithoutApps(WithoutApps(detached, gone), later) == WithoutApps(detached, gone + later);
  }

  class RoutingService {
    const store: DomainStore
    const router: CaddyRouter
    const read: Reading

    constructor (store: DomainStore, router: CaddyRouter, read: Reading)
      ensures this.store == store && this.router == router && this.read == read
    {
      this.store, this.router, this.read := store, router, read;
    }

    ghost predicate Valid()
      reads store
    {
      Coherent(read) && RowsOk(read, store.rows)
    }

    /** Every difference between the stored intents and what is served is on record. */
    ghost predicate Accounts()
      requires Valid()
      reads store, router
    {
      Accounted(read, store.apps, store.rows, store.failures, router.active)
    }

    /**
     Turn all stored intents into routes and load them; refuse if one is not usable or two are
     for one public address.
    */
    method Rebuild(calls: Calls) returns (r: Result<(), RouteError>)
      requires Coherent(read) && forall id | id in store.rows :: store.rows[id].id == id
      modifies router
      ensures r.Ok? <==> calls.relist && Rebuildable(read, store.rows) && calls.sync
      ensures r.Ok? ==> ServesExactly(read, store.rows, router.active)
      ensures r.Err? ==> router.active == old(router.active)
    {
      if !calls.relist {
        return Err(StoreFailed);
      }
      var list := store.ListDomains();
      var routes := RoutesFrom(read, list);
      TurnableIffRebuildable(read, list, store.rows);
      if routes.Err? {
        return Err(routes.error);
      }
      RouterHoldsIntent(read, store.rows, list, routes.value);
      var synced := router.SyncRoutes(calls.sync, routes.value);
      r := if synced then Ok(()) else Err(NotReloaded);
    }

    /** Apply a stored change, and record how that went. */
    method Apply(key: FailureKey, failure: Failure, automatic: bool, calls: Calls) returns (clean: bool)
      requires Valid()
      modifies store`failures, router
      ensures clean <==> calls.Silent(automatic)
      ensures calls.Loads() ==> ServesExactly(read, store.rows, router.active)
      ensures !calls.Loads() ==> router.active == old(router.active)
      ensures store.failures == AfterApply(old(store.failures), key, failure, calls)
      ensures calls.Loads() ==> store.failures == if calls.clear then map[] else old(store.failures)
      ensures !calls.Loads() ==>
        store.failures == if calls.failure then old(store.failures)[key := failure] else old(store.failures)
    {
      KeptRowsAreRebuildable(read, store.rows);
      var rebuilt := Rebuild(calls);
      if rebuilt.Err? {
        var recorded := store.UpsertRouteApplyFailure(calls.failure, key, failure);
        return automatic && recorded && calls.outcome;
      }
      var cleared := store.ClearRouteApplyFailures(calls.clear);
      clean := calls.outcome && cleared;
    }

    /** Load the current intents, whatever apps are still there, and forget the failures. */
    method Reconcile(calls: Calls) returns (clean: bool)
      requires Coherent(read) && forall id | id in store.rows :: store.rows[id].id == id
      modifies store`failures, router
      ensures clean <==> calls.acquire && calls.Loads() && Rebuildable(read, store.rows) && calls.clear && calls.unlock
      ensures if calls.acquire && calls.Loads() && Rebuildable(read, store.rows)
              then ServesExactly(read, store.rows, router.active)
              else router.active == old(router.active) && store.failures == old(store.failures)
      ensures store.failures == old(store.failures) || store.failures == map[]
      ensures clean ==> store.failures == map[]
    {
      if !calls.acquire {
        return false;
      }
      var rebuilt := Rebuild(calls);
      if rebuilt.Err? {
        return false;
      }
      var cleared := store.ClearRouteApplyFailures(calls.clear);
      clean := cleared && calls.unlock;
    }

    /**
     `gone` are apps removed between listing the domains and writing, `later` those removed
     between writing and applying.
    */
    method Attach(
      appId: string, service: string, name: string, port: int, gone: set<string>, later: set<string>, calls: Calls
    ) returns (r: Answer<Domain>)
      requires Valid()
      modifies store, router
      ensures Valid() && Moves(read, old(store.rows), store.rows)
      ensures r.Done? <==>
        && read.canonical(name).Some? && ValidTarget(service, port)
        && calls.acquire && calls.app && appId in old(store.apps) && calls.list
        && !TakenByOther(read, old(store.rows), appId, name) && calls.id && appId !in gone && calls.write
      ensures r.Done? ==>
        && IsIntent(read, r.value, appId, service, name, port)
        && store.rows == Written(old(store.rows), r.value, gone, later)
        && (r.clean <==> calls.event && calls.Silent(false) && calls.unlock)
        && (calls.Loads() ==> ServesExactly(read, store.rows, router.active))
      ensures r.Done? && calls.Loads() && appId !in later ==>
        ServesTarget(read, router.active, appId, service, name, port)
      ensures r.Done? && !calls.Loads() && calls.failure ==>
        Records(FailureKey(appId, r.value.name), Failure(service, port, r.value.https, AttachRoute))
      ensures r.Refused? ==> Untouched(old(store.rows), old(router.active), gone)
      ensures old(Accounts()) && (r.Done? ==> calls.Accounts()) ==> Accounts()
    {
      NothingMoves(read, store.rows);
      var canonical := read.canonical(name);
      if canonical.None? {
        return Refused(BadAddress);
      }
      if !ValidTarget(service, port) {
        return Refused(BadTarget);
      }
      if !calls.acquire {
        return Refused(Locked);
      }
      if !calls.app || appId !in store.apps {
        return Refused(if calls.app then NoApp else StoreFailed);
      }
      if !calls.list {
        return Refused(StoreFailed);
      }
      ghost var rows := store.rows;
      var domains := store.ListDomains();
      r := Store(appId, service, name, port, domains, gone, later, calls.id, false, calls);
      if r.Done? && calls.Loads() && appId !in later {
        IntentIsServed(read, rows, gone, later, router.active, r.value, appId, service, name, port);
      }
    }

    predicate Records(key: FailureKey, failure: Failure)
      reads store
    {
      key in store.failures && store.failures[key] == failure
    }

    /** No row and no route was changed; at most apps have gone. */
    ghost predicate Untouched(rows: Rows, active: map<string, Route>, gone: set<string>)
      reads store, router
    {
      && (store.rows == rows || store.rows == WithoutApps(rows, gone))
      && router.active == active
    }

    /** The common end of attaching: find the id, write the row, apply the change. */
    method Store(
      appId: string, service: string, name: string, port: int, domains: seq<Domain>,
      gone: set<string>, later: set<string>, hasId: bool, automatic: bool, calls: Calls
    ) returns (r: Answer<Domain>)
      requires Valid() && ListsRows(domains, store.rows)
      requires read.canonical(name).Some? && ValidTarget(service, port) && appId in store.apps
      modifies store, router
      ensures Valid() && Moves(read, old(store.rows), store.rows)
      ensures r.Done? <==>
        !TakenByOther(read, old(store.rows), appId, name) && hasId && appId !in gone && calls.write
      ensures r.Done? ==>
        && IsIntent(read, r.value, appId, service, name, port)
        && store.rows == Written(old(store.rows), r.value, gone, later)
        && (r.clean <==> calls.event && calls.Silent(automatic) && calls.unlock)
        && (calls.Loads() ==> ServesExactly(read, store.rows, router.active))
      ensures r.Done? && !calls.Loads() && calls.failure ==>
        Records(FailureKey(appId, r.value.name), Failure(service, port, r.value.https, AttachRoute))
      ensures r.Refused? ==> Untouched(old(store.rows), old(router.active), gone)
      ensures old(Accounts()) && (r.Done? ==> calls.Accounts()) ==> Accounts()
    {
      NothingMoves(read, store.rows);
      var canonical := read.canonical(name).value;
      var key := read.key(canonical.address).value;
      assert read.key(name) == Some(key);
      ghost var rows := store.rows;
      var id := AvailableDomainId(read, appId, key, domains, rows);
      AvailableUnlessTaken(read, rows, appId, name, key, id);
      if id.Err? {
        return Refused(id.error);
      }
      if !hasId {
        return Refused(NoOperationId);
      }
      var d := Domain(id.value, appId, service, canonical.address, port, canonical.https);
      IntentIsRow(read, d, name);
      r := Write(d, gone, later, automatic, calls);
    }

    /**
     The common end of a change to one public address of one app: record its event and apply it.
     `apps`, `rows` and `failures` are what was stored when the operation began.
    */
    method Finish(
      key: FailureKey, failure: Failure, automatic: bool, later: set<string>, calls: Calls,
      ghost apps: set<string>, ghost rows: Rows, ghost failures: Failures, ghost gone: set<string>
    ) returns (clean: bool)
      requires Valid() && RowsOk(read, rows)
      requires store.apps == apps - gone && store.failures == ForgetApps(failures, gone)
      requires ChangesOnly(
                 read, WithoutApps(WithoutApps(rows, gone), later), WithoutApps(store.rows, later), key.appId, key.name)
      modifies store, router
      ensures Valid() && store.rows == WithoutApps(old(store.rows), later)
      ensures clean <==> calls.event && calls.Silent(automatic) && calls.unlock
      ensures calls.Loads() ==> ServesExactly(read, store.rows, router.active)
      ensures store.failures == AfterApply(ForgetApps(old(store.failures), later), key, failure, calls)
      ensures Accounted(read, apps, rows, failures, old(router.active)) && calls.Accounts() ==> Accounts()
    {
      ghost var served, left := router.active, store.rows;
      store.RemoveApps(later);
      RowsShrink(read, left, store.rows);
      var applied := Apply(key, failure, automatic, calls);
      clean := calls.event && applied && calls.unlock;
      OperationIsAccounted(
        read, apps, rows, store.rows, failures, served, gone, later, key, failure, calls, router.active);
    }

    /** Write the row of an available id, and apply the change. */
    method Write(
      d: Domain, gone: set<string>, later: set<string>, automatic: bool, calls: Calls
    ) returns (r: Answer<Domain>)
      requires Valid() && RowOk(read, d.id, d) && d.appId in store.apps
      requires IsAvailable(read, store.rows, d.appId, read.key(d.name).value, d.id)
      modifies store, router
      ensures Valid() && Moves(read, old(store.rows), store.rows)
      ensures r.Done? <==> d.appId !in gone && calls.write
      ensures r.Done? ==>
        && r.value == d && store.rows == Written(old(store.rows), d, gone, later)
        && (r.clean <==> calls.event && calls.Silent(automatic) && calls.unlock)
        && (calls.Loads() ==> ServesExactly(read, store.rows, router.active))
      ensures r.Done? && !calls.Loads() && calls.failure ==>
        Records(FailureKey(d.appId, d.name), Failure(d.service, d.port, d.https, AttachRoute))
      ensures r.Refused? ==> Untouched(old(store.rows), old(router.active), gone)
      ensures old(Accounts()) && (r.Done? ==> calls.Accounts()) ==> Accounts()
    {
      ghost var apps, rows, failures, served := store.apps, store.rows, store.failures, router.active;
      store.RemoveApps(gone);
      RowsShrink(read, rows, store.rows);
      AttachKeepsRows(read, rows, gone, d);
      var attached := store.AttachDomain(calls.write, d);
      if attached.Err? {
        if Accounted(read, apps, rows, failures, served) {
          RemovalIsAccounted(read, apps, rows, failures, served, gone);
        }
        return Refused(attached.error);
      }
      WriteChangesOnly(read, rows, d, gone, later);
      var key, failure := FailureKey(d.appId, d.name), Failure(d.service, d.port, d.https, AttachRoute);
      var clean := Finish(key, failure, automatic, later, calls, apps, rows, failures, gone);
      assert Writes(read, rows, store.rows, d, gone, later);
      r := Done(d, clean);
    }

    /** Take the route of a public address away from an app. */
    method Detach(
      appId: string, name: string, gone: set<string>, later: set<string>, calls: Calls
    ) returns (r: Answer<()>)
      requires Valid()
      modifies store, router
      ensures Valid() && Moves(read, old(store.rows), store.rows)
      ensures r.Done? <==>
        && read.canonical(name).Some? && calls.acquire && calls.app && appId in old(store.apps) && calls.list
        && HasAddress(read, old(store.rows), appId, name) && calls.id && appId !in gone && calls.write
      ensures r.Done? ==>
        && store.rows == WithoutApps(WithoutApps(Detached(read, old(store.rows), appId, name), gone), later)
        && (r.clean <==> calls.event && calls.Silent(false) && calls.unlock)
        && (calls.Loads() ==> ServesExactly(read, store.rows, router.active))
      ensures r.Done? && !calls.Loads() && calls.failure ==>
        exists id ::
          && id in old(store.rows) && Detaches(read, old(store.rows)[id], appId, name)
          && var d := old(store.rows)[id];
             Records(
               FailureKey(appId, read.canonical(name).value.address),
               Failure(d.service, d.port, d.https, DetachRoute))
      ensures r.Refused? ==> Untouched(old(store.rows), old(router.active), gone)
      ensures old(Accounts()) && (r.Done? ==> calls.Accounts()) ==> Accounts()
    {
      NothingMoves(read, store.rows);
      var canonical := read.canonical(name);
      if canonical.None? {
        return Refused(BadAddress);
      }
      if !calls.acquire {
        return Refused(Locked);
      }
      if !calls.app || appId !in store.apps {
        return Refused(if calls.app then NoApp else StoreFailed);
      }
      if !calls.list {
        return Refused(StoreFailed);
      }
      var domains := store.ListDomains();
      var address := canonical.value.address;
      var key := read.key(address);
      assert key == read.key(name);
      var matches := MatchesOf(read, domains, appId, key.value);
      MatchIsTheRow(read, store.rows, domains, appId, name, matches);
      if |matches| == 0 {
        return Refused(NoDomain);
      }
      if !calls.id {
        return Refused(NoOperationId);
      }
      r := Delete(appId, name, address, matches[0], gone, later, calls);
    }

    /** Delete the row, and apply the change. */
    method Delete(
      appId: string, name: string, address: string, d: Domain, gone: set<string>, later: set<string>, calls: Calls
    ) returns (r: Answer<()>)
      requires Valid() && d.id in store.rows && store.rows[d.id] == d && Detaches(read, d, appId, name)
      requires read.key(address) == read.key(name)
      modifies store, router
      ensures Valid() && Moves(read, old(store.rows), store.rows)
      ensures r.Done? <==> appId !in gone && calls.write
      ensures r.Done? ==>
        && store.rows == WithoutApps(WithoutApps(Detached(read, old(store.rows), appId, name), gone), later)
        && (r.clean <==> calls.event && calls.Silent(false) && calls.unlock)
        && (calls.Loads() ==> ServesExactly(read, store.rows, router.active))
      ensures r.Done? && !calls.Loads() && calls.failure ==>
        Records(FailureKey(appId, address), Failure(d.service, d.port, d.https, DetachRoute))
      ensures r.Refused? ==> Untouched(old(store.rows), old(router.active), gone)
      ensures old(Accounts()) && (r.Done? ==> calls.Accounts()) ==> Accounts()
    {
      ghost var apps, rows, failures, served := store.apps, store.rows, store.failures, router.active;
      store.RemoveApps(gone);
      RowsShrink(read, rows, store.rows);
      DeletesTheMatch(read, rows, gone, appId, name, d);
      var deleted := store.DeleteDomainByAppAndName(calls.write, appId, d.name);
      if deleted.Err? {
        if Accounted(read, apps, rows, failures, served) {
          RemovalIsAccounted(read, apps, rows, failures, served, gone);
        }
        return Refused(deleted.error);
      }
      DetachmentMoves(read, rows, appId, name, gone, later);
      DetachmentChangesOnly(read, rows, appId, name, address, gone, later);
      var key, failure := FailureKey(appId, address), Failure(d.service, d.port, d.https, DetachRoute);
      var clean := Finish(key, failure, false, later, calls, apps, rows, failures, gone);
      r := Done((), clean);
    }

    /** The app has a route already. */
    ghost predicate IsRouted(rows: Rows, appId: string) {
      exists id :: id in rows && rows[id].appId == appId
    }

    /**
     Give an app its first route: nothing if it has one or there is nothing to route to.
     `target` is the port Compose publishes and `host` the host of the app under the base domain
     of the server, where there are such.
    */
    method EnsureInitial(
      appId: string, deploymentId: string, target: Option<(string, int)>, host: Option<string>,
      gone: set<string>, later: set<string>, calls: Calls
    ) returns (r: Answer<Option<Domain>>)
      requires Valid()
      modifies store, router
      ensures Valid() && Moves(read, old(store.rows), store.rows)
      ensures r.Refused? <==>
        || !calls.acquire || !calls.app || appId !in old(store.apps) || deploymentId == "" || !calls.list
        || (!IsRouted(old(store.rows), appId) && target.Some? && ValidTarget(target.value.0, target.value.1)
            && !calls.config)
      ensures r.Done? && r.value.Some? <==>
        && calls.acquire && calls.app && appId in old(store.apps) && deploymentId != "" && calls.list
        && !IsRouted(old(store.rows), appId) && target.Some? && ValidTarget(target.value.0, target.value.1)
        && calls.config && host.Some? && read.canonical(host.value).Some?
        && !TakenByOther(read, old(store.rows), appId, host.value) && appId !in gone && calls.write
      ensures r.Done? && r.value.Some? ==>
        && IsIntent(read, r.value.value, appId, target.value.0, host.value, target.value.1)
        && store.rows == Written(old(store.rows), r.value.value, gone, later)
        && (r.clean <==> calls.event && calls.Silent(true) && calls.unlock)
        && (calls.Loads() ==> ServesExactly(read, store.rows, router.active))
      ensures r.Done? && r.value.Some? && !calls.Loads() && calls.failure ==>
        var d := r.value.value;
        Records(FailureKey(appId, d.name), Failure(target.value.0, target.value.1, d.https, AttachRoute))
      ensures r.Done? && r.value.None? ==> r.clean == calls.unlock
      ensures !(r.Done? && r.value.Some?) ==> Untouched(old(store.rows), old(router.active), gone)
      ensures old(Accounts()) && (r.Done? && r.value.Some? ==> calls.Accounts()) ==> Accounts()
    {
      NothingMoves(read, store.rows);
      if !calls.acquire {
        return Refused(Locked);
      }
      if !calls.app || appId !in store.apps {
        return Refused(if calls.app then NoApp else StoreFailed);
      }
      if deploymentId == "" {
        return Refused(NoDeployment);
      }
      if !calls.list {
        return Refused(StoreFailed);
      }
      var domains := store.ListDomains();
      var i := 0;
      while i < |domains|
        invariant i <= |domains|
        invariant forall j | 0 <= j < i :: domains[j].appId != appId
      {
        if domains[i].appId == appId {
          return Done(None, calls.unlock);
        }
        i := i + 1;
      }
      assert forall id | id in store.rows :: store.rows[id] in domains;
      if target.None? || !ValidTarget(target.value.0, target.value.1) {
        return Done(None, calls.unlock);
      }
      if !calls.config {
        return Refused(NoConfig);
      }
      if host.None? || read.canonical(host.value).None? {
        return Done(None, calls.unlock);
      }
      var stored := Store(appId, target.value.0, host.value, target.value.1, domains, gone, later, true, true, calls);
      r := if stored.Done? then Done(Some(stored.value), stored.clean) else Done(None, calls.unlock);
    }
  }
}
