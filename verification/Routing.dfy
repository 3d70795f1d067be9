/**
 Routing intent as data: the stored domains, what an operation may do to them, the routes they
 stand for, and what is kept over whole runs. Operations run under the routes lock; only the
 removal of apps, which takes their domains along, may come between their statements.
*/
module Routing {
  import opened Results
  import opened AppName
  import Addresses

  // ---------- reading addresses ----------

  datatype Canonical = Canonical(address: string, https: bool)

  /** How addresses are read: into their canonical form, and into their public key. */
  datatype Reading = Reading(canonical: string -> Option<Canonical>, key: string -> Option<string>)

  function ReadCanonical(value: string): Option<Canonical> {
    match Addresses.ParseSite(value)
    case None => None
    case Some(site) => Some(Canonical(Addresses.Render(site), site.https))
  }

  const ADDRESSES := Reading(ReadCanonical, Addresses.PublicAddressKey)

  /**
   What routing needs to know: an address has a key if it has a canonical form, which reads the
   same and has the same key.
  */
  ghost predicate Coherent(read: Reading) {
    && (forall v: string :: read.canonical(v).Some? <==> read.key(v).Some?)
    && (forall v: string | read.canonical(v).Some? ::
          read.canonical(read.canonical(v).value.address) == read.canonical(v))
    && (forall v: string | read.canonical(v).Some? :: read.key(read.canonical(v).value.address) == read.key(v))
  }

  lemma AddressIsCoherent(v: string)
    ensures ReadCanonical(v).Some? <==> Addresses.PublicAddressKey(v).Some?
    ensures ReadCanonical(v).Some? ==>
      var address := ReadCanonical(v).value.address;
      && ReadCanonical(address) == ReadCanonical(v)
      && Addresses.PublicAddressKey(address) == Addresses.PublicAddressKey(v)
  {
    if Addresses.ParseSite(v).Some? {
      Addresses.CanonicalIsStable(v);
    }
  }

  lemma AddressesAreCoherent()
    ensures Coherent(ADDRESSES)
  {
    forall v: string
      ensures ADDRESSES.canonical(v).Some? <==> ADDRESSES.key(v).Some?
      ensures ADDRESSES.canonical(v).Some? ==>
        var address := ADDRESSES.canonical(v).value.address;
        ADDRESSES.canonical(address) == ADDRESSES.canonical(v) && ADDRESSES.key(address) == ADDRESSES.key(v)
    {
      AddressIsCoherent(v);
    }
  }

  // ---------- rows ----------

  /** A domain id: the hash of an app and a public address key, taken as injective, or an id of any other making. */
  datatype DomainId = Minted(appId: string, key: string) | Other(text: string)

  datatype Domain = Domain(id: DomainId, appId: string, service: string, name: string, port: int, https: bool)

  type Rows = map<DomainId, Domain>

  datatype Route = Route(appId: string, service: string, name: string, port: int, https: bool)

  datatype RouteError =
    | BadAddress
    | BadTarget
    | Locked
    | NoApp
    | NoDeployment
    | NoConfig
    | NoOperationId
    | TakenBy(appId: string)
    | Ambiguous
    | NoDomain
    | StoreFailed
    | Duplicate
    | NotReloaded

  predicate ValidTarget(service: string, port: int) {
    && service != ""
    && (forall i | 0 <= i < |service| :: !IsSpace(service[i]) && !Addresses.IsControl(service[i]))
    && 1 <= port <= Addresses.MAX_PORT
  }

  /** A stored intent: it has its id, its address can be read and its target used. */
  predicate RowOk(read: Reading, id: DomainId, d: Domain) {
    d.id == id && read.key(d.name).Some? && ValidTarget(d.service, d.port)
  }

  /** A minted id stays with the app and the key it was minted for. */
  predicate Bound(read: Reading, id: DomainId, d: Domain) {
    id.Minted? ==> id.appId == d.appId && Some(id.key) == read.key(d.name)
  }

  /** Every row is usable, and no two have the same public address. */
  ghost predicate RowsOk(read: Reading, rows: Rows) {
    && (forall id | id in rows :: RowOk(read, id, rows[id]) && Bound(read, id, rows[id]))
    && (forall a, b | a in rows && b in rows && read.key(rows[a].name) == read.key(rows[b].name) :: a == b)
  }

  /** Every id that is there before and after stands for the same app and public address. */
  ghost predicate SameBinding(read: Reading, before: Rows, after: Rows) {
    forall id | id in before && id in after ::
      after[id].appId == before[id].appId && read.key(after[id].name) == read.key(before[id].name)
  }

  function WithoutApps(rows: Rows, apps: set<string>): Rows {
    map id | id in rows && rows[id].appId !in apps :: rows[id]
  }

  /** Fewer rows are still usable and apart. */
  lemma RowsShrink(read: Reading, rows: Rows, less: Rows)
    requires RowsOk(read, rows) && less.Keys <= rows.Keys
    requires forall id | id in less :: less[id] == rows[id]
    ensures RowsOk(read, less) && SameBinding(read, rows, less)
  {
  }

  /** A listing: every row once, in some order. */
  ghost predicate ListsRows(list: seq<Domain>, rows: Rows) {
    && (forall i | 0 <= i < |list| :: list[i].id in rows && rows[list[i].id] == list[i])
    && (forall i, j | 0 <= i < j < |list| :: list[i].id != list[j].id)
    && (forall id | id in rows :: rows[id] in list)
  }

  function WithoutName(rows: Rows, appId: string, name: string): Rows {
    map id | id in rows && !(rows[id].appId == appId && rows[id].name == name) :: rows[id]
  }

  // ---------- operations ----------

  predicate HasKey(read: Reading, rows: Rows, id: DomainId, key: string) {
    id in rows && read.key(rows[id].name) == Some(key)
  }

  /** The address is free and gets a new id, or it is the app's own row that has it. */
  ghost predicate IsAvailable(read: Reading, rows: Rows, appId: string, key: string, id: DomainId) {
    || (id == Minted(appId, key) && forall other :: !HasKey(read, rows, other, key))
    || (HasKey(read, rows, id, key) && rows[id].appId == appId)
  }

  /** Another app has the address, or two rows have it. */
  ghost predicate Conflicts(read: Reading, rows: Rows, appId: string, key: string, error: RouteError) {
    || (error.TakenBy? && error.appId != appId &&
        exists id :: HasKey(read, rows, id, key) && rows[id].appId == error.appId)
    || (error == Ambiguous && exists a, b :: a != b && HasKey(read, rows, a, key) && HasKey(read, rows, b, key))
  }

  /** Whether another app has the public address. */
  predicate TakenByOther(read: Reading, rows: Rows, appId: string, name: string) {
    exists id | id in rows :: rows[id].appId != appId && read.key(rows[id].name) == read.key(name)
  }

  /** What an attachment stores. */
  ghost predicate IsIntent(read: Reading, d: Domain, appId: string, service: string, name: string, port: int) {
    && d.appId == appId && d.service == service && d.port == port
    && read.canonical(name) == Some(Canonical(d.name, d.https))
  }

  lemma IntentIsRow(read: Reading, d: Domain, name: string)
    requires Coherent(read) && read.canonical(name) == Some(Canonical(d.name, d.https))
    requires ValidTarget(d.service, d.port)
    ensures RowOk(read, d.id, d) && read.key(d.name) == read.key(name)
  {
    assert read.canonical(name).value.address == d.name;
  }

  /** The route of a stored intent. */
  function RouteOf(read: Reading, d: Domain): Route
    requires read.canonical(d.name).Some?
  {
    var canonical := read.canonical(d.name).value;
    Route(d.appId, d.service, canonical.address, d.port, canonical.https)
  }

  ghost predicate AllReadable(read: Reading, rows: Rows) {
    forall id | id in rows :: read.canonical(rows[id].name).Some?
  }

  /** The stored intents can be turned into routes: all are usable, and no two have the same public address. */
  ghost predicate Rebuildable(read: Reading, rows: Rows) {
    && AllReadable(read, rows)
    && (forall id | id in rows :: ValidTarget(rows[id].service, rows[id].port))
    && (forall a, b | a in rows && b in rows && read.key(rows[a].name) == read.key(rows[b].name) :: a == b)
  }

  /** One route per stored intent, in the order they were listed. */
  ghost predicate RoutesOf(read: Reading, list: seq<Domain>, routes: seq<Route>) {
    && |routes| == |list|
    && (forall i | 0 <= i < |list| :: read.canonical(list[i].name).Some? && routes[i] == RouteOf(read, list[i]))
  }

  predicate Detaches(read: Reading, d: Domain, appId: string, name: string) {
    d.appId == appId && read.key(d.name) == read.key(name)
  }

  function Detached(read: Reading, rows: Rows, appId: string, name: string): Rows {
    map id | id in rows && !Detaches(read, rows[id], appId, name) :: rows[id]
  }

  /** Writing the row of an available id keeps addresses apart and ids bound, whatever apps go meanwhile. */
  lemma AttachKeepsRows(read: Reading, rows: Rows, gone: set<string>, d: Domain)
    requires RowsOk(read, rows) && RowOk(read, d.id, d)
    requires IsAvailable(read, rows, d.appId, read.key(d.name).value, d.id)
    ensures RowsOk(read, WithoutApps(rows, gone)[d.id := d])
    ensures SameBinding(read, rows, WithoutApps(rows, gone)[d.id := d])
  {
    var key := read.key(d.name).value;
    var after := WithoutApps(rows, gone)[d.id := d];
    assert (forall other :: !HasKey(read, rows, other, key)) && d.id in rows ==> Bound(read, d.id, rows[d.id]);
    forall a, b | a in after && b in after && read.key(after[a].name) == read.key(after[b].name)
      ensures a == b
    {
      assert a != d.id ==> HasKey(read, rows, a, key) || b != d.id;
      assert b != d.id ==> HasKey(read, rows, b, key) || a != d.id;
    }
  }

  /** The rows after one is written, with apps removed before that and after it. */
  function Written(rows: Rows, d: Domain, gone: set<string>, later: set<string>): Rows {
    WithoutApps(WithoutApps(rows, gone)[d.id := d], later)
  }

  /** A row written under an available id. */
  ghost predicate Writes(
    read: Reading, before: Rows, after: Rows, d: Domain, gone: set<string>, later: set<string>
  ) {
    && RowOk(read, d.id, d) && IsAvailable(read, before, d.appId, read.key(d.name).value, d.id)
    && after == Written(before, d, gone, later)
  }

  /** What one operation may do to the stored intents, with apps removed meanwhile. */
  ghost predicate Moves(read: Reading, before: Rows, after: Rows) {
    || (exists gone :: after == WithoutApps(before, gone))
    || (exists d, gone, later :: Writes(read, before, after, d, gone, later))
    || (exists appId, name, gone :: after == WithoutApps(Detached(read, before, appId, name), gone))
  }

  // ---------- whole runs ----------

  lemma MoveKeepsRows(read: Reading, before: Rows, after: Rows)
    requires RowsOk(read, before) && Moves(read, before, after)
    ensures RowsOk(read, after) && SameBinding(read, before, after)
  {
    if exists gone :: after == WithoutApps(before, gone) {
      RowsShrink(read, before, after);
    } else if exists d, gone, later :: Writes(read, before, after, d, gone, later) {
      var d, gone, later :| Writes(read, before, after, d, gone, later);
      AttachKeepsRows(read, before, gone, d);
      RowsShrink(read, WithoutApps(before, gone)[d.id := d], after);
    } else {
      RowsShrink(read, before, after);
    }
  }

  /** An id that is not minted never comes back once it is gone. */
  lemma OtherIdsOnlyGo(read: Reading, before: Rows, after: Rows, id: DomainId)
    requires RowsOk(read, before) && Moves(read, before, after) && id.Other? && id in after
    ensures id in before
  {
    if exists d, gone, later :: Writes(read, before, after, d, gone, later) {
      var d, gone, later :| Writes(read, before, after, d, gone, later);
    }
  }

  ghost predicate IsRun(read: Reading, history: seq<Rows>) {
    && history != [] && RowsOk(read, history[0])
    && forall i | 0 <= i < |history| - 1 :: Moves(read, history[i], history[i + 1])
  }

  lemma {:induction false} RunKeepsRows(read: Reading, history: seq<Rows>, i: nat)
    requires IsRun(read, history) && i < |history|
    ensures RowsOk(read, history[i])
  {
    if i > 0 {
      RunKeepsRows(read, history, i - 1);
      assert Moves(read, history[i - 1], history[i - 1 + 1]);
      MoveKeepsRows(read, history[i - 1], history[i]);
    }
  }

  ghost predicate SameFor(read: Reading, a: Domain, b: Domain) {
    a.appId == b.appId && read.key(a.name) == read.key(b.name)
  }

  lemma MintedIsSame(read: Reading, a: Rows, b: Rows, id: DomainId)
    requires RowsOk(read, a) && RowsOk(read, b) && id in a && id in b && id.Minted?
    ensures SameFor(read, a[id], b[id])
  {
    assert Bound(read, id, a[id]) && Bound(read, id, b[id]);
  }

  lemma OtherStays(read: Reading, history: seq<Rows>, j: nat, id: DomainId)
    requires IsRun(read, history) && 0 < j < |history| && id in history[j] && id.Other?
    ensures id in history[j - 1] && SameFor(read, history[j - 1][id], history[j][id])
  {
    RunKeepsRows(read, history, j - 1);
    assert Moves(read, history[j - 1], history[j - 1 + 1]);
    OtherIdsOnlyGo(read, history[j - 1], history[j], id);
    MoveKeepsRows(read, history[j - 1], history[j]);
  }

  /**
   Over every run of attachments, detachments, first routes and app removals, an id keeps the
   app and the public address it stands for.
  */
  lemma {:induction false} RunKeepsBinding(read: Reading, history: seq<Rows>, i: nat, j: nat, id: DomainId)
    requires IsRun(read, history) && i <= j < |history| && id in history[i] && id in history[j]
    ensures SameFor(read, history[i][id], history[j][id])
    decreases j
  {
    if id.Minted? {
      RunKeepsRows(read, history, i);
      RunKeepsRows(read, history, j);
      MintedIsSame(read, history[i], history[j], id);
    } else if i < j {
      OtherStays(read, history, j, id);
      RunKeepsBinding(read, history, i, j - 1, id);
    }
  }

  /** And at any time of the run, rebuilding hands the router exactly the stored intents. */
  lemma RunIsServed(read: Reading, history: seq<Rows>, i: nat, list: seq<Domain>, routes: seq<Route>)
    requires Coherent(read) && IsRun(read, history) && i < |history|
    requires ListsRows(list, history[i]) && RoutesOf(read, list, routes)
    ensures Rebuildable(read, history[i]) && ServesExactly(read, history[i], ByDomain(routes))
  {
    RunKeepsRows(read, history, i);
    KeptRowsAreRebuildable(read, history[i]);
    RouterHoldsIntent(read, history[i], list, routes);
  }

  // ---------- routes ----------

  /** Kept as the operations keep them, stored intents can always be turned into routes. */
  lemma KeptRowsAreRebuildable(read: Reading, rows: Rows)
    requires Coherent(read) && RowsOk(read, rows)
    ensures Rebuildable(read, rows)
  {
  }

  /** The router's map: a later route for a name replaces an earlier one. */
  method RoutesByDomain(routes: seq<Route>) returns (result: map<string, Route>)
    ensures result == ByDomain(routes)
  {
    result := map[];
    for i := 0 to |routes|
      invariant result == ByDomain(routes[..i])
    {
      assert routes[..i + 1][..i] == routes[..i];
      result := result[routes[i].name := routes[i]];
    }
    assert routes[..|routes|] == routes;
  }

  function ByDomain(routes: seq<Route>): map<string, Route> {
    if routes == [] then map[]
    else ByDomain(routes[..|routes| - 1])[routes[|routes| - 1].name := routes[|routes| - 1]]
  }

  lemma {:induction false} ByDomainHasAll(routes: seq<Route>)
    requires forall i, j | 0 <= i < j < |routes| :: routes[i].name != routes[j].name
    ensures forall i | 0 <= i < |routes| ::
              routes[i].name in ByDomain(routes) && ByDomain(routes)[routes[i].name] == routes[i]
    ensures forall name | name in ByDomain(routes) :: exists i :: 0 <= i < |routes| && routes[i].name == name
    ensures |ByDomain(routes)| == |routes|
  {
    if routes != [] {
      var init, last := routes[..|routes| - 1], routes[|routes| - 1];
      ByDomainHasAll(init);
      assert last.name !in ByDomain(init);
      assert |ByDomain(routes)| == |ByDomain(init)| + 1;
    }
  }

  /** Routes of different intents have different names, since their public addresses differ. */
  lemma RouteNamesDiffer(read: Reading, rows: Rows, list: seq<Domain>, routes: seq<Route>)
    requires Coherent(read) && Rebuildable(read, rows) && ListsRows(list, rows) && RoutesOf(read, list, routes)
    ensures forall i, j | 0 <= i < j < |routes| :: routes[i].name != routes[j].name
  {
    forall i, j | 0 <= i < j < |routes| ensures routes[i].name != routes[j].name {
      assert read.key(routes[i].name) == read.key(list[i].name);
      assert read.key(routes[j].name) == read.key(list[j].name);
    }
  }

  predicate Serves(served: map<string, Route>, route: Route) {
    route.name in served && served[route.name] == route
  }

  /** Some stored intent is behind the route. */
  ghost predicate IsIntended(read: Reading, rows: Rows, route: Route)
    requires AllReadable(read, rows)
  {
    exists id :: id in rows && RouteOf(read, rows[id]) == route
  }

  /** A stored intent is served: its app, service and port under its canonical address. */
  predicate ServesRow(read: Reading, served: map<string, Route>, d: Domain)
    requires read.canonical(d.name).Some?
  {
    var canonical := read.canonical(d.name).value;
    && canonical.address in served
    && var route := served[canonical.address];
       && route.name == canonical.address && route.https == canonical.https
       && route.appId == d.appId && route.service == d.service && route.port == d.port
  }

  /** Every stored intent is served, and nothing else is. */
  ghost predicate ServesExactly(read: Reading, rows: Rows, served: map<string, Route>)
    requires AllReadable(read, rows)
  {
    && |served| == |rows|
    && (forall id | id in rows :: ServesRow(read, served, rows[id]))
    && (forall name | name in served ::
          exists id :: id in rows && read.canonical(rows[id].name).value.address == name)
  }

  /** To serve an intent is to have its route. */
  lemma ServesRowIff(read: Reading, served: map<string, Route>, d: Domain)
    requires read.canonical(d.name).Some?
    ensures ServesRow(read, served, d) <==> Serves(served, RouteOf(read, d))
  {
  }

  /** What the router gets is exactly the stored intent, none of it lost. */
  lemma RouterHoldsIntent(read: Reading, rows: Rows, list: seq<Domain>, routes: seq<Route>)
    requires Coherent(read) && Rebuildable(read, rows) && forall id | id in rows :: rows[id].id == id
    requires ListsRows(list, rows) && RoutesOf(read, list, routes)
    ensures ServesExactly(read, rows, ByDomain(routes))
  {
    RouteNamesDiffer(read, rows, list, routes);
    ByDomainHasAll(routes);
    ListHasAsMany(list, rows);
    var served := ByDomain(routes);
    forall id | id in rows ensures ServesRow(read, served, rows[id]) {
      assert rows[id] in list;
      var i :| 0 <= i < |list| && list[i] == rows[id];
      assert routes[i].name in served;
    }
    forall name | name in served
      ensures exists id :: id in rows && read.canonical(rows[id].name).value.address == name
    {
      var i :| 0 <= i < |routes| && routes[i].name == name;
      assert list[i].id in rows && rows[list[i].id] == list[i];
    }
  }

  lemma {:induction false} ListHasAsMany(list: seq<Domain>, rows: Rows)
    requires ListsRows(list, rows) && forall id | id in rows :: rows[id].id == id
    ensures |list| == |rows|
    decreases |list|
  {
    if list == [] {
      assert rows == map[];
    } else {
      var last := list[|list| - 1];
      var less := rows - {last.id};
      RestIsListed(list, rows);
      ListHasAsMany(list[..|list| - 1], less);
      assert rows.Keys == less.Keys + {last.id};
    }
  }

  lemma RestIsListed(list: seq<Domain>, rows: Rows)
    requires ListsRows(list, rows) && list != [] && forall id | id in rows :: rows[id].id == id
    ensures ListsRows(list[..|list| - 1], rows - {list[|list| - 1].id})
  {
    var init, last := list[..|list| - 1], list[|list| - 1];
    forall id | id in rows && id != last.id ensures rows[id] in init {
      var i :| 0 <= i < |list| && list[i] == rows[id];
      assert init[i] == rows[id];
    }
  }

  // ---------- recorded failures ----------

  datatype RouteOperation = AttachRoute | DetachRoute

  datatype FailureKey = FailureKey(appId: string, name: string)

  /** A change that is stored but not active. */
  datatype Failure = Failure(service: string, port: int, https: bool, operation: RouteOperation)

  type Failures = map<FailureKey, Failure>

  /** Removing an app takes its recorded failures along. */
  function ForgetApps(failures: Failures, apps: set<string>): Failures {
    map key | key in failures && key.appId !in apps :: failures[key]
  }

  /** A failure is on record for the app and the public address. */
  ghost predicate OnRecord(read: Reading, failures: Failures, appId: string, name: string) {
    exists key :: key in failures && key.appId == appId && read.key(key.name) == read.key(name)
  }

  /**
   Every difference between the stored intents and what Caddy serves is on record: an intent
   that is not served, and what is served for an app without being intended.
  */
  ghost predicate Accounted(
    read: Reading, apps: set<string>, rows: Rows, failures: Failures, served: map<string, Route>
  )
    requires AllReadable(read, rows)
  {
    && (forall id | id in rows ::
          || Serves(served, RouteOf(read, rows[id]))
          || OnRecord(read, failures, rows[id].appId, rows[id].name))
    && (forall name | name in served && served[name].appId in apps ::
          || IsIntended(read, rows, served[name])
          || OnRecord(read, failures, served[name].appId, name))
    && (forall name | name in served :: served[name].name == name)
  }

  lemma OnRecordStays(
    read: Reading, failures: Failures, gone: set<string>, appId: string, name: string
  )
    requires OnRecord(read, failures, appId, name) && appId !in gone
    ensures OnRecord(read, ForgetApps(failures, gone), appId, name)
  {
    var key :| key in failures && key.appId == appId && read.key(key.name) == read.key(name);
    assert key in ForgetApps(failures, gone);
  }

  lemma IntentStays(read: Reading, rows: Rows, gone: set<string>, route: Route)
    requires AllReadable(read, rows) && route.appId !in gone
    ensures IsIntended(read, rows, route) ==> IsIntended(read, WithoutApps(rows, gone), route)
  {
    forall id | id in rows && RouteOf(read, rows[id]) == route ensures id in WithoutApps(rows, gone) {
    }
  }

  /** Removing apps leaves nothing unaccounted for. */
  lemma RemovalIsAccounted(
    read: Reading, apps: set<string>, rows: Rows, failures: Failures, served: map<string, Route>, gone: set<string>
  )
    requires AllReadable(read, rows) && Accounted(read, apps, rows, failures, served)
    ensures Accounted(read, apps - gone, WithoutApps(rows, gone), ForgetApps(failures, gone), served)
  {
    var less := WithoutApps(rows, gone);
    forall id | id in less && !Serves(served, RouteOf(read, less[id]))
      ensures OnRecord(read, ForgetApps(failures, gone), less[id].appId, less[id].name)
    {
      OnRecordStays(read, failures, gone, less[id].appId, less[id].name);
    }
    forall name | name in served && served[name].appId in apps - gone && !IsIntended(read, less, served[name])
      ensures OnRecord(read, ForgetApps(failures, gone), served[name].appId, name)
    {
      IntentStays(read, rows, gone, served[name]);
      OnRecordStays(read, failures, gone, served[name].appId, name);
    }
  }

  /** Once exactly the stored intents are served, there is nothing to account for. */
  lemma ServedIsAccounted(
    read: Reading, apps: set<string>, rows: Rows, failures: Failures, served: map<string, Route>
  )
    requires AllReadable(read, rows) && ServesExactly(read, rows, served)
    ensures Accounted(read, apps, rows, failures, served)
  {
    forall id | id in rows ensures Serves(served, RouteOf(read, rows[id])) {
      ServesRowIff(read, served, rows[id]);
    }
    forall name | name in served ensures served[name].name == name && IsIntended(read, rows, served[name]) {
      var id :| id in rows && read.canonical(rows[id].name).value.address == name;
      ServesRowIff(read, served, rows[id]);
      assert RouteOf(read, rows[id]) == served[name];
    }
  }

  /** What a change of one public address of one app leaves alone. */
  ghost predicate ChangesOnly(read: Reading, before: Rows, after: Rows, appId: string, name: string) {
    && (forall id | id in after ::
          || (id in before && after[id] == before[id])
          || (after[id].appId == appId && read.key(after[id].name) == read.key(name)))
    && (forall id | id in before ::
          || (id in after && after[id] == before[id])
          || (before[id].appId == appId && read.key(before[id].name) == read.key(name)))
  }

  lemma WriteChangesOnly(read: Reading, rows: Rows, d: Domain, gone: set<string>, later: set<string>)
    requires RowsOk(read, rows) && RowOk(read, d.id, d)
    requires IsAvailable(read, rows, d.appId, read.key(d.name).value, d.id)
    ensures ChangesOnly(
              read, WithoutApps(WithoutApps(rows, gone), later), Written(rows, d, gone, later), d.appId, d.name)
  {
    var key := read.key(d.name).value;
    assert (forall other :: !HasKey(read, rows, other, key)) && d.id in rows ==> Bound(read, d.id, rows[d.id]);
  }

  lemma DetachmentChangesOnly(
    read: Reading, rows: Rows, appId: string, name: string, address: string, gone: set<string>, later: set<string>
  )
    requires read.key(address) == read.key(name)
    ensures ChangesOnly(
              read, WithoutApps(WithoutApps(rows, gone), later),
              WithoutApps(WithoutApps(Detached(read, rows, appId, name), gone), later), appId, address)
  {
  }

  /** A change that could not be made active is accounted for once its failure is recorded. */
  lemma FailureIsAccounted(
    read: Reading, apps: set<string>, before: Rows, after: Rows, failures: Failures, served: map<string, Route>,
    key: FailureKey, failure: Failure
  )
    requires Coherent(read) && AllReadable(read, before) && AllReadable(read, after)
    requires Accounted(read, apps, before, failures, served)
    requires ChangesOnly(read, before, after, key.appId, key.name)
    ensures Accounted(read, apps, after, failures[key := failure], served)
  {
  }
}
