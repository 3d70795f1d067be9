/** What the reservation transaction decides and does, in every state the protocol reaches. */
module Reservations {
  import opened Tables
  import opened Results
  import opened PushProtocol
  import opened PushInvariant
  import opened PushSteps
  import opened PushTheorems
  import Logs = DeploymentLogs

  /** The app has nothing to do, or only a reservation Git never accepted that a push may take the place of. */
  ghost predicate IsFree(c: Core, m: Deployment, expected: string) {
    forall id | id in Active(c.t, m.appId) ::
      && m.trigger == Push && c.t.deployments[id].trigger == Push && c.t.deployments[id].status == Pending
      && id !in c.accepted && c.t.deployments[id].commit != expected
  }

  ghost predicate IsFresh(t: Tables, m: Deployment) {
    m.id !in t.deployments && m.id !in t.logs
  }

  lemma ReplaceableIff(c: Core, m: Deployment, expected: string, id: Id)
    requires RowsOk(c) && IsReservation(m, m.trigger) && id in Active(c.t, m.appId)
    requires m.trigger == Push ==> IsOldId(c, m.appId, expected)
    ensures MayReplace(c.t, id, m, expected) <==>
      && m.trigger == Push && c.t.deployments[id].trigger == Push && c.t.deployments[id].status == Pending
      && id !in c.accepted && c.t.deployments[id].commit != expected
  {
    assert RowOk(c, id);
  }

  /**
   A reservation goes through exactly if its app exists and is free: an active attempt blocks
   it unless it is a pending push that Git never accepted and that is not what main points at.
  */
  lemma ReservedIff(calls: seq<Call>, m: Deployment, expected: string)
    requires Runs(INITIAL, calls) && IsReservation(m, m.trigger) && IsFresh(After(INITIAL, calls).c.t, m)
    requires m.trigger == Push ==> IsOldId(After(INITIAL, calls).c, m.appId, expected)
    ensures var c := After(INITIAL, calls).c;
            Reserve(c.t, m, expected).Ok? <==> m.appId in c.t.apps && IsFree(c, m, expected)
  {
    var w := Reached(calls);
    ActiveIsOne(w.c, m.appId);
    FreshDoesNotCollide(w.c, m);
    var active := Active(w.c.t, m.appId);
    if active != {} {
      var id := Oldest(w.c.t, active);
      ReplaceableIff(w.c, m, expected, id);
      FreshDoesNotCollide(w.c.(t := Discard(w.c.t, id)), m);
    }
  }

  lemma ActiveIsOne(c: Core, appId: string)
    requires OneActive(c.t)
    ensures forall a, b | a in Active(c.t, appId) && b in Active(c.t, appId) :: a == b
  {
  }

  lemma FreshDoesNotCollide(c: Core, m: Deployment)
    requires IsFresh(c.t, m) && forall e | e in c.t.events && e.deployment == m.id :: e.kind != Queued
    ensures !Collides(c.t, m)
  {
  }

  /**
   Afterwards the new attempt is the only active one of its app; it has an empty log, and is queued
   at once if it is a redeploy.
  */
  lemma ReservationTakesOver(c: Core, m: Deployment, expected: string, t': Tables)
    requires RowsOk(c) && IsReservation(m, m.trigger) && m.id !in c.t.deployments && ClockAhead(c.t, m)
    requires m.trigger == Push ==> IsOldId(c, m.appId, expected)
    requires Reserve(c.t, m, expected) == Ok(t')
    ensures Active(t', m.appId) == {m.id} && t'.deployments[m.id] == m
    ensures m.id in t'.logs && t'.logs[m.id] == LogRow(m.appId, Logs.EMPTY, m.startedAt)
    ensures t'.apps == c.t.apps[m.appId := AppDeploying] && t'.releases == c.t.releases
    ensures Event(m.id, Queued) in t'.events <==> m.trigger == Redeploy
    ensures forall id | id in c.t.deployments && id !in Active(c.t, m.appId) ::
            id in t'.deployments && t'.deployments[id] == c.t.deployments[id]
  {
    var gone := ReserveShape(c.t, m, expected, t');
    var cleared := ReserveClears(c.t, m, expected, gone, t');
    NewestIsRetained(cleared, m);
    assert forall id | id in t'.deployments && id != m.id ::
      id in c.t.deployments && t'.deployments[id] == c.t.deployments[id];
    assert m.id in Active(t', m.appId);
  }
}
