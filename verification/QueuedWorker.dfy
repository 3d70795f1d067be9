/** One round of the worker: recover, claim the oldest queued attempt, execute it. */
module QueuedWorker {
  import opened Tables
  import opened Executor
  import opened Outcome
  import opened ExecutionTables
  import opened SqliteStores
  import opened DeploymentExecutors
  import opened PendingRecovery

  /** What a round does to the rows, and whether it reports an error. */
  ghost function Round(t: Tables, s: Surroundings, ro: RoundOutcomes, claim: bool, o: Outcomes): (Tables, bool)
    requires Schema(t)
  {
    var (recovered, ok) := RecoverAll(t, s, ro);
    if !claim then (recovered, true)
    else if Claimable(recovered) == {} then (recovered, !ok)
    else
      var claimed := Claimed(recovered, Oldest(recovered, Claimable(recovered)));
      var d := claimed.deployments[Oldest(recovered, Claimable(recovered))];
      if !HasNames(d) then (claimed, true)
      else (RunOn(claimed, Start(d, o)).0, !ok || RunOn(claimed, Start(d, o)).1.error)
  }

  /** Recover, claim the oldest queued attempt, execute it; `claim` says whether the claim goes through. */
  method RunOne(
    store: SqliteStore, executor: DeploymentExecutor, s: Surroundings, ro: RoundOutcomes, claim: bool, o: Outcomes
  ) returns (worked: bool, failed: bool)
    requires store.Valid() && executor.store == store
    modifies store
    ensures store.Valid()
    ensures (store.Rows(), failed) == Round(old(store.Rows()), s, ro, claim, o)
    ensures worked <==> claim && Claimable(RecoverAll(old(store.Rows()), s, ro).0) != {}
    ensures !worked ==>
      var (recovered, ok) := RecoverAll(old(store.Rows()), s, ro);
      store.Rows() == recovered && (failed <==> !claim || !ok)
  {
    var recovered := RecoverPending(store, s, ro);
    if !claim {
      return false, true;
    }
    var claimed := store.ClaimNextPendingDeployment();
    if claimed.None? {
      return false, !recovered;
    }
    assert claimed.value.status == Deploying;
    var error := executor.Execute(claimed.value, o);
    worked, failed := true, error || !recovered;
  }

  /**
   A round that has something to claim and whose status write lands leaves the oldest queued
   attempt over, succeeded exactly if everything up to Compose went through, and all other
   attempts alone. It reports no error exactly if recovery did not and every outcome was recorded.
  */
  lemma RoundEndsAttempt(t: Tables, s: Surroundings, ro: RoundOutcomes, o: Outcomes)
    requires Schema(t) && Claimable(RecoverAll(t, s, ro).0) != {}
    requires var t1 := RecoverAll(t, s, ro).0; HasNames(t1.deployments[Oldest(t1, Claimable(t1))])
    ensures var t1 := RecoverAll(t, s, ro).0;
            var id := Oldest(t1, Claimable(t1));
            var d := Claimed(t1, id).deployments[id];
            var (t', failed) := Round(t, s, ro, true, o);
      && t'.deployments.Keys == t.deployments.Keys && id in t.deployments
      && (StatusLands(t1, d, o) ==> t'.deployments[id].status == if Deploys(t1, d, o) then Succeeded else Failed)
      && (!StatusLands(t1, d, o) ==> t'.deployments[id].status == Deploying)
      && (!failed <==> RecoverAll(t, s, ro).1 && Deploys(t1, d, o) && Records(t1, d, o))
      && (forall other | other in t.deployments && other != id :: t'.deployments[other] == t.deployments[other])
  {
    var t1 := RecoverAll(t, s, ro).0;
    var ids := RecoversUndisturbed(t, s, ro);
    ClaimedEnds(t1, Oldest(t1, Claimable(t1)), o);
  }

  /** All tables after a round that has something to claim: those after recovery, claim and execution. */
  lemma RoundLeaves(t: Tables, s: Surroundings, ro: RoundOutcomes, o: Outcomes)
    requires Schema(t) && Claimable(RecoverAll(t, s, ro).0) != {}
    requires var t1 := RecoverAll(t, s, ro).0; HasNames(t1.deployments[Oldest(t1, Claimable(t1))])
    ensures var t1 := RecoverAll(t, s, ro).0;
            var id := Oldest(t1, Claimable(t1));
            var claimed := Claimed(t1, id);
            Round(t, s, ro, true, o).0 == Executed(claimed, claimed.deployments[id], o)
  {
    var t1 := RecoverAll(t, s, ro).0;
    var id := Oldest(t1, Claimable(t1));
    ExecutionLeaves(Claimed(t1, id), Claimed(t1, id).deployments[id], o);
  }

  lemma ClaimedEnds(t: Tables, id: Id, o: Outcomes)
    requires Schema(t) && id in Claimable(t)
    ensures var d := Claimed(t, id).deployments[id];
            var (t', x') := RunOn(Claimed(t, id), Start(d, o));
      && t'.deployments.Keys == t.deployments.Keys
      && (StatusLands(t, d, o) ==> t'.deployments[id].status == if Deploys(t, d, o) then Succeeded else Failed)
      && (!StatusLands(t, d, o) ==> t'.deployments[id].status == Deploying)
      && (!x'.error <==> Deploys(t, d, o) && Records(t, d, o))
      && (forall other | other in t.deployments && other != id :: t'.deployments[other] == t.deployments[other])
  {
    var d := Claimed(t, id).deployments[id];
    assert d.id == id;
    assert Deploys(Claimed(t, id), d, o) <==> Deploys(t, d, o);
    ExecutionEnds(Claimed(t, id), d, o);
  }
}
