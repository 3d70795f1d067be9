/** What the daemon does with attempts an earlier daemon left deploying. */
module DaemonRestart {
  import opened Tables
  import opened Executor
  import opened SqliteStores
  import opened DeploymentExecutors
  import Ordering

  /** Finalize the listed attempts in turn; the first one that cannot be recorded in full ends the pass. */
  ghost function FinalizeAll(t: Tables, rows: seq<Deployment>, os: seq<Outcomes>): (Tables, bool)
    requires |os| == |rows|
    decreases |rows|
  {
    if rows == [] then (t, true)
    else
      var (t1, x1) := RunOn(t, StartInterrupted(rows[0], os[0]));
      if x1.error then (t1, false) else FinalizeAll(t1, rows[1..], os[1..])
  }

  /** Started once per daemon; an error keeps the daemon from coming up. `more` are the outcomes to come. */
  method RecoverInterruptedDeployments(
    store: SqliteStore, up: bool, more: nat -> Outcomes
  ) returns (ok: bool, ghost rows: seq<Deployment>)
    requires store.Valid()
    modifies store
    ensures store.Valid()
    ensures !up ==> !ok && store.Rows() == old(store.Rows())
    ensures up ==>
      && ListsRows(old(store.Rows()), rows, WithStatus(old(store.Rows()), Deploying))
      && (store.Rows(), ok) == FinalizeAll(old(store.Rows()), rows, seq(|rows|, i requires 0 <= i => more(i)))
  {
    rows := [];
    if !up {
      return false, rows;
    }
    var listed := store.ListDeploymentsByStatus(Deploying);
    rows := listed;
    ghost var os := seq(|rows|, i requires 0 <= i => more(i));
    var executor := new DeploymentExecutor(store);
    var i := 0;
    while i < |listed|
      invariant i <= |listed| && store.Valid()
      invariant FinalizeAll(old(store.Rows()), listed, os) == FinalizeAll(store.Rows(), listed[i..], os[i..])
    {
      assert listed[i] == old(store.deployments)[listed[i].id];
      assert listed[i..][1..] == listed[i + 1..] && os[i..][1..] == os[i + 1..];
      var failed := executor.FailInterrupted(listed[i], more(i));
      if failed {
        return false, rows;
      }
      i := i + 1;
    }
    ok := true;
  }

  /** The status write of an interrupted attempt lands once its release was loaded. */
  predicate Lands(o: Outcomes) {
    o.loadRelease && o.failStatus
  }

  /**
   Finalizing one attempt touches no other row. If its status write lands it is failed, no
   matter which other record could not be written: a failed event already there is an error
   that does not stop it.
  */
  lemma InterruptedEnds(t: Tables, d: Deployment, o: Outcomes)
    requires d.id in t.deployments
    ensures var (t', x') := RunOn(t, StartInterrupted(d, o));
      && t'.deployments == (if Lands(o)
                            then Ended(t, d.id, Failed, FailedAt(StageRestart))
                            else t.deployments)
      && (!Lands(o) ==> x'.error)
  {
    var x := StartInterrupted(d, o);
    Steps(t, x);
    var s := DecideBad(t, x);
    if o.loadRelease {
      BadEndsFailed(t, s.next);
      if !o.failStatus {
        LosingStatusIsAnError(t, s.next);
      }
    } else {
      Stops(t, s.next);
    }
  }

  lemma {:induction false} LosingStatusIsAnError(t: Tables, x: Exec)
    requires x.pc.Bad? && x.pc.f != LoadInterrupted && !x.o.failStatus
    ensures RunOn(t, x).1.error
    decreases Rank(x.pc)
  {
    var s := DecideBad(t, x);
    StepProgresses(t, x);
    if x.pc.f == FailStatus {
      Stops(t, s.next);
    } else {
      BadStep(t, x);
      LosingStatusIsAnError(Apply(t, s.write), s.next);
    }
  }

  lemma InterruptedShrinks(t: Tables, d: Deployment, o: Outcomes)
    requires d.id in t.deployments
    ensures WithStatus(RunOn(t, StartInterrupted(d, o)).0, Deploying) ==
            WithStatus(t, Deploying) - (if Lands(o) then {d.id} else {})
    ensures RunOn(t, StartInterrupted(d, o)).0.deployments.Keys == t.deployments.Keys
  {
    InterruptedEnds(t, d, o);
  }

  /**
   A pass over rows that are there never adds to the deploying attempts; it goes on only past
   attempts it finalized; and one status write that lands for the first row removes that row,
   whether or not the pass reports an error.
  */
  lemma {:induction false} PassShrinks(t: Tables, rows: seq<Deployment>, os: seq<Outcomes>)
    requires |os| == |rows| && forall i | 0 <= i < |rows| :: rows[i].id in t.deployments
    ensures var (t', ok) := FinalizeAll(t, rows, os);
      && WithStatus(t', Deploying) <= WithStatus(t, Deploying)
      && (rows != [] && Lands(os[0]) ==> rows[0].id !in WithStatus(t', Deploying))
      && (ok ==> forall i | 0 <= i < |rows| :: rows[i].id !in WithStatus(t', Deploying))
    decreases |rows|
  {
    if rows != [] {
      var (t1, x1) := RunOn(t, StartInterrupted(rows[0], os[0]));
      InterruptedEnds(t, rows[0], os[0]);
      InterruptedShrinks(t, rows[0], os[0]);
      if !x1.error {
        PassShrinks(t1, rows[1..], os[1..]);
        var t' := FinalizeAll(t, rows, os).0;
        forall i | 0 <= i < |rows| ensures FinalizeAll(t, rows, os).1 ==> rows[i].id !in WithStatus(t', Deploying) {
          if i > 0 {
            assert rows[i] == rows[1..][i - 1];
          }
        }
      }
    }
  }

  /** One start of the daemon, with every release loaded and every status write landing. */
  ghost predicate Restarts(t: Tables, t': Tables) {
    exists rows: seq<Deployment>, os: seq<Outcomes> | |os| == |rows| && ListsRows(t, rows, WithStatus(t, Deploying)) ::
      t' == FinalizeAll(t, rows, os).0 && forall i | 0 <= i < |os| :: Lands(os[i])
  }

  lemma RestartShrinks(t: Tables, t': Tables)
    requires Schema(t) && Restarts(t, t')
    ensures WithStatus(t', Deploying) <= WithStatus(t, Deploying)
    ensures WithStatus(t, Deploying) != {} ==> WithStatus(t', Deploying) != WithStatus(t, Deploying)
  {
    var rows: seq<Deployment>, os: seq<Outcomes> :| |os| == |rows| && ListsRows(t, rows, WithStatus(t, Deploying))
      && t' == FinalizeAll(t, rows, os).0 && forall i | 0 <= i < |os| :: Lands(os[i]);
    PassShrinks(t, rows, os);
    if WithStatus(t, Deploying) != {} {
      var id :| id in WithStatus(t, Deploying);
      assert t.deployments[id] in rows;
      assert rows[0].id in WithStatus(t, Deploying);
    }
  }

  function LeftAfter(n: nat, passes: nat): nat {
    if n <= passes then 0 else n - passes
  }

  /** However often recording fails along the way, as many restarts as attempts were left behind clear them all. */
  lemma {:induction false} RestartsClear(ts: seq<Tables>)
    requires ts != [] && forall i | 0 <= i < |ts| :: Schema(ts[i])
    requires forall i | 0 <= i < |ts| - 1 :: Restarts(ts[i], ts[i + 1])
    ensures |WithStatus(ts[|ts| - 1], Deploying)| <= LeftAfter(|WithStatus(ts[0], Deploying)|, |ts| - 1)
  {
    if |ts| > 1 {
      RestartCounts(ts[0], ts[1]);
      var rest := ts[1..];
      forall i | 0 <= i < |rest| - 1 ensures Restarts(rest[i], rest[i + 1]) {
        assert Restarts(ts[i + 1], ts[i + 2]);
      }
      RestartsClear(rest);
      assert rest[|rest| - 1] == ts[|ts| - 1];
    }
  }

  lemma RestartCounts(t: Tables, t': Tables)
    requires Schema(t) && Restarts(t, t')
    ensures var n := |WithStatus(t, Deploying)|; |WithStatus(t', Deploying)| <= if n == 0 then 0 else n - 1
  {
    RestartShrinks(t, t');
    if WithStatus(t, Deploying) != {} {
      Ordering.ProperSubsetSize(WithStatus(t', Deploying), WithStatus(t, Deploying));
    } else {
      assert WithStatus(t', Deploying) == {};
    }
  }
}
