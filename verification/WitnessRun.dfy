/**
 A run from the empty system in which two redeploys are reserved, the first is executed up to
 its status write, that write fails, and the second is claimed beside it.
*/
module WitnessRun {
  import opened Tables
  import opened Timestamps
  import opened Executor
  import opened Outcome
  import opened PushProtocol
  import opened PushInvariant
  import opened PushSteps
  import opened PushSafety
  import opened PushTheorems

  const FIRST_SECOND: Instant := Civil(2026, 1, 1, 0, 0, 1, 0)
  const NEXT_SECOND: Instant := Civil(2026, 1, 1, 0, 0, 2, 0)

  const FIRST := Deployment(1, "a", "r", "c", Redeploy, Pending, FIRST_SECOND, NoMessage)
  const SECOND := Deployment(2, "b", "s", "c", Redeploy, Pending, NEXT_SECOND, NoMessage)

  /** Everything goes through but the status write of a success. */
  const ALMOST := Outcomes(
    true, true, true, true, true, true, true, true, true, [], true, true, true,
    true, true, true, true, false, true, true, true, true, true, "", "")

  // ---------- executing up to the status write ----------

  /** Execution steps lead to the status write of a success, and leave what is queued as it is. */
  lemma {:induction false} LeadsToStatus(w: World) returns (calls: seq<Call>)
    requires Inv(w) && w.daemon.Executing? && Marks(w.daemon.x)
    requires w.daemon.x.pc.Good? || (!w.daemon.x.pc.Bad? && WillDeploy(w.c.t, w.daemon.x))
    ensures Runs(w, calls) && Inv(After(w, calls))
    ensures var w' := After(w, calls);
      && w'.daemon.Executing? && w'.daemon.x.pc == Good(OkStatus) && w'.daemon.x.o == w.daemon.x.o
      && Claimable(w.c.t) <= Claimable(w'.c.t)
    decreases Rank(w.daemon.x.pc), Unwritten(w.daemon.x)
  {
    var x := w.daemon.x;
    if x.pc == Good(OkStatus) {
      calls := [];
    } else {
      var w1 := Do(w, ExecuteStep);
      ExecuteOnce(w);
      StepKeepsInv(w, ExecuteStep);
      StepsTowardsStatus(w.c.t, x);
      PerformRows(w.c, x);
      PerformRunning(w.c, x);
      var rest := LeadsToStatus(w1);
      RunsFirst(w, ExecuteStep, rest);
      calls := [ExecuteStep] + rest;
    }
  }

  lemma StepsTowardsStatus(t: Tables, x: Exec)
    requires x.pc != Done && x.pc != Good(OkStatus) && Marks(x)
    requires x.pc.Good? || (!x.pc.Bad? && WillDeploy(t, x))
    ensures var s := Decide(t, x);
      && s.next.pc != Done && Marks(s.next) && Progress(x, s.next)
      && (s.next.pc.Good? || (!s.next.pc.Bad? && WillDeploy(Apply(t, s.write), s.next)))
  {
    StepProgresses(t, x);
    match x.pc
    case Begin(_) => BeginStepsAhead(t, x); EarlyStep(t, x);
    case Run(_) => RunStepsAhead(t, x);
    case Good(_) =>
  }

  // ---------- getting there ----------

  /** A redeploy of an app without attempts is admitted. */
  lemma Reserves(w: World, m: Deployment)
    requires Inv(w) && m.trigger == Redeploy && m.id !in w.c.t.deployments && m.appId in w.c.t.apps
    requires IsReservation(m, Redeploy) && m.id !in w.c.t.logs && Active(w.c.t, m.appId) == {} && ClockAhead(w.c.t, m)
    ensures Enabled(w, ReserveRedeploy(m))
    ensures var w' := Do(w, ReserveRedeploy(m));
      && w'.locks == w.locks && w'.daemon == w.daemon && w'.lost == w.lost
      && w'.c.t.deployments == w.c.t.deployments[m.id := m] && w'.c.t.apps == w.c.t.apps[m.appId := AppDeploying]
      && w'.c.t.events == w.c.t.events + {Event(m.id, Queued)} && w'.c.t.releases == w.c.t.releases
      && w'.c.t.logs.Keys <= w.c.t.logs.Keys + {m.id}
      && (forall id | id in w'.c.t.logs && id != m.id :: w'.c.t.logs[id] == w.c.t.logs[id])
      && (m.id in w'.c.t.logs ==> w'.c.t.logs[m.id].appId == m.appId)
  {
    assert Event(m.id, Queued) !in w.c.t.events;
    assert Reserve(w.c.t, m, "") == Admit(w.c.t, m);
  }

  ghost predicate TwoQueued(t: Tables) {
    && t.deployments == map[1 := FIRST, 2 := SECOND]
    && t.events == {Event(1, Queued), Event(2, Queued)} && t.releases == map[] && "a" in t.apps
  }

  lemma OpensTwo() returns (w: World)
    ensures Runs(INITIAL, [OpenReceive("a"), OpenReceive("b")])
    ensures w == After(INITIAL, [OpenReceive("a"), OpenReceive("b")]) && Inv(w) && w.daemon == Down
    ensures w.c.t == Tables(map["a" := AppCreated, "b" := AppCreated], map[], map[], {}, map[])
  {
    InitialInv();
    var w1 := Do(INITIAL, OpenReceive("a"));
    StepKeepsInv(INITIAL, OpenReceive("a"));
    AfterTwo(INITIAL, OpenReceive("a"), OpenReceive("b"));
    w := Do(w1, OpenReceive("b"));
    StepKeepsInv(w1, OpenReceive("b"));
  }

  ghost predicate OneQueued(t: Tables) {
    && t.deployments == map[1 := FIRST] && t.events == {Event(1, Queued)} && t.releases == map[]
    && "a" in t.apps && "b" in t.apps
    && forall id | id in t.logs :: id == 1 && t.logs[id].appId == "a"
  }

  lemma ReservesFirst(w: World) returns (w': World)
    requires Inv(w) && w.daemon == Down
    requires w.c.t == Tables(map["a" := AppCreated, "b" := AppCreated], map[], map[], {}, map[])
    ensures Enabled(w, ReserveRedeploy(FIRST)) && w' == Do(w, ReserveRedeploy(FIRST))
    ensures Inv(w') && w'.daemon == Down && OneQueued(w'.c.t)
  {
    Reserves(w, FIRST);
    w' := Do(w, ReserveRedeploy(FIRST));
    StepKeepsInv(w, ReserveRedeploy(FIRST));
  }

  lemma ReservesSecond(w: World) returns (w': World)
    requires Inv(w) && w.daemon == Down && OneQueued(w.c.t)
    ensures Enabled(w, ReserveRedeploy(SECOND)) && w' == Do(w, ReserveRedeploy(SECOND))
    ensures Inv(w') && w'.daemon == Down && TwoQueued(w'.c.t)
  {
    Reserves(w, SECOND);
    w' := Do(w, ReserveRedeploy(SECOND));
    StepKeepsInv(w, ReserveRedeploy(SECOND));
  }

  lemma ReservesTwo() returns (w: World, calls: seq<Call>)
    ensures Runs(INITIAL, calls) && w == After(INITIAL, calls) && Inv(w) && w.daemon == Down && TwoQueued(w.c.t)
  {
    var w0 := OpensTwo();
    var w1 := ReservesFirst(w0);
    w := ReservesSecond(w1);
    AfterTwo(w0, ReserveRedeploy(FIRST), ReserveRedeploy(SECOND));
    var open := [OpenReceive("a"), OpenReceive("b")];
    var reserve := [ReserveRedeploy(FIRST), ReserveRedeploy(SECOND)];
    RunsJoin(INITIAL, open, reserve);
    calls := open + reserve;
  }

  lemma BootsIdle(w: World) returns (w': World)
    requires Inv(w) && w.daemon == Down && TwoQueued(w.c.t)
    ensures Runs(w, [Boot([]), RestartDone]) && w' == After(w, [Boot([]), RestartDone])
    ensures Inv(w') && w'.c == w.c && w'.daemon == Idle
  {
    assert WithStatus(w.c.t, Deploying) == {};
    var w1 := Do(w, Boot([]));
    StepKeepsInv(w, Boot([]));
    AfterTwo(w, Boot([]), RestartDone);
    w' := Do(w1, RestartDone);
    StepKeepsInv(w1, RestartDone);
  }

  lemma FirstIsOldest(t: Tables)
    requires TwoQueued(t)
    ensures 2 in Claimable(t) && Claimable(t) != {} && Oldest(t, Claimable(t)) == 1
  {
    assert 1 in Claimable(t) && 2 in Claimable(t);
    assert Before(t, 1, 2);
    KeyOrdersAreTotal();
  }

  lemma FirstDeploys(t: Tables)
    requires TwoQueued(t)
    ensures var claimed := Claimed(t, 1);
            WillDeploy(claimed, Start(claimed.deployments[1], ALMOST)) && 2 in Claimable(claimed)
  {
    var claimed := Claimed(t, 1);
    var d := claimed.deployments[1];
    assert claimed.releases == map[];
    assert Deploys(claimed, d, ALMOST);
    StartWillDeploy(claimed, d, ALMOST);
  }

  /** The first attempt is claimed, the second stays queued, and the execution will get past Compose. */
  lemma ClaimsFirst(w: World) returns (w': World)
    requires Inv(w) && w.daemon == Idle && TwoQueued(w.c.t)
    ensures Enabled(w, Claim(ALMOST)) && w' == Do(w, Claim(ALMOST)) && Inv(w')
    ensures w'.daemon.Executing? && w'.daemon.x.pc == Begin(LoadApp) && w'.daemon.x.o == ALMOST
    ensures WillDeploy(w'.c.t, w'.daemon.x) && 2 in Claimable(w'.c.t)
  {
    FirstIsOldest(w.c.t);
    FirstDeploys(w.c.t);
    StepKeepsInv(w, Claim(ALMOST));
    w' := DoClaim(w, ALMOST);
  }

  /** A reachable state in which the final status write of one attempt fails while another one is queued. */
  lemma StatusCanBeLost() returns (calls: seq<Call>)
    ensures Runs(INITIAL, calls) && LosesStatus(After(INITIAL, calls)) && Claimable(After(INITIAL, calls).c.t) != {}
  {
    var w0, reserved := ReservesTwo();
    var w1 := BootsIdle(w0);
    var w2 := ClaimsFirst(w1);
    var executed := LeadsToStatus(w2);
    var start := [Boot([]), RestartDone];
    RunsFirst(w1, Claim(ALMOST), executed);
    RunsJoin(w0, start, [Claim(ALMOST)] + executed);
    RunsJoin(INITIAL, reserved, start + ([Claim(ALMOST)] + executed));
    calls := reserved + (start + ([Claim(ALMOST)] + executed));
  }

  /** So two attempts can be deploying at once. */
  lemma TwoCanBeDeploying() returns (calls: seq<Call>)
    ensures Runs(INITIAL, calls) && |WithStatus(After(INITIAL, calls).c.t, Deploying)| >= 2
  {
    var before := StatusCanBeLost();
    LostStatusLeavesTwoDeploying(before, ALMOST);
    RunsJoin(INITIAL, before, [ExecuteStep, Claim(ALMOST)]);
    calls := before + [ExecuteStep, Claim(ALMOST)];
  }
}
