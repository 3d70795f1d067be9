/**
 A client following the log of its attempt: it polls a log that others append to and copies
 what it has not written yet. Bytes are copied as they are.
*/
module DeploymentLogStream {
  import opened Tables
  import opened Results
  import opened PushProtocol
  import opened PushInvariant
  import opened PushSafety
  import opened PushTheorems

  /** What a poll could see: whether the attempt is active, and the content of its log if it still has one. */
  datatype Moment = Moment(active: bool, log: Option<string>)

  /** How two moments, the first one earlier, may differ. */
  predicate Leads(a: Moment, b: Moment) {
    && (b.log.Some? ==> a.log.Some? && a.log.value <= b.log.value)
    && (!a.active ==> !b.active && (b.log.Some? ==> b.log == a.log))
  }

  /** The moments of one attempt in the order they happened. */
  ghost predicate History(moments: seq<Moment>) {
    forall i, j | 0 <= i <= j < |moments| :: Leads(moments[i], moments[j])
  }

  /** What a write leaves behind: `None` takes everything, `Some(n)` fails after at most `n` bytes. */
  function Taken(fault: Option<nat>, text: string): string {
    match fault
    case None => text
    case Some(n) => if n < |text| then text[..n] else text
  }

  /** How the calls of a stream come out; beyond the listed ones they go through. */
  datatype StreamOutcomes = StreamOutcomes(load: seq<bool>, list: seq<bool>, write: seq<Option<nat>>)

  predicate Works(calls: seq<bool>, i: nat) {
    i >= |calls| || calls[i]
  }

  function Fault(o: StreamOutcomes, i: nat): Option<nat> {
    if i < |o.write| then o.write[i] else None
  }

  class DeploymentLogOutput {
    var text: string
    var written: nat

    constructor ()
      ensures text == "" && written == 0
    {
      text, written := "", 0;
    }

    /** The cursor counts the bytes of this log the client has. */
    ghost predicate Copies(log: Option<string>)
      reads this
    {
      (text == "" && written == 0) || (log.Some? && written <= |log.value| && text == log.value[..written])
    }

    /** Copy what is new; the cursor moves only when all of it was taken. */
    method Write(content: string, fault: Option<nat>) returns (ok: bool)
      requires written <= |content| ==> text == content[..written]
      modifies this
      ensures ok <==> |content| <= old(written) || fault.None?
      ensures old(text) <= text && (!ok ==> written == old(written))
      ensures old(written) <= |content| ==> text <= content && (ok ==> text == content && written == |content|)
      ensures old(written) > |content| ==> ok && text == old(text) && written == old(written)
    {
      if |content| <= written {
        return true;
      }
      text := text + Taken(fault, content[written..]);
      if fault.Some? {
        return false;
      }
      written := |content|;
      ok := true;
    }
  }

  /** No call of the stream fails, and the log is always there. */
  ghost predicate Undisturbed(moments: seq<Moment>, o: StreamOutcomes) {
    && (forall i: nat :: Works(o.load, i) && Works(o.list, i) && Fault(o, i).None?)
    && (forall m | m in moments :: m.log.Some?)
  }

  /**
   Follow the attempt. The store is read at the moments `times`, the log and the status in
   turn; after `waits` waits the caller gives up. On an error the client still has a prefix of
   the log; without one it has exactly the final log, every byte once and in order. If nothing
   goes wrong there is no error exactly if the attempt is seen to be over before giving up.
  */
  method Stream(
    moments: seq<Moment>, times: nat -> nat, waits: nat, follow: bool, o: StreamOutcomes, output: DeploymentLogOutput
  ) returns (ok: bool, ghost last: nat)
    requires History(moments) && moments != []
    requires forall i, j :: i <= j ==> times(i) <= times(j) < |moments|
    requires output.text == "" && output.written == 0
    modifies output
    ensures last < |moments|
    ensures output.text == "" || (moments[last].log.Some? && output.text <= moments[last].log.value)
    ensures ok && !follow ==> moments[last].log == Some(output.text)
    ensures ok && follow ==>
      && !moments[last].active && moments[last].log == Some(output.text)
      && forall j | last <= j < |moments| && moments[j].log.Some? :: moments[j].log == Some(output.text)
    ensures Undisturbed(moments, o) ==>
      (ok <==> !follow || exists k :: 0 <= k <= waits && !moments[times(2 * k + 1)].active)
  {
    var clock, waited := 0, 0;
    last := times(0);
    while true
      invariant waited <= waits && clock == 2 * waited
      invariant last < |moments| && last <= times(clock)
      invariant output.Copies(moments[last].log)
      invariant forall k | 0 <= k < waited :: follow && moments[times(2 * k + 1)].active
      decreases waits - waited
    {
      ok, last, clock := WriteLatest(moments, times, clock, last, o, output);
      if !ok || !follow {
        return ok, last;
      }
      var seen := moments[times(clock)];
      if !Works(o.list, clock) {
        return false, last;
      }
      clock := clock + 1;
      if !seen.active {
        ghost var stopped := times(clock - 1);
        ok, last, clock := WriteLatest(moments, times, clock, last, o, output);
        assert ok ==> Leads(moments[stopped], moments[last]);
        return ok, last;
      }
      if waited == waits {
        return false, last;
      }
      waited := waited + 1;
    }
  }

  method WriteLatest(
    moments: seq<Moment>, times: nat -> nat, clock: nat, ghost before: nat, o: StreamOutcomes,
    output: DeploymentLogOutput
  ) returns (ok: bool, ghost last: nat, next: nat)
    requires History(moments) && before < |moments|
    requires forall i, j :: i <= j ==> times(i) <= times(j) < |moments|
    requires before <= times(clock)
    requires output.Copies(moments[before].log)
    modifies output
    ensures next == clock + 1
    ensures last < |moments| && before <= last <= times(next)
    ensures output.text != "" ==> moments[last].log.Some? && output.text <= moments[last].log.value
    ensures ok <== Works(o.load, clock) && moments[times(clock)].log.Some? && Fault(o, clock).None?
    ensures ok ==> last == times(clock) && moments[last].log == Some(output.text) && output.written == |output.text|
  {
    last, next := before, clock + 1;
    if !Works(o.load, clock) || moments[times(clock)].log.None? {
      return false, last, next;
    }
    var content := moments[times(clock)].log.value;
    last := times(clock);
    assert Leads(moments[before], moments[last]);
    ok := output.Write(content, Fault(o, clock));
  }

  // ---------- the moments of a run ----------

  /** What the store tells about an attempt. */
  function Look(c: Core, id: Id): Moment
    requires id in c.t.deployments
  {
    var kept := id in c.t.logs && c.t.logs[id].appId == c.t.deployments[id].appId;
    Moment(IsActive(c.t.deployments[id]), if kept then Some(c.t.logs[id].log.content) else None)
  }

  lemma LeadsCompose(a: Moment, b: Moment, c: Moment)
    requires Leads(a, b) && Leads(b, c)
    ensures Leads(a, c)
  {
  }

  lemma TracksLead(c: Core, c': Core, id: Id)
    requires Tracks(c, c', id)
    ensures Leads(Look(c, id), Look(c', id))
  {
  }

  /** The moments between the steps of a run. */
  ghost function Moments(w: World, calls: seq<Call>, id: Id): seq<Moment>
    requires Inv(w) && Runs(w, calls) && Permanent(w.c, id)
    decreases |calls|
  {
    if calls == [] then [Look(w.c, id)]
    else
      StepTracks(w, calls[0], id);
      StepKeepsInv(w, calls[0]);
      [Look(w.c, id)] + Moments(Do(w, calls[0]), calls[1..], id)
  }

  lemma {:induction false} MomentsAreHistory(w: World, calls: seq<Call>, id: Id)
    requires Inv(w) && Runs(w, calls) && Permanent(w.c, id)
    ensures Moments(w, calls, id) != [] && Moments(w, calls, id)[0] == Look(w.c, id) && History(Moments(w, calls, id))
    decreases |calls|
  {
    if calls != [] {
      var w1 := Do(w, calls[0]);
      StepTracks(w, calls[0], id);
      StepKeepsInv(w, calls[0]);
      TracksLead(w.c, w1.c, id);
      MomentsAreHistory(w1, calls[1..], id);
      HistoryExtends(Look(w.c, id), Moments(w1, calls[1..], id));
    }
  }

  lemma HistoryExtends(first: Moment, rest: seq<Moment>)
    requires rest != [] && Leads(first, rest[0]) && History(rest)
    ensures History([first] + rest)
  {
    var all := [first] + rest;
    forall i, j | 0 <= i <= j < |all| ensures Leads(all[i], all[j]) {
      if i == 0 && j > 0 {
        LeadsCompose(first, rest[0], rest[j - 1]);
      }
    }
  }

  /** The last moment is what the store tells after the run. */
  ghost predicate EndsAt(w: World, calls: seq<Call>, id: Id)
    requires Inv(w) && Runs(w, calls) && Permanent(w.c, id)
  {
    var moments := Moments(w, calls, id);
    moments != [] && id in After(w, calls).c.t.deployments && moments[|moments| - 1] == Look(After(w, calls).c, id)
  }

  lemma {:induction false} MomentsEnd(w: World, calls: seq<Call>, id: Id)
    requires Inv(w) && Runs(w, calls) && Permanent(w.c, id)
    ensures EndsAt(w, calls, id)
    decreases |calls|
  {
    if calls != [] {
      StepTracks(w, calls[0], id);
      StepKeepsInv(w, calls[0]);
      MomentsEnd(Do(w, calls[0]), calls[1..], id);
    }
  }

  /**
   The whole statement: over any run of the protocol from a reachable state, with crashes,
   polls and appends in any order, a following client whose stream ends without an error has
   exactly the log its attempt is left with, as long as that log is kept.
  */
  method FollowRun(
    ghost w: World, ghost more: seq<Call>, ghost id: Id,
    moments: seq<Moment>, times: nat -> nat, waits: nat, o: StreamOutcomes, output: DeploymentLogOutput
  ) returns (ok: bool)
    requires Inv(w) && Runs(w, more) && Permanent(w.c, id) && moments == Moments(w, more, id)
    requires forall i, j :: i <= j ==> times(i) <= times(j) < |moments|
    requires output.text == "" && output.written == 0
    modifies output
    ensures ok ==>
      && EndsAt(w, more, id) && !IsActive(After(w, more).c.t.deployments[id])
      && (Look(After(w, more).c, id).log.Some? ==> Look(After(w, more).c, id).log == Some(output.text))
  {
    MomentsAreHistory(w, more, id);
    MomentsEnd(w, more, id);
    ghost var last;
    ok, last := Stream(moments, times, waits, true, o, output);
    assert ok ==> Leads(moments[last], moments[|moments| - 1]);
  }

  /** A log is frozen once its attempt is over, and grows at its end only until then. */
  lemma LogsOnlyGrow(w: World, calls: seq<Call>, id: Id, i: nat, j: nat)
    requires Inv(w) && Runs(w, calls) && Permanent(w.c, id) && i <= j < |Moments(w, calls, id)|
    ensures Leads(Moments(w, calls, id)[i], Moments(w, calls, id)[j])
  {
    MomentsAreHistory(w, calls, id);
  }
}
