/** Every task ends: what bounds its way to done or dead, and that there is one. */
module ClusterProgress {
  import opened Tasks
  import opened Lifecycle
  import opened Cluster
  import opened ClusterInvariant
  import opened ClusterGuarantees

  /** In this run nobody deletes or requeues the task. */
  predicate LeftToItself(steps: seq<Step>, id: string) {
    forall s <- steps :: s != Delete(id) && !(s.Requeue? && s.id == id)
  }

  /** What a step counts that claims, finalizes or reaps the task.  A claim that
      takes a running task over ends one attempt and starts the next. */
  function Turn(t: Task, u: Task): nat {
    if t.status == u.status && t.attempts == u.attempts then 0
    else if t.status.Running? && u.status.Running? then 2
    else 1
  }

  /** All turns of the run. */
  ghost function Turns(w: World, steps: seq<Step>, id: string): nat
    requires CanRun(w, steps)
    decreases |steps|
  {
    if steps == [] then 0
    else
      var v := Do(w, steps[0]);
      Turns(v, steps[1..], id) + if id in w.docs && id in v.docs then Turn(w.docs[id], v.docs[id]) else 0
  }

  lemma TurnIsExact(w: World, s: Step, t: Task, u: Task)
    requires Sound(t) && Evolves(w, s, t, u) && !Revives(w, s, t, u)
    requires Settles(w, s, t, u) ==> Faithful(w.handles[s.slot].stage.outcome, t)
    ensures Turn(t, u) + Measure(u) <= Measure(t)
    ensures !u.status.Done? ==> Turn(t, u) + Measure(u) == Measure(t)
  {
  }

  lemma VerdictIsFaithful(w: World, s: Step, t: Task, u: Task)
    requires Inv(w) && t.id in w.docs && w.docs[t.id] == t && Settles(w, s, t, u)
    ensures Faithful(w.handles[s.slot].stage.outcome, t)
  {
    hide Components, Sound, ErrorLog;
    DocFacts(w, t.id);
    HandleFacts(w, s.slot);
  }

  /** A turn uses up as much measure as it counts; only a success may use up more. */
  lemma TurnsAreExact(w: World, s: Step, id: string)
    requires Inv(w) && Enabled(w, s) && id in w.docs && s != Delete(id) && !(s.Requeue? && s.id == id)
    ensures w.docs.Keys <= w.hist.Keys && id in Do(w, s).docs
    ensures var t, u := w.docs[id], Do(w, s).docs[id];
            && Turn(t, u) + Measure(u) <= Measure(t)
            && (!u.status.Done? ==> Turn(t, u) + Measure(u) == Measure(t))
  {
    hide Components, Do, Enabled, Evolves, Turn, Measure, Settles, Sound, ErrorLog;
    TasksEvolve(w, s, id);
    DocFacts(w, id);
    var t, u := w.docs[id], Do(w, s).docs[id];
    if Settles(w, s, t, u) {
      VerdictIsFaithful(w, s, t, u);
    }
    TurnIsExact(w, s, t, u);
  }

  /** Done is done, unless it is deleted. */
  lemma DoneStays(w: World, s: Step, id: string)
    requires Inv(w) && Enabled(w, s) && id in w.docs && w.docs[id].status.Done?
    ensures w.docs.Keys <= w.hist.Keys
    ensures id in Do(w, s).docs ==> Do(w, s).docs[id].status.Done?
  {
    hide Inv, Do, Enabled, Finalized, Requeued, Reaped, Extended, Claimed;
    TasksEvolve(w, s, id);
  }

  /** Turns and the measure that is left add up to the measure at the start,
      until a success forfeits the rest. */
  lemma {:induction false} TurnsUseUpMeasure(w: World, steps: seq<Step>, id: string)
    requires Inv(w) && CanRun(w, steps) && id in w.docs && LeftToItself(steps, id)
    ensures id in Exec(w, steps).docs
    ensures var u := Exec(w, steps).docs[id];
            && Turns(w, steps, id) + Measure(u) <= Measure(w.docs[id])
            && (!u.status.Done? ==> Turns(w, steps, id) + Measure(u) == Measure(w.docs[id]))
            && (w.docs[id].status.Done? ==> u.status.Done?)
    decreases |steps|
  {
    hide Inv, Do, Enabled, Measure, Turn;
    if steps != [] {
      var s := steps[0];
      TurnsAreExact(w, s, id);
      StepKeepsInv(w, s);
      TurnsUseUpMeasure(Do(w, s), steps[1..], id);
      if w.docs[id].status.Done? {
        DoneStays(w, s, id);
      }
    }
  }

  lemma MeasureFits(w: World, id: string)
    requires Inv(w) && id in w.docs
    ensures 0 <= Measure(w.docs[id]) <= 2 * w.docs[id].maxAttempts
    ensures Measure(w.docs[id]) == 0 <==> !Active(w.docs[id])
  {
    hide Components;
    DocFacts(w, id);
  }

  /** Whoever runs and whatever crashes: a task that is neither deleted nor
      requeued has at most `Measure` turns left, twice its unused attempts and
      one more if it is running; it is unfinished exactly as long as it has not
      had them all, and has not succeeded before. */
  lemma TurnsFinish(w: World, steps: seq<Step>, id: string)
    requires Reachable(w) && CanRun(w, steps) && id in w.docs
    requires forall s <- steps :: s != Delete(id) && !(s.Requeue? && s.id == id)
    ensures id in Exec(w, steps).docs
    ensures var t, u := w.docs[id], Exec(w, steps).docs[id];
            && Turns(w, steps, id) <= Measure(t) <= 2 * t.maxAttempts
            && (Active(u) <==> Turns(w, steps, id) < Measure(t) && !u.status.Done?)
            && (Active(u) ==> Measure(u) == Measure(t) - Turns(w, steps, id))
  {
    hide Inv, Measure, Exec, CanRun, Turns, Reachable;
    ReachableWorldsAreSafe(w);
    RunKeepsInvariant(w, steps);
    TurnsUseUpMeasure(w, steps, id);
    MeasureFits(w, id);
    MeasureFits(Exec(w, steps), id);
  }

  // ----- There is always a way -----

  lemma {:induction false} LongerThanAll(s: set<string>) returns (n: nat)
    ensures forall x <- s :: |x| < n
  {
    if s == {} {
      n := 0;
    } else {
      var x :| x in s;
      var m := LongerThanAll(s - {x});
      n := m + |x| + 1;
    }
  }

  lemma {:induction false} AboveAll(s: set<nat>) returns (n: nat)
    ensures forall x <- s :: x < n
  {
    if s == {} {
      n := 0;
    } else {
      var x :| x in s;
      var m := AboveAll(s - {x});
      n := m + x + 1;
      assert s == s - {x} + {x};
    }
  }

  const Anyone := ClaimOptions("", [], [], 0)

  predicate IsSweep(s: Step, id: string) {
    s.Tick? || (s.ClaimOne? && s.id == id) || (s.Reap? && s.id == id)
  }

  /** There is always an unused token and a free slot. */
  lemma Unused(w: World) returns (token: string, slot: nat)
    ensures token !in w.used && slot !in w.handles
  {
    var n := LongerThanAll(w.used);
    token := seq(n, _ => 'x');
    slot := AboveAll(w.handles.Keys);
    assert |token| == n;
  }

  /** Once it is due, an unfinished task is claimed or reaped. */
  lemma TakeTurn(w: World, id: string) returns (s: Step)
    requires Inv(w) && id in w.docs && Active(w.docs[id]) && DueAt(w.docs[id]) <= w.now
    ensures Enabled(w, s) && w.docs.Keys <= w.hist.Keys && (s.ClaimOne? || s.Reap?) && IsSweep(s, id)
    ensures s.ClaimOne? ==> !s.delivered
    ensures id in Do(w, s).docs && Measure(Do(w, s).docs[id]) < Measure(w.docs[id])
  {
    hide Components, Measure, Runnable, Reapable;
    var t := w.docs[id];
    DocFacts(w, id);
    EveryTaskIsOnRecord(w);
    UnfinishedIsClaimableOrReapable(t, w.now);
    if Runnable(t, w.now) {
      var token, slot := Unused(w);
      s := ClaimOne(id, 0, Anyone, w.now, token, slot, false);
    } else {
      s := Reap(id, w.now);
    }
    Turned(w, s, id);
  }

  lemma Turned(w: World, s: Step, id: string)
    requires Inv(w) && Enabled(w, s) && id in w.docs && w.docs.Keys <= w.hist.Keys
    requires (s.ClaimOne? || s.Reap?) && s.id == id
    ensures id in Do(w, s).docs && Measure(Do(w, s).docs[id]) < Measure(w.docs[id])
  {
    hide Components, Measure;
    DocFacts(w, id);
    MeasureFalls(w, s, w.docs[id], Do(w, s).docs[id]);
  }

  lemma Waited(w: World, d: nat)
    requires Inv(w)
    ensures CanRun(w, [Tick(d)]) && Exec(w, [Tick(d)]) == w.(now := w.now + d) && Inv(w.(now := w.now + d))
  {
    hide Components, CanRun, Exec;
    EveryTaskIsOnRecord(w);
    OneStep(w, Tick(d));
    TickKeepsInv(w, w.now + d);
  }

  /** From every reachable world, with every worker gone, the clock, claims that
      come to nothing and the reaper alone bring a task to its end. */
  lemma {:induction false} CanAlwaysFinish(w: World, id: string) returns (steps: seq<Step>)
    requires Inv(w) && id in w.docs
    ensures CanRun(w, steps) && forall s <- steps :: IsSweep(s, id)
    ensures id in Exec(w, steps).docs
    ensures Exec(w, steps).docs[id].status.Done? || Exec(w, steps).docs[id].status.Dead?
    decreases Measure(w.docs[id])
  {
    hide Inv, Do, Enabled, CanRun, Exec, Measure;
    MeasureFits(w, id);
    if Active(w.docs[id]) {
      var d: nat := if DueAt(w.docs[id]) > w.now then DueAt(w.docs[id]) - w.now else 0;
      Waited(w, d);
      var v := w.(now := w.now + d);
      var s := TakeTurn(v, id);
      OneStep(v, s);
      StepKeepsInv(v, s);
      var rest := CanAlwaysFinish(Do(v, s), id);
      RunsCompose(v, [s], rest);
      RunsCompose(w, [Tick(d)], [s] + rest);
      steps := [Tick(d)] + ([s] + rest);
    } else {
      steps := [];
      NoSteps(w);
    }
  }

  lemma NoSteps(w: World)
    ensures CanRun(w, []) && Exec(w, []) == w
  {
  }
}
