/** Leases over whole runs: how long a claim lasts on its own, and when a
    heartbeat keeps it alive.
 */
module ClusterHeartbeat {
  import opened Tasks
  import opened Lifecycle
  import opened Cluster
  import opened ClusterInvariant
  import opened ClusterGuarantees
  import opened ClusterProgress

  // ----- Extensions and the deadline -----

  /** An extension for `k` reaches the store while `k` holds the task. */
  predicate RenewsLease(w: World, s: Step, k: Key) {
    && Holds(w, k)
    && ((s.Extend? && s.key == k)
        || ((s.Renew? || s.ExtendOwn?) && s.slot in w.handles && KeyOf(w.handles[s.slot].snap) == k))
  }

  function DeadlineOf(w: World, k: Key): int { if k.id in w.docs then w.docs[k.id].leasedUntil else 0 }

  lemma HeldIsOnRecord(w: World, k: Key)
    requires Inv(w) && Holds(w, k)
    ensures k in w.claims
  {
    hide Components;
    DocFacts(w, k.id);
  }

  lemma RenewalIsExact(w: World, s: Step, k: Key)
    requires Enabled(w, s) && w.docs.Keys <= w.hist.Keys && RenewsLease(w, s, k)
    ensures k.id in Do(w, s).docs && Do(w, s).docs[k.id].leasedUntil == s.sample + s.lease
  {
    hide DoRenew, DoExtendOwn;
  }

  lemma OnlyRenewalsMove(w: World, s: Step, t: Task, u: Task, k: Key)
    requires Evolves(w, s, t, u) && !Takes(w, s, t, u) && Held(t, k.token) && Held(u, k.token) && t.id == k.id
    requires t.id in w.docs && w.docs[t.id] == t && !RenewsLease(w, s, k)
    ensures u.leasedUntil == t.leasedUntil
  {
    hide Runnable, Reapable;
  }

  /** As long as a claim is held, only its own extensions move the deadline. */
  lemma HeldDeadline(w: World, s: Step, k: Key)
    requires Inv(w) && Enabled(w, s) && Holds(w, k)
    ensures w.docs.Keys <= w.hist.Keys
    ensures Holds(Do(w, s), k) ==>
              DeadlineOf(Do(w, s), k) == if RenewsLease(w, s, k) then s.sample + s.lease else DeadlineOf(w, k)
  {
    hide Inv, Do, Enabled, Evolves, Takes, RenewsLease;
    DocId(w, k.id);
    TasksEvolve(w, s, k.id);
    if RenewsLease(w, s, k) {
      RenewalIsExact(w, s, k);
    } else if Holds(Do(w, s), k) {
      var t, u := w.docs[k.id], Do(w, s).docs[k.id];
      if Takes(w, s, t, u) {
        HeldIsOnRecord(w, k);
        TakesAnew(w, s, k, t, u);
      } else {
        OnlyRenewalsMove(w, s, t, u, k);
      }
    }
  }

  lemma DocId(w: World, id: string)
    requires Inv(w) && id in w.docs
    ensures w.docs[id].id == id
  {
    hide Components;
    DocFacts(w, id);
  }

  // ----- How long a claim lasts -----

  /** Up to the instant `until`, which this run does not pass, nobody finalizes
      the claim or deletes its task, and no extension sets an earlier deadline. */
  ghost predicate Undisturbed(w: World, steps: seq<Step>, k: Key, until: int)
    requires CanRun(w, steps)
    decreases |steps|
  {
    && w.now <= until
    && (steps == [] ||
        var s := steps[0];
        && !OwnWrite(w, s, k) && s != Delete(k.id)
        && (RenewsLease(w, s, k) ==> until <= s.sample + s.lease)
        && Undisturbed(Do(w, s), steps[1..], k, until))
  }

  /** No such run takes the task away. */
  ghost predicate Lasts(w: World, k: Key, until: int) {
    forall steps :: CanRun(w, steps) && Undisturbed(w, steps, k, until) ==> Holds(Exec(w, steps), k)
  }

  lemma HeldIsThere(w: World, k: Key)
    requires Holds(w, k)
    ensures k.id in w.docs
  {
  }

  lemma {:induction false} UndisturbedStays(w: World, steps: seq<Step>, k: Key, until: int)
    requires Inv(w) && CanRun(w, steps) && Holds(w, k) && until <= DeadlineOf(w, k)
    requires Undisturbed(w, steps, k, until)
    ensures Holds(Exec(w, steps), k)
    decreases |steps|
  {
    hide Inv, Do, Enabled, OwnWrite, Holds, RenewsLease;
    if steps != [] {
      var s := steps[0];
      HeldIsThere(w, k);
      LosesClaimOnlyTo(w, s, k);
      HeldDeadline(w, s, k);
      StepKeepsInv(w, s);
      UndisturbedStays(Do(w, s), steps[1..], k, until);
    }
  }

  /** A claim or reap that comes after the deadline. */
  lemma Displaced(w: World, k: Key, d: nat) returns (s: Step)
    requires Inv(w) && Holds(w, k) && w.docs[k.id].leasedUntil < w.now + d
    ensures s.ClaimOne? || s.Reap?
    ensures CanRun(w, [Tick(d), s]) && !Holds(Exec(w, [Tick(d), s]), k)
    ensures Exec(w, [Tick(d), s]).now == w.now + d && Exec(w, [Tick(d), s]).handles == w.handles
  {
    hide Components, CanRun, Exec, Measure, Runnable, Reapable;
    Waited(w, d);
    var v := w.(now := w.now + d);
    s := TakeTurn(v, k.id);
    OneStep(v, s);
    RunsCompose(w, [Tick(d)], [s]);
    assert [Tick(d)] + [s] == [Tick(d), s];
    HeldIsOnRecord(w, k);
    ClaimFacts(w, k);
  }

  lemma DisplacedUndisturbed(w: World, k: Key, d: nat, s: Step)
    requires (s.ClaimOne? || s.Reap?) && CanRun(w, [Tick(d), s]) && Exec(w, [Tick(d), s]).now == w.now + d
    ensures Undisturbed(w, [Tick(d), s], k, w.now + d)
  {
    hide Holds, Enabled;
    var v := Do(w, Tick(d));
    var u := Do(v, s);
    assert [Tick(d), s][1..] == [s] && [s][1..] == [];
    assert Exec(v, [s]) == u && Exec(u, []) == u;
    assert Undisturbed(u, [], k, w.now + d);
    assert Undisturbed(v, [s], k, w.now + d);
  }

  /** A claim that is left alone lasts up to its deadline, and no longer: just
      past it anybody's claim may take the task, or on the last attempt a reap. */
  lemma LastsToItsDeadline(w: World, k: Key, until: int)
    requires Inv(w) && Holds(w, k) && w.now <= until
    ensures Lasts(w, k, until) <==> until <= w.docs[k.id].leasedUntil
  {
    hide Inv, CanRun, Exec, Undisturbed, Holds;
    HeldIsThere(w, k);
    if until <= w.docs[k.id].leasedUntil {
      forall steps | CanRun(w, steps) && Undisturbed(w, steps, k, until) ensures Holds(Exec(w, steps), k) {
        UndisturbedStays(w, steps, k, until);
      }
    } else {
      var s := Displaced(w, k, until - w.now);
      DisplacedUndisturbed(w, k, until - w.now, s);
    }
  }

  // ----- Heartbeat -----

  /** In this run the clock never gets further than `lease` past the clock
      reading of the last applied extension, `last` at the start (the claim's). */
  ghost predicate KeptAlive(w: World, steps: seq<Step>, k: Key, lease: int, last: int)
    requires CanRun(w, steps)
    decreases |steps|
  {
    && w.now <= last + lease
    && (steps == [] ||
        var s := steps[0];
        && (RenewsLease(w, s, k) ==> s.lease >= lease)
        && KeptAlive(Do(w, s), steps[1..], k, lease, if RenewsLease(w, s, k) then s.sample else last))
  }

  /** Nobody finalizes the claim or deletes its task in this run. */
  ghost predicate Unfinished(w: World, steps: seq<Step>, k: Key)
    requires CanRun(w, steps)
    decreases |steps|
  {
    steps == []
    || (!OwnWrite(w, steps[0], k) && steps[0] != Delete(k.id) && Unfinished(Do(w, steps[0]), steps[1..], k))
  }

  lemma HeartbeatStep(w: World, s: Step, k: Key, lease: int, last: int)
    requires Inv(w) && Enabled(w, s) && Holds(w, k)
    requires !OwnWrite(w, s, k) && s != Delete(k.id)
    requires w.now <= last + lease <= DeadlineOf(w, k)
    requires RenewsLease(w, s, k) ==> s.lease >= lease
    ensures w.docs.Keys <= w.hist.Keys
    ensures Holds(Do(w, s), k)
    ensures (if RenewsLease(w, s, k) then s.sample else last) + lease <= DeadlineOf(Do(w, s), k)
  {
    hide Inv, Do, Enabled, OwnWrite, Holds;
    HeldIsThere(w, k);
    LosesClaimOnlyTo(w, s, k);
    HeldDeadline(w, s, k);
    if Holds(Do(w, s), k) {
      HeldIsThere(Do(w, s), k);
    }
  }

  /** As long as extensions land no more than a lease apart, no claim or reap
      by anyone takes the task away. */
  lemma {:induction false} HeartbeatKeepsTheTask(w: World, steps: seq<Step>, k: Key, lease: int, last: int)
    requires Inv(w) && CanRun(w, steps) && Holds(w, k) && last + lease <= DeadlineOf(w, k)
    requires KeptAlive(w, steps, k, lease, last) && Unfinished(w, steps, k)
    ensures Holds(Exec(w, steps), k)
    decreases |steps|
  {
    hide Inv, Do, Enabled, OwnWrite, Holds;
    if steps != [] {
      var s := steps[0];
      HeartbeatStep(w, s, k, lease, last);
      StepKeepsInv(w, s);
      HeartbeatKeepsTheTask(Do(w, s), steps[1..], k, lease, if RenewsLease(w, s, k) then s.sample else last);
    }
  }

  // ----- Its schedule -----

  /** startHeartbeat.  The ticker starts up to `delay` after the clock reading
      that set the first deadline; a tick's extension reads the clock and lands
      within `latency` of the tick; at most `failures` ticks in a row do not land. */
  datatype Heartbeat = Heartbeat(lease: int, interval: int, delay: nat, latency: nat, failures: nat)

  function TickAt(hb: Heartbeat, start: int, m: nat): int { start + m * hb.interval }

  /** The extension of tick `m` lands. */
  predicate TickLands(w: World, s: Step, k: Key, hb: Heartbeat, start: int, m: nat) {
    && s.Extend? && s.key == k && s.lease == hb.lease
    && TickAt(hb, start, m) <= s.sample && w.now <= TickAt(hb, start, m) + hb.latency
  }

  /** From here on the run is on schedule; tick `n` was the last to land, 0 stands
      for the claim or handshake itself.  No other extension lands. */
  ghost predicate OnSchedule(w: World, steps: seq<Step>, k: Key, hb: Heartbeat, start: int, n: nat)
    requires CanRun(w, steps)
    decreases |steps|
  {
    && w.now <= TickAt(hb, start, n + hb.failures + 1) + hb.latency
    && (steps == [] ||
        if RenewsLease(w, steps[0], k)
        then exists m: nat :: n < m <= n + hb.failures + 1 && TickLands(w, steps[0], k, hb, start, m)
               && OnSchedule(Do(w, steps[0]), steps[1..], k, hb, start, m)
        else OnSchedule(Do(w, steps[0]), steps[1..], k, hb, start, n))
  }

  /** A run on schedule of a claim that nobody finalizes or deletes.  `base` is
      the clock reading the deadline was computed from. */
  ghost predicate Beats(w: World, steps: seq<Step>, k: Key, hb: Heartbeat, base: int, start: int) {
    && Reachable(w) && CanRun(w, steps) && Holds(w, k)
    && w.docs[k.id].leasedUntil == base + hb.lease && base <= start <= base + hb.delay
    && Unfinished(w, steps, k) && OnSchedule(w, steps, k, hb, start, 0)
  }

  /** However the run goes, as long as the heartbeat is on schedule the claim stays. */
  ghost predicate Survives(hb: Heartbeat) {
    forall w, steps, k, base, start :: Beats(w, steps, k, hb, base, start) ==> Holds(Exec(w, steps), k)
  }

  predicate InTime(hb: Heartbeat) {
    hb.delay + hb.latency + (hb.failures + 1) * hb.interval <= hb.lease
  }

  lemma TicksAdd(hb: Heartbeat, start: int, n: nat)
    ensures TickAt(hb, start, n + hb.failures + 1) == TickAt(hb, start, n) + (hb.failures + 1) * hb.interval
    ensures TickAt(hb, start, 0) == start
  {
    assert (n + (hb.failures + 1)) * hb.interval == n * hb.interval + (hb.failures + 1) * hb.interval;
  }

  lemma {:induction false} ScheduleKeepsAlive(
      w: World, steps: seq<Step>, k: Key, hb: Heartbeat, start: int, n: nat, last: int)
    requires CanRun(w, steps) && OnSchedule(w, steps, k, hb, start, n) && InTime(hb)
    requires last >= TickAt(hb, start, n) - hb.delay
    ensures KeptAlive(w, steps, k, hb.lease, last)
    decreases |steps|
  {
    hide TickAt, Do, Enabled, RenewsLease;
    TicksAdd(hb, start, n);
    if steps != [] {
      var s := steps[0];
      if RenewsLease(w, s, k) {
        var m: nat :| n < m <= n + hb.failures + 1 && TickLands(w, s, k, hb, start, m)
               && OnSchedule(Do(w, s), steps[1..], k, hb, start, m);
        ScheduleKeepsAlive(Do(w, s), steps[1..], k, hb, start, m, s.sample);
      } else {
        ScheduleKeepsAlive(Do(w, s), steps[1..], k, hb, start, n, last);
      }
    }
  }

  lemma InTimeSurvives(hb: Heartbeat)
    requires InTime(hb)
    ensures Survives(hb)
  {
    hide CanRun, Exec, OnSchedule, Unfinished, InTime, Reachable, Holds;
    forall w, steps, k, base, start | Beats(w, steps, k, hb, base, start) ensures Holds(Exec(w, steps), k) {
      ReachableWorldsAreSafe(w);
      HeldIsThere(w, k);
      TicksAdd(hb, start, 0);
      ScheduleKeepsAlive(w, steps, k, hb, start, 0, base);
      HeartbeatKeepsTheTask(w, steps, k, hb.lease, base);
    }
  }

  // ----- And when it is late -----

  /** The run of a claim at instant 0. */
  function SomeTask(attempts: int): Task {
    Task("t", "", "", "", "", Pending, 0, attempts, 0, None, "", 0, "", [], "", 0, 0)
  }

  function ClaimSteps(attempts: int, lease: int): seq<Step> {
    [Insert(SomeTask(attempts)), ClaimOne("t", 0, ClaimOptions("", [], [], lease), 0, "a", 0, true)]
  }

  lemma FirstClaim(attempts: int, lease: int) returns (w: World)
    requires attempts >= 1
    ensures CanRun(Start, ClaimSteps(attempts, lease)) && w == Exec(Start, ClaimSteps(attempts, lease)) && Reachable(w)
    ensures Holds(w, Key("t", "a")) && w.now == 0 && w.docs["t"].leasedUntil == lease && "t" in w.hist
    ensures w.docs.Keys == {"t"} && w.delivered == {Key("t", "a")}
    ensures KeyOf(w.docs["t"]) == Key("t", "a")
    ensures w.handles.Keys == {0} && w.handles[0] == Handle(0, Single, w.docs["t"], Queued)
  {
    var steps := ClaimSteps(attempts, lease);
    var a, b := steps[0], steps[1];
    var v := Do(Start, a);
    OneStep(Start, a);
    OneStep(v, b);
    RunsCompose(Start, [a], [b]);
    assert [a] + [b] == steps;
    w := Do(v, b);
    hide CanRun, Exec;
  }

  lemma Overdue(hb: Heartbeat)
    requires !InTime(hb)
    ensures hb.lease + 1 <= TickAt(hb, hb.delay, hb.failures + 1) + hb.latency
  {
  }

  /** If the first extension may come too late, somebody else's claim may come
      before it: nothing lands until just past the deadline, and then a claim does. */
  lemma LateLoses(hb: Heartbeat)
    requires !InTime(hb) && hb.lease >= 0
    ensures !Survives(hb)
  {
    hide Holds, Do, Enabled, Reachable, CanRun, Exec, OnSchedule, Unfinished, Survives, InTime, TickAt, Inv, ClaimSteps;
    var w := FirstClaim(2, hb.lease);
    var k := Key("t", "a");
    ReachableWorldsAreSafe(w);
    Overdue(hb);
    var d: nat := hb.lease + 1;
    var s := Displaced(w, k, d);
    LateRun(w, [Tick(d), s], k, hb, hb.delay);
    LateBeats(w, [Tick(d), s], k, hb);
  }

  lemma LateBeats(w: World, steps: seq<Step>, k: Key, hb: Heartbeat)
    requires Reachable(w) && CanRun(w, steps) && Holds(w, k) && !Holds(Exec(w, steps), k)
    requires w.docs[k.id].leasedUntil == hb.lease
    requires Unfinished(w, steps, k) && OnSchedule(w, steps, k, hb, hb.delay, 0)
    ensures !Survives(hb)
  {
    hide Holds, CanRun, Exec, Reachable, Unfinished, OnSchedule;
    assert Beats(w, steps, k, hb, 0, hb.delay);
  }

  /** A tick of the clock and a foreign claim or reap are on schedule as long as the
      first extension is not overdue. */
  lemma LateRun(w: World, steps: seq<Step>, k: Key, hb: Heartbeat, start: int)
    requires CanRun(w, steps) && |steps| == 2 && steps[0].Tick? && (steps[1].ClaimOne? || steps[1].Reap?)
    requires w.now <= Exec(w, steps).now <= TickAt(hb, start, hb.failures + 1) + hb.latency
    ensures OnSchedule(w, steps, k, hb, start, 0) && Unfinished(w, steps, k)
  {
    hide Holds, TickAt, Enabled;
    var v := Do(w, steps[0]);
    var rest := steps[1..];
    var u := Do(v, rest[0]);
    assert rest[1..] == [];
    assert Exec(v, rest) == u && Exec(u, []) == u;
    assert OnSchedule(u, [], k, hb, start, 0) && Unfinished(u, [], k);
    assert OnSchedule(v, rest, k, hb, start, 0) && Unfinished(v, rest, k);
  }

  /** A heartbeat keeps every claim through every run on its schedule if and only
      if it is in time: start delay, latency and one interval more than may fail
      in a row fit into the lease. */
  lemma HeartbeatSurvivesIffInTime(hb: Heartbeat)
    requires hb.lease >= 1 && hb.interval >= 1
    ensures Survives(hb) <==> hb.delay + hb.latency + (hb.failures + 1) * hb.interval <= hb.lease
  {
    hide Survives;
    if InTime(hb) {
      InTimeSurvives(hb);
    } else {
      LateLoses(hb);
    }
  }

  /** HeartbeatAuto: a third of the lease, rounded down. */
  function Auto(lease: int, delay: nat, latency: nat, failures: nat): Heartbeat {
    Heartbeat(lease, lease / 3, delay, latency, failures)
  }

  /** So the auto cadence outlives one failed tick whenever delay and latency stay
      within a third of the lease; but two in a row only if delay and latency are
      no more than the nanoseconds lost in rounding, two at most. */
  lemma AutoCadence(lease: int, delay: nat, latency: nat)
    requires lease >= 3
    ensures Survives(Auto(lease, delay, latency, 1)) <==> delay + latency <= lease - 2 * (lease / 3)
    ensures Survives(Auto(lease, delay, latency, 2)) <==> delay + latency <= lease % 3
  {
    hide Survives;
    HeartbeatSurvivesIffInTime(Auto(lease, delay, latency, 1));
    HeartbeatSurvivesIffInTime(Auto(lease, delay, latency, 2));
  }
}
