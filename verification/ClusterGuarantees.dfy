/** What holds in every run of the cluster, with crashes anywhere. */
module ClusterGuarantees {
  import opened Tasks
  import opened Lifecycle
  import opened Cluster
  import opened ClusterInvariant

  ghost predicate Reachable(w: World) {
    exists steps :: CanRun(Start, steps) && Exec(Start, steps) == w
  }

  lemma ReachableWorldsAreSafe(w: World)
    requires Reachable(w)
    ensures Inv(w)
  {
    var steps :| CanRun(Start, steps) && Exec(Start, steps) == w;
    RunKeepsInvariant(Start, steps);
  }

  /** A run can be cut in two anywhere. */
  lemma {:induction false} RunsCompose(w: World, a: seq<Step>, b: seq<Step>)
    ensures CanRun(w, a + b) <==> CanRun(w, a) && CanRun(Exec(w, a), b)
    ensures CanRun(w, a + b) ==> Exec(w, a + b) == Exec(Exec(w, a), b)
    decreases |a|
  {
    hide Do, Enabled;
    if a == [] {
      assert [] + b == b;
    } else {
      assert (a + b)[0] == a[0] && (a + b)[1..] == a[1..] + b;
      if w.docs.Keys <= w.hist.Keys && Enabled(w, a[0]) {
        RunsCompose(Do(w, a[0]), a[1..], b);
      }
    }
  }

  lemma OneStep(w: World, s: Step)
    ensures CanRun(w, [s]) <==> w.docs.Keys <= w.hist.Keys && Enabled(w, s)
    ensures CanRun(w, [s]) ==> Exec(w, [s]) == Do(w, s)
  {
    hide Do, Enabled;
    assert [s][1..] == [];
    if w.docs.Keys <= w.hist.Keys && Enabled(w, s) {
      assert CanRun(Do(w, s), []) && Exec(Do(w, s), []) == Do(w, s);
    }
  }

  lemma ReachableGoesOn(w: World, steps: seq<Step>)
    requires Reachable(w) && CanRun(w, steps)
    ensures Reachable(Exec(w, steps))
  {
    hide CanRun, Exec;
    var before :| CanRun(Start, before) && Exec(Start, before) == w;
    RunsCompose(Start, before, steps);
  }

  lemma StartIsReachable()
    ensures Reachable(Start)
  {
    assert CanRun(Start, []) && Exec(Start, []) == Start;
  }

  lemma ReachableStep(w: World, s: Step)
    requires Reachable(w) && Enabled(w, s)
    ensures w.docs.Keys <= w.hist.Keys && Reachable(Do(w, s))
  {
    hide Inv, Do, Enabled, Reachable, CanRun, Exec;
    ReachableWorldsAreSafe(w);
    EveryTaskIsOnRecord(w);
    OneStep(w, s);
    ReachableGoesOn(w, [s]);
  }

  // ----- What one step can do to one task -----

  /** A claim, single or out of a batch, and only of a task runnable by the claimer's clock. */
  predicate Takes(w: World, s: Step, t: Task, u: Task) {
    || (s.ClaimOne? && s.id == t.id && s.sample <= w.now && Runnable(t, s.sample)
        && u == Claimed(t, s.sample, s.opts.workerId, s.token, s.opts.lease))
    || (s.BatchUpdate? && s.id == t.id && s.call in w.calls && w.calls[s.call].phase.Updating?
        && var c := w.calls[s.call];
           c.sample <= w.now && Runnable(t, c.sample)
           && u == Claimed(t, c.sample, c.opts.workerId, c.phase.token, c.opts.lease))
  }

  /** The finalize write of the claim that holds the task. */
  predicate Settles(w: World, s: Step, t: Task, u: Task) {
    && s.Write? && s.slot in w.handles && w.handles[s.slot].stage.Finished?
    && KeyOf(w.handles[s.slot].snap) == KeyOf(t) && t.status.Running?
    && u == Finalized(t, w.handles[s.slot].stage.outcome, s.sample)
  }

  /** A lease extension by the claim that holds the task. */
  predicate Renews(w: World, s: Step, t: Task, u: Task) {
    && ((s.Extend? && s.key == KeyOf(t))
        || ((s.Renew? || s.ExtendOwn?) && s.slot in w.handles && KeyOf(w.handles[s.slot].snap) == KeyOf(t)))
    && t.status.Running? && s.sample <= w.now && u == Extended(t, s.sample, s.lease)
  }

  predicate Revives(w: World, s: Step, t: Task, u: Task) {
    s.Requeue? && s.id == t.id && t.status.Dead? && u == Requeued(t, s.sample)
  }

  predicate Buries(w: World, s: Step, t: Task, u: Task) {
    s.Reap? && s.id == t.id && s.sample <= w.now && Reapable(t, s.sample) && u == Reaped(t, s.sample)
  }

  predicate Evolves(w: World, s: Step, t: Task, u: Task) {
    t == u || Takes(w, s, t, u) || Settles(w, s, t, u) || Renews(w, s, t, u) || Revives(w, s, t, u)
         || Buries(w, s, t, u)
  }

  lemma BatchUpdateEvolves(w: World, s: Step, id: string)
    requires Inv(w) && s.BatchUpdate? && Enabled(w, s) && id in w.docs && w.docs[id].id == id
    ensures w.docs.Keys <= w.hist.Keys
    ensures id in Do(w, s).docs && Evolves(w, s, w.docs[id], Do(w, s).docs[id])
  {
    hide Components;
    EveryTaskIsOnRecord(w);
    CallFacts(w, s.call);
  }

  lemma WriteEvolves(w: World, s: Step, id: string)
    requires s.Write? && Enabled(w, s) && id in w.docs && w.docs[id].id == id && w.docs.Keys <= w.hist.Keys
    ensures id in Do(w, s).docs && Evolves(w, s, w.docs[id], Do(w, s).docs[id])
  {
    hide Finalized, Reportable, Runnable, Reapable, DoExtend;
  }

  lemma ExtendEvolves(w: World, s: Step, id: string)
    requires s.Extend? && Enabled(w, s) && id in w.docs && w.docs[id].id == id && w.docs.Keys <= w.hist.Keys
    ensures id in Do(w, s).docs && Evolves(w, s, w.docs[id], Do(w, s).docs[id])
  {
    hide Extended, Reportable, Runnable, Reapable, DoWrite;
  }

  lemma RenewEvolves(w: World, s: Step, id: string)
    requires (s.Renew? || s.ExtendOwn?) && Enabled(w, s) && id in w.docs && w.docs[id].id == id
    requires w.docs.Keys <= w.hist.Keys
    ensures id in Do(w, s).docs && Evolves(w, s, w.docs[id], Do(w, s).docs[id])
  {
    hide Extended, Reportable, Runnable, Reapable, DoWrite, DoRenew, DoExtendOwn;
  }

  /** The steps that write to the collection. */
  predicate IsStoreStep(s: Step) {
    || s.Insert? || s.ClaimOne? || s.BatchUpdate? || s.Renew? || s.ExtendOwn? || s.Write? || s.Extend? || s.Delete?
    || s.Requeue? || s.Reap?
  }

  lemma OthersLeaveTheStore(w: World, s: Step)
    requires Enabled(w, s) && w.docs.Keys <= w.hist.Keys && !IsStoreStep(s)
    ensures Do(w, s).docs == w.docs && Do(w, s).hist == w.hist && Do(w, s).claims == w.claims
  {
    hide Reportable, Runnable, Matches, DoBeginWork, DoAnswer, DoNoAnswer;
  }

  lemma SweepsEvolve(w: World, s: Step, id: string)
    requires (s.Insert? || s.ClaimOne? || s.Delete? || s.Requeue? || s.Reap?) && Enabled(w, s)
    requires id in w.docs && w.docs[id].id == id && w.docs.Keys <= w.hist.Keys
    ensures if id in Do(w, s).docs then Evolves(w, s, w.docs[id], Do(w, s).docs[id]) else s == Delete(id)
  {
    hide Finalized, Fresh, Matches, DoExtend;
  }

  /** Every way a step can change a task that is there. */
  lemma TasksEvolve(w: World, s: Step, id: string)
    requires Inv(w) && Enabled(w, s) && id in w.docs
    ensures w.docs.Keys <= w.hist.Keys
    ensures if id in Do(w, s).docs then Evolves(w, s, w.docs[id], Do(w, s).docs[id]) else s == Delete(id)
  {
    hide Components, Do, Enabled, Sound, ErrorLog;
    EveryTaskIsOnRecord(w);
    DocFacts(w, id);
    if s.BatchUpdate? {
      BatchUpdateEvolves(w, s, id);
    } else if s.Write? {
      WriteEvolves(w, s, id);
    } else if s.Extend? {
      ExtendEvolves(w, s, id);
    } else if s.Renew? || s.ExtendOwn? {
      RenewEvolves(w, s, id);
    } else if IsStoreStep(s) {
      SweepsEvolve(w, s, id);
    } else {
      OthersLeaveTheStore(w, s);
    }
  }

  /** New tasks come only from an enqueue; claims on record stay on record. */
  lemma RecordsGrow(w: World, s: Step)
    requires Enabled(w, s) && w.docs.Keys <= w.hist.Keys
    ensures forall id <- Do(w, s).docs | id !in w.docs :: s.Insert? && s.task.id == id
    ensures w.claims.Keys <= Do(w, s).claims.Keys
  {
  }

  // ----- Executions against attempts -----

  /** The ledger is keyed by (task, requeue epoch, attempt): no key executes twice. */
  lemma ExecutedAtMostOnce(w: World, i: nat, j: nat)
    requires Reachable(w) && i < j < |w.ledger|
    ensures var k, l := w.ledger[i], w.ledger[j];
            && k in w.claims && l in w.claims
            && !(k.id == l.id && w.claims[k].epoch == w.claims[l].epoch
                 && w.claims[k].after.attempts == w.claims[l].after.attempts)
  {
    ReachableWorldsAreSafe(w);
  }

  ghost function ClaimsOf(w: World, id: string): set<Key> {
    set k <- w.claims | k.id == id
  }

  function Executions(ledger: seq<Key>, id: string): nat {
    if ledger == [] then 0
    else Executions(ledger[..|ledger| - 1], id) + if ledger[|ledger| - 1].id == id then 1 else 0
  }

  /** Claims whose (epoch, attempt) lies within (e, a), with attempts in 1..m, number at most e*m + a. */
  lemma {:induction false} ClaimsFitBudget(claims: map<Key, ClaimEvent>, id: string, s: set<Key>, m: nat, e: nat,
        a: nat)
    requires ClaimsDistinct(claims) && s <= claims.Keys && a <= m
    requires forall k <- s :: k.id == id && 1 <= claims[k].after.attempts <= m
               && (claims[k].epoch < e || (claims[k].epoch == e && claims[k].after.attempts <= a))
    ensures |s| <= e * m + a
    decreases e, a
  {
    if a > 0 {
      if k :| k in s && claims[k].epoch == e && claims[k].after.attempts == a {
        ClaimsFitBudget(claims, id, s - {k}, m, e, a - 1);
      } else {
        ClaimsFitBudget(claims, id, s, m, e, a - 1);
      }
    } else if e > 0 {
      ClaimsFitBudget(claims, id, s, m, e - 1, m);
      assert (e - 1) * m + m == e * m;
    } else {
      assert s == {} by {
        if k :| k in s { assert false; }
      }
    }
  }

  lemma {:induction false} ExecutionsAreDistinctKeys(ledger: seq<Key>, id: string, s: set<Key>)
    requires forall i, j :: 0 <= i < j < |ledger| ==> ledger[i] != ledger[j]
    requires forall k <- ledger | k.id == id :: k in s
    ensures Executions(ledger, id) <= |s|
  {
    if ledger != [] {
      var n := |ledger| - 1;
      if ledger[n].id == id {
        ExecutionsAreDistinctKeys(ledger[..n], id, s - {ledger[n]});
      } else {
        ExecutionsAreDistinctKeys(ledger[..n], id, s);
      }
    }
  }

  /** It is the number of the task's entries. */
  lemma {:induction false} ExecutionsAreCounted(ledger: seq<Key>, id: string)
    ensures Executions(ledger, id) == |set i: nat | i < |ledger| && ledger[i].id == id|
  {
    if ledger == [] {
      assert (set i: nat | i < |ledger| && ledger[i].id == id) == {};
    } else {
      var n := |ledger| - 1;
      ExecutionsAreCounted(ledger[..n], id);
      var before := set i: nat | i < n && ledger[..n][i].id == id;
      assert (set i: nat | i < |ledger| && ledger[i].id == id) == before + if ledger[n].id == id then {n} else {};
    }
  }

  lemma ClaimsWithinAttempts(w: World, id: string)
    requires Inv(w) && id in w.hist
    ensures |ClaimsOf(w, id)| <= w.hist[id].epoch * w.hist[id].maxAttempts + w.hist[id].attempts
    ensures Executions(w.ledger, id) <= |ClaimsOf(w, id)|
  {
    hide Components, Runnable;
    var h := w.hist[id];
    LedgerFacts(w);
    HistoryFacts(w, id);
    forall k <- ClaimsOf(w, id) { ClaimFacts(w, k); }
    ClaimsFitBudget(w.claims, id, ClaimsOf(w, id), h.maxAttempts, h.epoch, h.attempts);
    ExecutionsAreDistinctKeys(w.ledger, id, ClaimsOf(w, id));
  }

  lemma WithinEpochs(e: nat, m: nat, a: nat)
    requires a <= m
    ensures e * m + a <= (e + 1) * m
    ensures e == 0 ==> e * m == 0
  {
  }

  /** Executions never exceed claims, and claims never exceed the attempts the
      policy allows, counted afresh after each requeue. */
  lemma AttemptsBoundExecutions(w: World, id: string)
    requires Reachable(w) && id in w.hist
    ensures var h := w.hist[id];
            && Executions(w.ledger, id) <= |ClaimsOf(w, id)| <= h.epoch * h.maxAttempts + h.attempts
            && |ClaimsOf(w, id)| <= (h.epoch + 1) * h.maxAttempts
            && (id in w.docs ==> w.docs[id].attempts == h.attempts && w.docs[id].maxAttempts == h.maxAttempts)
            && (h.epoch == 0 && h.maxAttempts == 1 ==> Executions(w.ledger, id) <= 1)
  {
    hide Components, Reachable, ClaimsOf, Executions;
    ReachableWorldsAreSafe(w);
    ClaimsWithinAttempts(w, id);
    HistoryFacts(w, id);
    var h := w.hist[id];
    WithinEpochs(h.epoch, h.maxAttempts, h.attempts);
    if id in w.docs {
      AttemptsOnRecord(w, id);
    }
  }

  lemma AttemptsOnRecord(w: World, id: string)
    requires Inv(w) && id in w.docs
    ensures id in w.hist
    ensures w.docs[id].attempts == w.hist[id].attempts && w.docs[id].maxAttempts == w.hist[id].maxAttempts
  {
    hide Components, Sound, ErrorLog;
    DocFacts(w, id);
  }

  /** Done implies executed: the ledger has the very attempt that is on record. */
  lemma DoneWasExecuted(w: World, id: string)
    requires Reachable(w) && id in w.docs && w.docs[id].status.Done?
    ensures id in w.hist
    ensures var k := Key(id, w.hist[id].lastToken);
            && k in w.ledger && k in w.claims
            && w.claims[k].epoch == w.hist[id].epoch && w.claims[k].after.attempts == w.docs[id].attempts
  {
    ReachableWorldsAreSafe(w);
    assert DocOK(id, w.docs[id], w.hist[id], w.claims, w.ledger);
  }

  /** Nothing is lost: only a delete or a purge takes a task away. */
  lemma {:induction false} NothingIsLost(w: World, steps: seq<Step>, id: string)
    requires Inv(w) && CanRun(w, steps) && id in w.docs
    requires Delete(id) !in steps
    ensures id in Exec(w, steps).docs
    decreases |steps|
  {
    hide Inv, Do, Enabled, Evolves;
    if steps != [] {
      TasksEvolve(w, steps[0], id);
      StepKeepsInv(w, steps[0]);
      NothingIsLost(Do(w, steps[0]), steps[1..], id);
    }
  }

  // ----- The attempts budget and the error log -----

  lemma BudgetAndErrorLog(w: World, id: string)
    requires Reachable(w) && id in w.docs
    ensures id in w.hist
    ensures var t, base := w.docs[id], w.hist[id].errBase;
            && 0 <= t.attempts <= t.maxAttempts
            && (t.status.Pending? ==> t.attempts < t.maxAttempts)
            && (t.status.Dead? ==> t.attempts == t.maxAttempts)
            && base <= |t.errors|
            && (forall i, j :: base <= i < j < |t.errors| ==> t.errors[i].attempt < t.errors[j].attempt)
            && (t.status.Dead? ==> base < |t.errors| && t.errors[|t.errors| - 1].attempt == t.maxAttempts)
  {
    ReachableWorldsAreSafe(w);
    assert DocOK(id, w.docs[id], w.hist[id], w.claims, w.ledger);
  }

  /** While a worker's token matches, its snapshot is the store's own task but
      for the lease deadline, so its terminal verdict is the store's. */
  lemma HeldSnapshotAgrees(w: World, slot: nat)
    requires Reachable(w) && slot in w.handles && Holds(w, KeyOf(w.handles[slot].snap))
    ensures var snap, t := w.handles[slot].snap, w.docs[w.handles[slot].snap.id];
            t == snap.(leasedUntil := t.leasedUntil, updatedAt := t.updatedAt)
  {
    ReachableWorldsAreSafe(w);
    var snap := w.handles[slot].snap;
    assert HandleOK(w.handles[slot], w.claims, w.ledger, w.delivered);
    assert DocOK(snap.id, w.docs[snap.id], w.hist[snap.id], w.claims, w.ledger);
  }

  lemma EvolvingKeepsErrors(w: World, s: Step, t: Task, u: Task)
    requires Evolves(w, s, t, u)
    ensures t.errors <= u.errors
  {
    hide Runnable, Reapable;
  }

  lemma ErrorsAreAppendOnly(w: World, s: Step, id: string)
    requires Inv(w) && Enabled(w, s) && id in w.docs
    ensures w.docs.Keys <= w.hist.Keys
    ensures id in Do(w, s).docs ==> w.docs[id].errors <= Do(w, s).docs[id].errors
  {
    hide Inv, Do, Enabled, Evolves;
    TasksEvolve(w, s, id);
    if id in Do(w, s).docs {
      EvolvingKeepsErrors(w, s, w.docs[id], Do(w, s).docs[id]);
    }
  }

  /** In no run does an error entry disappear or change, as long as the task is there. */
  lemma {:induction false} ErrorsAreKept(w: World, steps: seq<Step>, id: string)
    requires Inv(w) && CanRun(w, steps) && id in w.docs && Delete(id) !in steps
    ensures id in Exec(w, steps).docs && w.docs[id].errors <= Exec(w, steps).docs[id].errors
    decreases |steps|
  {
    hide Inv, Do, Enabled, Evolves;
    if steps != [] {
      TasksEvolve(w, steps[0], id);
      ErrorsAreAppendOnly(w, steps[0], id);
      StepKeepsInv(w, steps[0]);
      ErrorsAreKept(Do(w, steps[0]), steps[1..], id);
    }
  }

  // ----- Termination -----

  lemma MeasureFalls(w: World, s: Step, t: Task, u: Task)
    requires Inv(w) && t.id in w.docs && w.docs[t.id] == t
    requires Takes(w, s, t, u) || Settles(w, s, t, u) || Buries(w, s, t, u)
    ensures Measure(u) < Measure(t)
  {
    hide Components;
    DocFacts(w, t.id);
    if Settles(w, s, t, u) {
      HandleFacts(w, s.slot);
    }
  }

  ghost predicate Counted(w: World, s: Step, id: string)
    requires Enabled(w, s) && w.docs.Keys <= w.hist.Keys && id in w.docs && id in Do(w, s).docs
  {
    var t, u, v := w.docs[id], Do(w, s).docs[id], Do(w, s);
    && id in v.hist && v.hist[id].epoch == w.hist[id].epoch
    && (t.status != u.status || t.attempts != u.attempts ==> v.hist[id].moves == w.hist[id].moves + 1)
  }

  lemma MovesAreCounted(w: World, s: Step, id: string)
    requires Enabled(w, s) && w.docs.Keys <= w.hist.Keys && id in w.docs && id in Do(w, s).docs
    requires !(s.Requeue? && s.id == id)
    ensures Counted(w, s, id)
  {
    hide Do, Enabled;
    if IsWorkerStep(s) {
      WorkerMovesAreCounted(w, s, id);
    } else if IsStoreStep(s) {
      SweepMovesAreCounted(w, s, id);
    } else {
      OthersLeaveTheStore(w, s);
    }
  }

  lemma WorkerMovesAreCounted(w: World, s: Step, id: string)
    requires Enabled(w, s) && w.docs.Keys <= w.hist.Keys && id in w.docs && id in Do(w, s).docs
    requires IsWorkerStep(s)
    ensures Counted(w, s, id)
  {
    hide DoRenew, DoExtendOwn, DoAnswer, DoNoAnswer, DoBeginWork, DoExtend, Reportable;
  }

  lemma SweepMovesAreCounted(w: World, s: Step, id: string)
    requires Enabled(w, s) && w.docs.Keys <= w.hist.Keys && id in w.docs && id in Do(w, s).docs
    requires IsStoreStep(s) && !IsWorkerStep(s) && !(s.Requeue? && s.id == id)
    ensures Counted(w, s, id)
  {
  }

  /** Every change of status or attempts other than a requeue is on the count
      and uses up measure ... */
  lemma EveryMoveCounts(w: World, s: Step, id: string)
    requires Inv(w) && Enabled(w, s) && id in w.docs && !(s.Requeue? && s.id == id)
    ensures w.docs.Keys <= w.hist.Keys
    ensures id in Do(w, s).docs ==>
              var t, u, v := w.docs[id], Do(w, s).docs[id], Do(w, s);
              t.status != u.status || t.attempts != u.attempts ==>
                id in v.hist && v.hist[id].moves == w.hist[id].moves + 1 && Measure(u) < Measure(t)
  {
    hide Inv, Do, Enabled, Measure;
    TasksEvolve(w, s, id);
    DocFacts(w, id);
    if id in Do(w, s).docs {
      var t, u := w.docs[id], Do(w, s).docs[id];
      MovesAreCounted(w, s, id);
      if Takes(w, s, t, u) || Settles(w, s, t, u) || Buries(w, s, t, u) {
        MeasureFalls(w, s, t, u);
      }
    }
  }

  /** ... and between requeues the count stays within twice the budget. */
  lemma MovesAreBounded(w: World, id: string)
    requires Reachable(w) && id in w.docs
    ensures id in w.hist
    ensures w.hist[id].moves + Measure(w.docs[id]) <= 2 * w.docs[id].maxAttempts
    ensures 0 <= Measure(w.docs[id]) && (Measure(w.docs[id]) == 0 <==> !Active(w.docs[id]))
  {
    ReachableWorldsAreSafe(w);
    assert DocOK(id, w.docs[id], w.hist[id], w.claims, w.ledger);
  }

  /** No zombies: once its run_at or lease has passed, an unfinished task can be
      claimed by anyone subscribed to it, or else reaped; never both, and never before. */
  lemma UnfinishedTasksStayReachable(w: World, id: string, opts: ClaimOptions, token: string, slot: nat)
    requires Reachable(w) && id in w.docs && Active(w.docs[id])
    requires Matches(opts, w.docs[id]) && token !in w.used && slot !in w.handles
    ensures var claim := Enabled(w, ClaimOne(id, 0, opts, w.now, token, slot, true));
            var reap := Enabled(w, Reap(id, w.now));
            (claim || reap <==> w.now >= DueAt(w.docs[id])) && !(claim && reap)
  {
    UnfinishedIsClaimableOrReapable(w.docs[id], w.now);
  }

  // ----- Single owner -----

  predicate OwnWrite(w: World, s: Step, k: Key) {
    s.Write? && s.slot in w.handles && KeyOf(w.handles[s.slot].snap) == k
  }

  /** At most one of the snapshots out there matches the store's token. */
  lemma SingleOwner(w: World, r: nat, s: nat)
    requires Reachable(w) && r in w.handles && s in w.handles && r != s
    ensures !(w.handles[r].snap.id == w.handles[s].snap.id
              && Holds(w, KeyOf(w.handles[r].snap)) && Holds(w, KeyOf(w.handles[s].snap)))
  {
    ReachableWorldsAreSafe(w);
  }

  /** A claim ends by its own finalize, a delete or purge, or by a claim or reap
      that comes strictly after its lease deadline. */
  lemma LosesClaimOnlyTo(w: World, s: Step, k: Key)
    requires Inv(w) && Enabled(w, s) && Holds(w, k)
    ensures w.docs.Keys <= w.hist.Keys
    ensures !Holds(Do(w, s), k) ==>
              || OwnWrite(w, s, k)
              || s == Delete(k.id)
              || ((s.ClaimOne? || s.BatchUpdate? || s.Reap?) && s.id == k.id && w.docs[k.id].leasedUntil < w.now)
  {
    hide Inv, Do, Enabled;
    DocFacts(w, k.id);
    TasksEvolve(w, s, k.id);
  }

  /** A claim is never taken anew under a token that is on record for the task. */
  lemma TakesAnew(w: World, s: Step, k: Key, t: Task, u: Task)
    requires Inv(w) && Enabled(w, s) && k in w.claims && Takes(w, s, t, u) && t.id == k.id
    ensures u.leaseToken != k.token
  {
    hide Components, Runnable;
    ClaimFacts(w, k);
    if s.BatchUpdate? {
      CallFacts(w, s.call);
    }
  }

  lemma OnlyClaimsStart(w: World, s: Step, t: Task, u: Task, token: string)
    requires Evolves(w, s, t, u) && !Takes(w, s, t, u) && !Held(t, token)
    ensures !Held(u, token)
  {
    hide Runnable, Reapable;
  }

  lemma NeverHeldAgainStep(w: World, s: Step, k: Key)
    requires Inv(w) && Enabled(w, s) && k in w.claims && !Holds(w, k)
    ensures w.docs.Keys <= w.hist.Keys
    ensures k in Do(w, s).claims && !Holds(Do(w, s), k)
  {
    hide Components, Do, Enabled, Evolves;
    EveryTaskIsOnRecord(w);
    ClaimFacts(w, k);
    RecordsGrow(w, s);
    if k.id in w.docs && k.id in Do(w, s).docs {
      var t, u := w.docs[k.id], Do(w, s).docs[k.id];
      TasksEvolve(w, s, k.id);
      DocFacts(w, k.id);
      if Takes(w, s, t, u) {
        TakesAnew(w, s, k, t, u);
      } else {
        OnlyClaimsStart(w, s, t, u, k.token);
      }
    } else if k.id in Do(w, s).docs {
      InsertStartsNothing(w, s, k.id);
    }
  }

  lemma InsertStartsNothing(w: World, s: Step, id: string)
    requires Enabled(w, s) && w.docs.Keys <= w.hist.Keys && id in Do(w, s).docs && id !in w.docs
    ensures s.Insert? && id !in w.hist
  {
    hide Do;
    RecordsGrow(w, s);
  }

  /** Once a token has stopped matching it never matches again. */
  lemma {:induction false} NeverHeldAgain(w: World, steps: seq<Step>, k: Key)
    requires Inv(w) && CanRun(w, steps) && k in w.claims && !Holds(w, k)
    ensures !Holds(Exec(w, steps), k)
    decreases |steps|
  {
    hide Inv, Do, Enabled, Holds;
    if steps != [] {
      NeverHeldAgainStep(w, steps[0], k);
      StepKeepsInv(w, steps[0]);
      NeverHeldAgain(Do(w, steps[0]), steps[1..], k);
    }
  }

  /** A stale worker's Complete, Fail and ExtendLease change nothing in the store. */
  lemma StaleWritesDoNothing(w: World, s: Step, k: Key)
    requires Enabled(w, s) && w.docs.Keys <= w.hist.Keys && !Holds(w, k)
    requires OwnWrite(w, s, k) || (s.Extend? && s.key == k)
             || ((s.Renew? || s.ExtendOwn?) && s.slot in w.handles && KeyOf(w.handles[s.slot].snap) == k)
    ensures Do(w, s).docs == w.docs && Do(w, s).ledger == w.ledger
  {
  }

  /** So once a claim is lost, nothing its worker sends later changes the store,
      however the run goes on. */
  lemma StaleForever(w: World, steps: seq<Step>, s: Step, k: Key)
    requires Inv(w) && CanRun(w, steps) && k in w.claims && !Holds(w, k)
    requires Enabled(Exec(w, steps), s)
    requires var v := Exec(w, steps);
             OwnWrite(v, s, k) || (s.Extend? && s.key == k)
             || ((s.Renew? || s.ExtendOwn?) && s.slot in v.handles && KeyOf(v.handles[s.slot].snap) == k)
    ensures var v := Exec(w, steps);
            v.docs.Keys <= v.hist.Keys && Do(v, s).docs == v.docs
  {
    hide Inv, Do, Enabled, Holds, CanRun, Exec;
    NeverHeldAgain(w, steps, k);
    RunKeepsInvariant(w, steps);
    EveryTaskIsOnRecord(Exec(w, steps));
    StaleWritesDoNothing(Exec(w, steps), s, k);
  }
}
