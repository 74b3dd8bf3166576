/** What each step of the cluster does, in the fields it changes: to the
    collection, to the calls under way, to the tasks in the workers' hands.
 */
module ClusterSteps {
  import opened Tasks
  import opened Lifecycle
  import opened Cluster
  import opened ClusterInvariant
  import opened ClusterGuarantees

  // ----- The collection -----

  /** An extension under this claim: the holder's deadline moves, or nothing does. */
  ghost predicate Extends(docs: map<string, Task>, docs': map<string, Task>, k: Key, sample: int, lease: int) {
    if IsUnder(docs, k.id, k.token)
    then OnlyAt(docs, docs', k.id) && IsExtension(docs[k.id], docs'[k.id], sample + lease)
         && docs'[k.id].updatedAt == sample
    else docs' == docs
  }

  lemma ExtensionSays(w: World, k: Key, sample: int, lease: int)
    ensures Extends(w.docs, DoExtend(w, k, sample, lease).docs, k, sample, lease)
  {
    hide IsExtension;
    if Holds(w, k) {
      TransitionsKeepTheirWord(w.docs[k.id], Success(w.docs[k.id], ""), sample, "", "", lease);
    }
  }

  lemma ExtendingSays(w: World, s: Step)
    requires Enabled(w, s) && w.docs.Keys <= w.hist.Keys && (s.Extend? || s.Renew? || s.ExtendOwn?)
    ensures var k := if s.Extend? then s.key else KeyOf(w.handles[s.slot].snap);
            Extends(w.docs, Do(w, s).docs, k, s.sample, s.lease)
  {
    hide Extends, DoExtend, DoRenew, DoExtendOwn;
    ExtensionSays(w, if s.Extend? then s.key else KeyOf(w.handles[s.slot].snap), s.sample, s.lease);
  }

  /** A claim, alone or out of a batch, takes the task it is about if that is
      still due by the claimer's clock; a single claim is only made of one that is. */
  lemma ClaimingSays(w: World, s: Step)
    requires Enabled(w, s) && w.docs.Keys <= w.hist.Keys
    ensures s.ClaimOne? ==>
              && s.id in w.docs && IsDue(w.docs[s.id], s.sample) && OnlyAt(w.docs, Do(w, s).docs, s.id)
              && IsClaim(w.docs[s.id], Do(w, s).docs[s.id], s.sample, s.opts.workerId, s.token, s.opts.lease)
    ensures s.BatchUpdate? ==>
              var c := w.calls[s.call];
              if s.id in w.docs && IsDue(w.docs[s.id], c.sample)
              then
                && OnlyAt(w.docs, Do(w, s).docs, s.id)
                && IsClaim(w.docs[s.id], Do(w, s).docs[s.id], c.sample, c.opts.workerId, c.phase.token, c.opts.lease)
              else Do(w, s).docs == w.docs
  {
    hide IsClaim, Claimed, Matches, DoExtend;
    if s.ClaimOne? {
      var t := w.docs[s.id];
      TransitionsKeepTheirWord(t, Success(t, ""), s.sample, s.opts.workerId, s.token, s.opts.lease);
    } else if s.BatchUpdate? && s.id in w.docs {
      var t, c := w.docs[s.id], w.calls[s.call];
      TransitionsKeepTheirWord(t, Success(t, ""), c.sample, c.opts.workerId, c.phase.token, c.opts.lease);
    }
  }

  /** The write of a worker's report settles its task if the claim is still the
      one the task is under, and nothing else ever. */
  lemma WritingSays(w: World, s: Step)
    requires Enabled(w, s) && w.docs.Keys <= w.hist.Keys && s.Write?
    ensures var h := w.handles[s.slot];
            if IsUnder(w.docs, h.snap.id, h.snap.leaseToken)
            then
              && OnlyAt(w.docs, Do(w, s).docs, h.snap.id)
              && IsReport(w.docs[h.snap.id], Do(w, s).docs[h.snap.id], h.stage.outcome, s.sample)
            else Do(w, s).docs == w.docs
    ensures Do(w, s).handles == w.handles
  {
    hide IsReport, Finalized, Reportable, DoExtend;
    var h := w.handles[s.slot];
    if h.snap.id in w.docs {
      TransitionsKeepTheirWord(w.docs[h.snap.id], h.stage.outcome, s.sample, "", "", 0);
    }
  }

  lemma ComingAndGoingSays(w: World, s: Step)
    requires Enabled(w, s) && w.docs.Keys <= w.hist.Keys
    ensures s.Insert? ==> s.task.id !in w.docs && Do(w, s).docs == w.docs[s.task.id := s.task]
    ensures s.Delete? ==> Do(w, s).docs == w.docs - {s.id}
    ensures !IsStoreStep(s) ==> Do(w, s).docs == w.docs
  {
    hide Fresh, DoExtend;
    if !IsStoreStep(s) {
      hide Do, Enabled;
      OthersLeaveTheStore(w, s);
    }
  }

  lemma RequeueingSays(w: World, s: Step)
    requires Enabled(w, s) && w.docs.Keys <= w.hist.Keys && s.Requeue?
    ensures s.id in w.docs && w.docs[s.id].status == Dead && OnlyAt(w.docs, Do(w, s).docs, s.id)
    ensures IsRestart(w.docs[s.id], Do(w, s).docs[s.id], s.sample)
  {
    hide IsRestart, Requeued;
    TransitionsKeepTheirWord(w.docs[s.id], Success(w.docs[s.id], ""), s.sample, "", "", 0);
  }

  lemma ReapingSays(w: World, s: Step)
    requires Enabled(w, s) && w.docs.Keys <= w.hist.Keys && s.Reap?
    ensures s.id in w.docs && OnlyAt(w.docs, Do(w, s).docs, s.id)
    ensures var t := w.docs[s.id];
            && t.status == Running && t.leasedUntil < s.sample && t.attempts >= t.maxAttempts
            && IsBurial(t, Do(w, s).docs[s.id], s.sample)
  {
    hide IsBurial, Reaped;
    TransitionsKeepTheirWord(w.docs[s.id], Success(w.docs[s.id], ""), s.sample, "", "", 0);
  }

  // ----- The workers' hands -----

  /** That slot is given up, and no other. */
  predicate Gone(hs: map<nat, Handle>, hs': map<nat, Handle>, slot: nat) { hs' == hs - {slot} }

  /** The start of work: a single task at once; a pipelined one through the
      handshake, and not at all once its queue lease has run out. */
  lemma BeginningSays(w: World, s: Step)
    requires Enabled(w, s) && w.docs.Keys <= w.hist.Keys && s.BeginWork?
    ensures var h, v := w.handles[s.slot], Do(w, s);
            match h.mode
            case Single =>
              && v.handles == w.handles[s.slot := Handle(h.proc, Single, h.snap, Executing({}))]
              && v.ledger == w.ledger + [Key(h.snap.id, h.snap.leaseToken)]
            case Pipelined =>
              && v.ledger == w.ledger
              && if s.clock < h.snap.leasedUntil
                 then v.handles == w.handles[s.slot := Handle(h.proc, Pipelined, h.snap, Starting(0))]
                 else Gone(w.handles, v.handles, s.slot)
  {
  }

  /** The handshake: an answer that the claim was held clears the task and gives
      the copy the deadline it names, one that it was not drops it; no answer is
      borne with once. */
  lemma HandshakeSays(w: World, s: Step)
    requires Enabled(w, s) && w.docs.Keys <= w.hist.Keys
    ensures s.Renew? ==>
              var h := w.handles[s.slot];
              var grant := if IsUnder(w.docs, h.snap.id, h.snap.leaseToken) then Some(s.sample + s.lease) else None;
              && Do(w, s).handles == w.handles[s.slot := Handle(h.proc, h.mode, h.snap, Answered(h.stage.tries, grant))]
              && Do(w, s).ledger == w.ledger
    ensures s.Answer? ==>
              var h, v := w.handles[s.slot], Do(w, s);
              && v.ledger == w.ledger
              && match h.stage.grant
                 case Some(until) =>
                   v.handles == w.handles[s.slot := Handle(h.proc, h.mode, h.snap.(leasedUntil := until), Cleared)]
                 case None => Gone(w.handles, v.handles, s.slot)
    ensures s.NoAnswer? ==>
              var h, v := w.handles[s.slot], Do(w, s);
              && v.ledger == w.ledger
              && if h.stage.tries == 0
                 then v.handles == w.handles[s.slot := Handle(h.proc, h.mode, h.snap, Starting(1))]
                 else Gone(w.handles, v.handles, s.slot)
    ensures s.Invoke? ==>
              var h, v := w.handles[s.slot], Do(w, s);
              && v.handles == w.handles[s.slot := Handle(h.proc, h.mode, h.snap, Executing({}))]
              && v.ledger == w.ledger + [Key(h.snap.id, h.snap.leaseToken)]
  {
    hide DoExtend;
  }

  /** A handler's own extensions are remembered until it takes one over. */
  lemma HandlerSays(w: World, s: Step)
    requires Enabled(w, s) && w.docs.Keys <= w.hist.Keys
    ensures s.ExtendOwn? ==>
              var h := w.handles[s.slot];
              var grant := if IsUnder(w.docs, h.snap.id, h.snap.leaseToken) then {s.sample + s.lease} else {};
              && Do(w, s).handles
                 == w.handles[s.slot := Handle(h.proc, h.mode, h.snap, Executing(h.stage.grants + grant))]
              && Do(w, s).ledger == w.ledger
    ensures s.Adopt? ==>
              var h := w.handles[s.slot];
              && Do(w, s).handles
                 == w.handles[s.slot := Handle(h.proc, h.mode, h.snap.(leasedUntil := s.until), h.stage)]
              && Do(w, s).ledger == w.ledger
    ensures s.Finish? ==>
              var h := w.handles[s.slot];
              && Do(w, s).handles == w.handles[s.slot := Handle(h.proc, h.mode, h.snap, Finished(s.outcome))]
              && Do(w, s).ledger == w.ledger
    ensures s.Forget? ==> Gone(w.handles, Do(w, s).handles, s.slot)
  {
    hide DoExtend, DoRenew, DoAnswer, DoNoAnswer, DoBeginWork, DoWrite, Reportable;
  }

  /** A crash takes the calls and the tasks of the one process, and no more. */
  lemma CrashSays(w: World, proc: nat)
    requires w.docs.Keys <= w.hist.Keys
    ensures Enabled(w, Crash(proc))
    ensures var v := Do(w, Crash(proc));
            && v.docs == w.docs && v.ledger == w.ledger && v.now == w.now
            && (forall c :: c in v.calls <==> c in w.calls && w.calls[c].proc != proc)
            && (forall c <- v.calls :: v.calls[c] == w.calls[c])
            && (forall s :: s in v.handles <==> s in w.handles && w.handles[s].proc != proc)
            && (forall s <- v.handles :: v.handles[s] == w.handles[s])
  {
  }

  // ----- The claimers' hands -----

  /** A single claim hands over the task exactly as its update left it, unless
      the answer is lost. */
  lemma ClaimHandsOver(w: World, s: Step)
    requires Enabled(w, s) && w.docs.Keys <= w.hist.Keys && s.ClaimOne?
    ensures var v := Do(w, s);
            && s.id in v.docs && v.calls == w.calls && v.ledger == w.ledger
            && v.handles == if s.delivered then w.handles[s.slot := Handle(s.proc, Single, v.docs[s.id], Queued)]
                            else w.handles
  {
    hide Claimed, Matches, Runnable;
  }

  /** The three round trips of a batch: it finds due tasks of the wanted types
      and queues, as many as asked for at most; ... */
  lemma FindingSays(w: World, s: Step)
    requires Enabled(w, s) && w.docs.Keys <= w.hist.Keys
    ensures s.BatchBegin? ==>
              Do(w, s) == w.(calls := w.calls[s.call := Call(s.proc, s.opts, s.sample, s.limit, Finding({}))])
    ensures s.BatchFind? ==>
              var c := w.calls[s.call];
              && s.id in w.docs && IsDue(w.docs[s.id], c.sample)
              && (c.opts.kinds == [] || w.docs[s.id].kind in c.opts.kinds)
              && (c.opts.queues == [] || w.docs[s.id].queue in c.opts.queues)
              && Do(w, s) == w.(calls := w.calls[s.call := c.(phase := Finding(c.phase.found + {s.id}))])
    ensures s.BatchMint? ==>
              var c := w.calls[s.call];
              var p := Updating(s.token, c.phase.found, c.phase.found);
              && s.token !in w.used
              && Do(w, s) == w.(used := w.used + {s.token}, calls := w.calls[s.call := c.(phase := p)])
  {
  }

  /** ... updates each of them once, and then ... */
  lemma UpdatingSays(w: World, s: Step)
    requires Enabled(w, s) && w.docs.Keys <= w.hist.Keys
    ensures s.BatchUpdate? ==>
              var c := w.calls[s.call];
              && s.id in c.phase.todo
              && Do(w, s).calls
                 == w.calls[s.call := c.(phase := Updating(c.phase.token, c.phase.ids, c.phase.todo - {s.id}))]
              && Do(w, s).handles == w.handles && Do(w, s).ledger == w.ledger && Do(w, s).now == w.now
              && Do(w, s).used == w.used
    ensures s.BatchFetch? ==>
              var c := w.calls[s.call];
              && c.phase.todo == {}
              && Do(w, s) == w.(calls := w.calls[s.call := c.(phase := Fetching(c.phase.token, c.phase.ids))])
  {
    hide Claimed, Runnable;
  }

  /** ... reads each of them once and hands over those that carry its token. */
  lemma ReadingSays(w: World, s: Step)
    requires Enabled(w, s) && w.docs.Keys <= w.hist.Keys
    ensures s.BatchRead? ==>
              var c, v := w.calls[s.call], Do(w, s);
              && s.id in c.phase.todo && v.docs == w.docs && v.ledger == w.ledger && v.now == w.now
              && v.calls == w.calls[s.call := c.(phase := Fetching(c.phase.token, c.phase.todo - {s.id}))]
              && v.handles == if s.id in w.docs && w.docs[s.id].leaseToken == c.phase.token
                              then w.handles[s.slot := Handle(c.proc, Pipelined, w.docs[s.id], Queued)]
                              else w.handles
    ensures s.BatchEnd? ==> Do(w, s) == w.(calls := w.calls - {s.call})
  {
  }

  // ----- Reports -----

  /** What a worker can report: the handler's result, whatever it is; or an error,
      by whatever worker, under the attempt it was handed, with the verdict its
      copy of the budget gives. */
  lemma ReportsAre(snap: Task, o: Outcome)
    ensures Reportable(snap, o) <==>
              && o.task == snap
              && (o.Failure? ==>
                    o.error.attempt == snap.attempts && (o.terminal <==> snap.attempts >= snap.maxAttempts))
  {
    if o.task == snap && o.Success? {
      assert o == SuccessOf(snap, o.result);
    } else if o.task == snap && o.error.attempt == snap.attempts
              && (o.terminal <==> snap.attempts >= snap.maxAttempts) {
      assert o == FailureOf(snap, o.error.at, o.error.worker, o.error.message, o.retryAt);
    }
  }

  lemma ReportedInTwo(w: World, slot: nat, o: Outcome, sample: int)
    requires Inv(w) && slot in w.handles && w.handles[slot].stage.Executing? && sample <= w.now
    requires Holds(w, KeyOf(w.handles[slot].snap)) && Reportable(w.handles[slot].snap, o)
    ensures CanRun(w, [Finish(slot, o), Write(slot, sample)])
    ensures var v, id := Exec(w, [Finish(slot, o), Write(slot, sample)]), w.handles[slot].snap.id;
            OnlyAt(w.docs, v.docs, id) && IsReport(w.docs[id], v.docs[id], o, sample)
  {
    hide Components, CanRun, Exec, Reportable, IsReport, Finalized;
    EveryTaskIsOnRecord(w);
    var a, b := Finish(slot, o), Write(slot, sample);
    var u := Do(w, a);
    OneStep(w, a);
    OneStep(u, b);
    RunsCompose(w, [a], [b]);
    assert [a] + [b] == [a, b];
    WritingSays(u, b);
  }

  /** A handler's result gets into the store: if its worker still holds the
      claim, finishing and writing make the task done with that very result, ... */
  lemma ResultsAreStored(w: World, slot: nat, result: string, sample: int)
    requires Inv(w) && slot in w.handles && w.handles[slot].stage.Executing? && sample <= w.now && result != ""
    requires IsUnder(w.docs, w.handles[slot].snap.id, w.handles[slot].snap.leaseToken)
    ensures var id, steps := w.handles[slot].snap.id, [Finish(slot, Success(w.handles[slot].snap, result)),
                             Write(slot, sample)];
            && CanRun(w, steps) && OnlyAt(w.docs, Exec(w, steps).docs, id)
            && Exec(w, steps).docs[id].status == Done && Exec(w, steps).docs[id].result == result
            && Exec(w, steps).docs[id].errors == w.docs[id].errors
  {
    hide Inv, CanRun, Exec, Reportable;
    var o := Success(w.handles[slot].snap, result);
    ReportsAre(w.handles[slot].snap, o);
    ReportedInTwo(w, slot, o, sample);
  }

  /** ... and its error the last entry on the log, by that worker, at that time,
      with that message, under the attempt it was handed; with attempts left the
      task is pending until the retry time, without it is dead. */
  lemma ErrorsAreStored(w: World, slot: nat, at: int, worker: string, message: string, retryAt: int, sample: int)
    requires Inv(w) && slot in w.handles && w.handles[slot].stage.Executing? && sample <= w.now
    requires IsUnder(w.docs, w.handles[slot].snap.id, w.handles[slot].snap.leaseToken)
    ensures var snap := w.handles[slot].snap;
            var e := TaskError(at, snap.attempts, worker, message);
            var steps := [Finish(slot, Failure(snap, e, retryAt, snap.attempts >= snap.maxAttempts)),
                          Write(slot, sample)];
            && CanRun(w, steps) && OnlyAt(w.docs, Exec(w, steps).docs, snap.id)
            && var t, u := w.docs[snap.id], Exec(w, steps).docs[snap.id];
               && u.errors == t.errors + [e] && u.attempts == t.attempts == snap.attempts
               && (if t.attempts < t.maxAttempts then u.status == Pending && u.runAt == retryAt else u.status == Dead)
  {
    hide Inv, CanRun, Exec, Reportable;
    var snap := w.handles[slot].snap;
    var o := Failure(snap, TaskError(at, snap.attempts, worker, message), retryAt, snap.attempts >= snap.maxAttempts);
    ReportsAre(snap, o);
    ReportedInTwo(w, slot, o, sample);
    HeldBudget(w, slot);
  }

  lemma HeldBudget(w: World, slot: nat)
    requires Inv(w) && slot in w.handles && Holds(w, KeyOf(w.handles[slot].snap))
    ensures var snap := w.handles[slot].snap;
            w.docs[snap.id].attempts == snap.attempts && w.docs[snap.id].maxAttempts == snap.maxAttempts
  {
    hide Components, Sound, ErrorLog;
    DocFacts(w, w.handles[slot].snap.id);
    HandleFacts(w, slot);
  }

  // ----- History -----

  /** Only a requeue opens an epoch; nothing changes a task's budget. */
  lemma HistorySays(w: World, s: Step, id: string)
    requires Enabled(w, s) && w.docs.Keys <= w.hist.Keys
    ensures id in w.hist ==>
              && id in Do(w, s).hist
              && Do(w, s).hist[id].epoch == w.hist[id].epoch + (if s.Requeue? && s.id == id then 1 else 0)
              && Do(w, s).hist[id].maxAttempts == w.hist[id].maxAttempts
    ensures id !in w.hist ==> (id in Do(w, s).hist <==> s.Insert? && s.task.id == id)
    ensures s.Insert? && s.task.id == id && id !in w.hist ==>
              && Do(w, s).hist[id].epoch == 0 && Do(w, s).hist[id].attempts == 0
              && Do(w, s).hist[id].maxAttempts == s.task.maxAttempts
  {
    hide Reportable, Runnable, Matches, Fresh, DoExtend, DoRenew, DoExtendOwn, DoAnswer, DoNoAnswer, DoBeginWork;
  }

  // ----- What nobody can be kept from -----

  /** Whatever the world: time passes, processes crash, tasks are deleted, dead
      ones requeued, delivered claims extended, held or lost; a worker that has
      lost its claim may go on and write, and no answer needs to arrive. */
  lemma NothingIsRuledOut(w: World, s: Step)
    ensures s.Tick? || s.Crash? ==> Enabled(w, s)
    ensures s.Delete? && s.id in w.docs ==> Enabled(w, s)
    ensures s.Requeue? && s.id in w.docs && w.docs[s.id].status == Dead && s.sample <= w.now ==> Enabled(w, s)
    ensures s.Extend? && s.key in w.delivered && s.sample <= w.now ==> Enabled(w, s)
    ensures s.Write? && s.slot in w.handles && w.handles[s.slot].stage.Finished? && s.sample <= w.now ==> Enabled(w, s)
    ensures (s.Forget? || s.NoAnswer? || s.Invoke? || s.Answer?) && s.slot in w.handles ==>
              var st := w.handles[s.slot].stage;
              && (s.Forget? ==> Enabled(w, s))
              && (s.NoAnswer? ==> (Enabled(w, s) <==> st.Starting? || st.Answered?))
              && (s.Answer? ==> (Enabled(w, s) <==> st.Answered?))
              && (s.Invoke? ==> (Enabled(w, s) <==> st.Cleared?))
    ensures (s.BeginWork? || s.Renew? || s.ExtendOwn? || s.Adopt? || s.Finish?) && s.slot in w.handles ==>
              var h := w.handles[s.slot];
              && (s.BeginWork? ==> (Enabled(w, s) <==> h.stage.Queued? && s.clock <= w.now))
              && (s.Renew? ==> (Enabled(w, s) <==> h.stage.Starting? && s.sample <= w.now))
              && (s.ExtendOwn? ==> (Enabled(w, s) <==> h.stage.Executing? && s.sample <= w.now))
              && (s.Adopt? ==> (Enabled(w, s) <==> h.stage.Executing? && s.until in h.stage.grants))
              && (s.Finish? ==> (Enabled(w, s) <==> h.stage.Executing? && Reportable(h.snap, s.outcome)))
    ensures (s.ClaimOne? || s.Reap?) && s.id in w.docs ==>
              var t := w.docs[s.id];
              && (s.ClaimOne? ==>
                    (Enabled(w, s) <==>
                       && s.sample <= w.now && s.token !in w.used && s.slot !in w.handles && IsDue(t, s.sample)
                       && (s.opts.kinds == [] || t.kind in s.opts.kinds)
                       && (s.opts.queues == [] || t.queue in s.opts.queues)))
              && (s.Reap? ==>
                    (Enabled(w, s) <==> s.sample <= w.now && t.status == Running && t.leasedUntil < s.sample
                                        && t.attempts >= t.maxAttempts))
  {
    hide Reportable;
  }

  /** Likewise: any fresh task goes in whose id is new and whose key nobody has,
      due or not; a batch call makes its three round trips on whatever is there,
      though the tasks it goes for may be gone or taken meanwhile, and may break
      off between any two. */
  lemma CallsGoThrough(w: World, s: Step)
    ensures s.Insert? ==>
              (Enabled(w, s) <==>
                 && s.task.id !in w.hist && Fresh(s.task)
                 && (s.task.uniqueKey == "" || forall id <- w.docs.Keys :: w.docs[id].uniqueKey != s.task.uniqueKey))
    ensures s.BatchBegin? ==> (Enabled(w, s) <==> s.call !in w.calls && s.sample <= w.now && s.limit >= 1)
    ensures s.BatchFind? && s.call in w.calls && w.calls[s.call].phase.Finding? ==>
              var c := w.calls[s.call];
              (Enabled(w, s) <==>
                 && |c.phase.found| < c.limit && s.id in w.docs && IsDue(w.docs[s.id], c.sample)
                 && (c.opts.kinds == [] || w.docs[s.id].kind in c.opts.kinds)
                 && (c.opts.queues == [] || w.docs[s.id].queue in c.opts.queues))
    ensures s.BatchMint? && s.call in w.calls ==>
              (Enabled(w, s) <==> w.calls[s.call].phase.Finding? && s.token !in w.used)
    ensures s.BatchUpdate? && s.call in w.calls && w.calls[s.call].phase.Updating? ==>
              (Enabled(w, s) <==> s.id in w.calls[s.call].phase.todo)
    ensures s.BatchFetch? && s.call in w.calls && w.calls[s.call].phase.Updating? ==>
              (Enabled(w, s) <==> w.calls[s.call].phase.todo == {})
    ensures s.BatchRead? && s.call in w.calls && w.calls[s.call].phase.Fetching? ==>
              (Enabled(w, s) <==> s.id in w.calls[s.call].phase.todo && s.slot !in w.handles)
    ensures s.BatchEnd? ==> (Enabled(w, s) <==> s.call in w.calls)
  {
  }
}
