/** Batch claims, heartbeats and unique keys in every run of the cluster. */
module ClusterOwnership {
  import opened Tasks
  import opened Lifecycle
  import opened Cluster
  import opened ClusterInvariant
  import opened ClusterGuarantees

  // ----- Claims, single and batched -----

  /** What the claim record says of a new claim is what happened: the task as
      it was when the update hit, and as the update left it. */
  lemma ClaimsRecordTheUpdate(w: World, s: Step, k: Key)
    requires Inv(w) && Enabled(w, s)
    ensures w.docs.Keys <= w.hist.Keys
    ensures k in w.claims ==> k in Do(w, s).claims && Do(w, s).claims[k] == w.claims[k]
    ensures k in Do(w, s).claims && k !in w.claims ==>
              var v, e := Do(w, s), Do(w, s).claims[k];
              && k.id in w.docs && k.id in v.docs && (s.ClaimOne? || s.BatchUpdate?) && s.id == k.id
              && e.before == w.docs[k.id] && e.after == v.docs[k.id]
              && Runnable(w.docs[k.id], e.sample) && e.sample <= w.now
  {
    hide Components, Do, Enabled;
    EveryTaskIsOnRecord(w);
    if s.ClaimOne? {
      ClaimRecords(w, s, k);
    } else if s.BatchUpdate? {
      BatchRecords(w, s, k);
    } else {
      OthersClaimNothing(w, s);
    }
  }

  lemma OthersClaimNothing(w: World, s: Step)
    requires Enabled(w, s) && w.docs.Keys <= w.hist.Keys && !s.ClaimOne? && !s.BatchUpdate?
    ensures Do(w, s).claims == w.claims
  {
    hide Do, Enabled;
    if IsWorkerStep(s) {
      WorkersClaimNothing(w, s);
    } else if IsStoreStep(s) {
      SweepsClaimNothing(w, s);
    } else {
      OthersLeaveTheStore(w, s);
    }
  }

  lemma WorkersClaimNothing(w: World, s: Step)
    requires Enabled(w, s) && w.docs.Keys <= w.hist.Keys && IsWorkerStep(s)
    ensures Do(w, s).claims == w.claims
  {
    hide Reportable, DoRenew, DoExtendOwn, DoAnswer, DoNoAnswer, DoBeginWork, DoExtend;
  }

  lemma SweepsClaimNothing(w: World, s: Step)
    requires Enabled(w, s) && w.docs.Keys <= w.hist.Keys
    requires IsStoreStep(s) && !IsWorkerStep(s) && !s.ClaimOne? && !s.BatchUpdate?
    ensures Do(w, s).claims == w.claims
  {
    hide Fresh, Reapable, DoExtend;
  }

  lemma ClaimRecords(w: World, s: Step, k: Key)
    requires Inv(w) && Enabled(w, s) && s.ClaimOne? && w.docs.Keys <= w.hist.Keys
    ensures k in w.claims ==> k in Do(w, s).claims && Do(w, s).claims[k] == w.claims[k]
    ensures k in Do(w, s).claims && k !in w.claims ==>
              var v, e := Do(w, s), Do(w, s).claims[k];
              && k.id in w.docs && k.id in v.docs && s.id == k.id
              && e.before == w.docs[k.id] && e.after == v.docs[k.id]
              && Runnable(w.docs[k.id], e.sample) && e.sample <= w.now
  {
    hide Components, Matches, Claimed, Runnable;
    if k in w.claims {
      ClaimFacts(w, k);
    }
  }

  lemma BatchRecords(w: World, s: Step, k: Key)
    requires Inv(w) && Enabled(w, s) && s.BatchUpdate? && w.docs.Keys <= w.hist.Keys
    ensures k in w.claims ==> k in Do(w, s).claims && Do(w, s).claims[k] == w.claims[k]
    ensures k in Do(w, s).claims && k !in w.claims ==>
              var v, e := Do(w, s), Do(w, s).claims[k];
              && k.id in w.docs && k.id in v.docs && s.id == k.id
              && e.before == w.docs[k.id] && e.after == v.docs[k.id]
              && Runnable(w.docs[k.id], e.sample) && e.sample <= w.now
  {
    hide Components, Matches, Claimed, Runnable;
    CallFacts(w, s.call);
  }

  /** The batch guard drops the type and queue filter, and needs none; nor do
      the candidates ever outnumber the batch that was asked for. */
  lemma GuardNeedsNoFilter(w: World, call: nat, id: string)
    requires Reachable(w) && Enabled(w, BatchUpdate(call, id)) && id in w.docs
    ensures Matches(w.calls[call].opts, w.docs[id])
    ensures id in w.calls[call].phase.ids && |w.calls[call].phase.ids| <= w.calls[call].limit
  {
    ReachableWorldsAreSafe(w);
    hide Components;
    DocFacts(w, id);
    CallFacts(w, call);
    assert Candidate(w.hist, w.calls[call].opts, id);
  }

  /** Every task a claimer holds was runnable and wanted when its update hit,
      carries attempts, errors and everything else exactly as of that update
      (the deadline too, until the handshake renews it), and is held nowhere else. */
  lemma ClaimedTasksAreExact(w: World, slot: nat)
    requires Reachable(w) && slot in w.handles
    ensures var h := w.handles[slot]; var k := KeyOf(h.snap);
            && k in w.claims
            && var e := w.claims[k];
               && Runnable(e.before, e.sample) && Matches(e.opts, e.before)
               && e.after == Claimed(e.before, e.sample, e.opts.workerId, k.token, e.opts.lease)
               && h.snap == e.after.(leasedUntil := h.snap.leasedUntil)
               && (h.stage.Queued? || h.stage.Starting? ==> h.snap == e.after)
               && (forall r <- w.handles | r != slot :: KeyOf(w.handles[r].snap) != k)
  {
    ReachableWorldsAreSafe(w);
    HandleFacts(w, slot);
    ClaimFacts(w, KeyOf(w.handles[slot].snap));
  }

  /** A claim that has reached one claimer never reaches another, nor again. */
  lemma DeliveredOnce(w: World, s: Step, slot: nat)
    requires Inv(w) && Enabled(w, s) && slot !in w.handles
    ensures w.docs.Keys <= w.hist.Keys
    ensures w.delivered <= Do(w, s).delivered
    ensures slot in Do(w, s).handles ==>
              var k := KeyOf(Do(w, s).handles[slot].snap); k !in w.delivered && k in Do(w, s).delivered
  {
    hide Components, Do, Enabled;
    EveryTaskIsOnRecord(w);
    if s.BatchRead? {
      BatchReadDelivers(w, s, slot);
    } else if s.ClaimOne? {
      ClaimDelivers(w, s, slot);
    } else {
      OthersDeliverNothing(w, s, slot);
    }
  }

  lemma OthersDeliverNothing(w: World, s: Step, slot: nat)
    requires Enabled(w, s) && w.docs.Keys <= w.hist.Keys && !s.ClaimOne? && !s.BatchRead?
    ensures Do(w, s).delivered == w.delivered && (slot !in w.handles ==> slot !in Do(w, s).handles)
  {
    hide Reportable, Runnable, Matches, Fresh, DoRenew, DoExtendOwn, DoAnswer, DoNoAnswer, DoBeginWork, DoExtend;
  }

  lemma BatchReadDelivers(w: World, s: Step, slot: nat)
    requires Inv(w) && Enabled(w, s) && s.BatchRead? && slot !in w.handles && w.docs.Keys <= w.hist.Keys
    ensures w.delivered <= Do(w, s).delivered
    ensures slot in Do(w, s).handles ==>
              var k := KeyOf(Do(w, s).handles[slot].snap); k !in w.delivered && k in Do(w, s).delivered
  {
    hide Components, Candidate;
    CallFacts(w, s.call);
    assert Untouched(Key(s.id, w.calls[s.call].phase.token), w.docs, w.claims, w.delivered);
    if s.id in w.docs {
      DocFacts(w, s.id);
    }
  }

  lemma ClaimDelivers(w: World, s: Step, slot: nat)
    requires Inv(w) && Enabled(w, s) && s.ClaimOne? && slot !in w.handles && w.docs.Keys <= w.hist.Keys
    ensures w.delivered <= Do(w, s).delivered
    ensures slot in Do(w, s).handles ==>
              var k := KeyOf(Do(w, s).handles[slot].snap); k !in w.delivered && k in Do(w, s).delivered
  {
    hide Components, Matches;
    DocFacts(w, s.id);
    if Key(s.id, s.token) in w.delivered {
      DeliveredIsClaimed(w, Key(s.id, s.token));
      ClaimFacts(w, Key(s.id, s.token));
    }
  }

  lemma DeliveredIsClaimed(w: World, k: Key)
    requires Inv(w) && k in w.delivered
    ensures k in w.claims
  {
  }

  // ----- The start of work -----

  /** An extension lands for the handshake of a claim that is held, and gives it
      the deadline `until`. */
  predicate Clears(w: World, s: Step, k: Key, until: int) {
    && s.Renew? && s.slot in w.handles && KeyOf(w.handles[s.slot].snap) == k
    && Holds(w, k) && s.sample <= w.now && until == s.sample + s.lease
  }

  ghost predicate ClearedAt(steps: seq<Step>, i: nat, k: Key, until: int) {
    i < |steps| && CanRun(Start, steps[..i]) && Clears(Exec(Start, steps[..i]), steps[i], k, until)
  }

  ghost predicate WasCleared(steps: seq<Step>, k: Key, until: int) {
    exists i: nat :: ClearedAt(steps, i, k, until)
  }

  /** What a copy in or past the handshake says about the run that led to it. */
  ghost predicate Vouched(steps: seq<Step>, h: Handle) {
    && (h.stage.Answered? && h.stage.grant.Some? ==> WasCleared(steps, KeyOf(h.snap), h.stage.grant.value))
    && (h.stage.Cleared? ==> WasCleared(steps, KeyOf(h.snap), h.snap.leasedUntil))
  }

  lemma ClearedStays(steps: seq<Step>, s: Step, k: Key, until: int)
    ensures WasCleared(steps, k, until) ==> WasCleared(steps + [s], k, until)
    ensures CanRun(Start, steps) && Clears(Exec(Start, steps), s, k, until) ==> WasCleared(steps + [s], k, until)
  {
    hide CanRun, Exec, Clears;
    if i: nat :| ClearedAt(steps, i, k, until) {
      assert (steps + [s])[..i] == steps[..i] && (steps + [s])[i] == steps[i];
      assert ClearedAt(steps + [s], i, k, until);
    }
    if CanRun(Start, steps) && Clears(Exec(Start, steps), s, k, until) {
      assert (steps + [s])[..|steps|] == steps;
      assert ClearedAt(steps + [s], |steps|, k, until);
    }
  }

  /** How a copy gets into those stages. */
  predicate StageFrom(w: World, s: Step, slot: nat, h: Handle) {
    || (!h.stage.Answered? && !h.stage.Cleared?)
    || (slot in w.handles && w.handles[slot] == h)
    || (h.stage.Answered? && (h.stage.grant.Some? ==> Clears(w, s, KeyOf(h.snap), h.stage.grant.value)))
    || (h.stage.Cleared? && slot in w.handles && w.handles[slot].stage.Answered?
        && KeyOf(w.handles[slot].snap) == KeyOf(h.snap)
        && w.handles[slot].stage.grant == Some(h.snap.leasedUntil))
  }

  lemma StagesEvolve(w: World, s: Step, slot: nat)
    requires Enabled(w, s) && w.docs.Keys <= w.hist.Keys && slot in Do(w, s).handles
    ensures StageFrom(w, s, slot, Do(w, s).handles[slot])
  {
    hide Do, Enabled, StageFrom;
    if s.Renew? {
      RenewStage(w, s, slot);
    } else if IsWorkerStep(s) {
      WorkerStage(w, s, slot);
    } else {
      OtherStages(w, s, slot);
    }
  }

  lemma RenewStage(w: World, s: Step, slot: nat)
    requires Enabled(w, s) && w.docs.Keys <= w.hist.Keys && s.Renew? && slot in Do(w, s).handles
    ensures StageFrom(w, s, slot, Do(w, s).handles[slot])
  {
    hide DoExtend;
  }

  lemma WorkerStage(w: World, s: Step, slot: nat)
    requires Enabled(w, s) && w.docs.Keys <= w.hist.Keys && IsWorkerStep(s) && !s.Renew? && slot in Do(w, s).handles
    ensures StageFrom(w, s, slot, Do(w, s).handles[slot])
  {
    hide DoExtend, DoWrite, Reportable, Clears;
  }

  lemma OtherStages(w: World, s: Step, slot: nat)
    requires Enabled(w, s) && w.docs.Keys <= w.hist.Keys && !IsWorkerStep(s) && slot in Do(w, s).handles
    ensures StageFrom(w, s, slot, Do(w, s).handles[slot])
  {
    hide DoBatchUpdate, Runnable, Matches, Fresh, Clears;
  }

  lemma {:induction false} CopiesAreVouched(steps: seq<Step>, slot: nat)
    requires CanRun(Start, steps) && slot in Exec(Start, steps).handles
    ensures Vouched(steps, Exec(Start, steps).handles[slot])
    decreases |steps|
  {
    if steps == [] {
    } else {
      hide CanRun, Exec, Do, Enabled, Clears, WasCleared;
      var n := |steps| - 1;
      var pre, s := steps[..n], steps[n];
      assert steps == pre + [s];
      RunsCompose(Start, pre, [s]);
      var w := Exec(Start, pre);
      OneStep(w, s);
      StagesEvolve(w, s, slot);
      var h := Do(w, s).handles[slot];
      if slot in w.handles {
        CopiesAreVouched(pre, slot);
      }
      ClearedStays(pre, s, KeyOf(h.snap), h.snap.leasedUntil);
      if h.stage.Answered? && h.stage.grant.Some? {
        ClearedStays(pre, s, KeyOf(h.snap), h.stage.grant.value);
      }
    }
  }

  /** An execution starts with a singly claimed task, or with a pipelined one
      for which, earlier in the run, an extension landed that found the claim
      held; the worker's copy has the deadline of that extension.  By now the
      claim may be gone again. */
  lemma WorkStartsCleared(steps: seq<Step>, s: Step)
    requires CanRun(Start, steps) && Enabled(Exec(Start, steps), s)
    ensures var w := Exec(Start, steps);
            && w.docs.Keys <= w.hist.Keys
            && (Do(w, s).ledger == w.ledger
                || ((s.BeginWork? || s.Invoke?) && s.slot in w.handles
                    && var h := w.handles[s.slot];
                       && Do(w, s).ledger == w.ledger + [KeyOf(h.snap)]
                       && (s.BeginWork? ==> h.mode.Single?)
                       && (s.Invoke? ==> WasCleared(steps, KeyOf(h.snap), h.snap.leasedUntil))))
  {
    hide CanRun, Exec, Do, Enabled, WasCleared;
    var w := Exec(Start, steps);
    RunKeepsStart(steps);
    EveryTaskIsOnRecord(w);
    StartsNothingElse(w, s);
    if s.Invoke? {
      CopiesAreVouched(steps, s.slot);
    }
  }

  lemma RunKeepsStart(steps: seq<Step>)
    requires CanRun(Start, steps)
    ensures Inv(Exec(Start, steps))
  {
    RunKeepsInvariant(Start, steps);
  }

  lemma StartsNothingElse(w: World, s: Step)
    requires Enabled(w, s) && w.docs.Keys <= w.hist.Keys
    ensures s.BeginWork? || s.Invoke? ==> s.slot in w.handles
    ensures s.Invoke? ==>
              w.handles[s.slot].stage.Cleared? && Do(w, s).ledger == w.ledger + [KeyOf(w.handles[s.slot].snap)]
    ensures s.BeginWork? ==>
              Do(w, s).ledger == w.ledger
              || (w.handles[s.slot].mode.Single? && Do(w, s).ledger == w.ledger + [KeyOf(w.handles[s.slot].snap)])
    ensures !s.BeginWork? && !s.Invoke? ==> Do(w, s).ledger == w.ledger
  {
    hide Reportable, Runnable, Matches, Fresh, DoExtend, DoRenew, DoExtendOwn, DoAnswer, DoNoAnswer;
  }

  // ----- Unique keys -----

  /** At most one unfinished task per key, and none on a finished one, so the
      in-memory scan for an active holder and Mongo's unique index, which looks
      at every document that carries the key, turn away the same enqueues. */
  lemma ScanAgreesWithIndex(w: World, key: string)
    requires Reachable(w)
    ensures KeyFree(w.docs, key) <==> key == "" || !exists id <- w.docs ::
              Active(w.docs[id])
              && w.docs[id].uniqueKey == key
    ensures forall i, j :: i in w.docs && j in w.docs && w.docs[i].uniqueKey == w.docs[j].uniqueKey != "" ==> i == j
    ensures forall id <- w.docs :: !Active(w.docs[id]) ==> w.docs[id].uniqueKey == ""
  {
    ReachableWorldsAreSafe(w);
    forall id <- w.docs ensures !Active(w.docs[id]) ==> w.docs[id].uniqueKey == "" {
      DocFacts(w, id);
    }
  }

  lemma KeyEvolves(w: World, s: Step, t: Task, u: Task)
    requires Evolves(w, s, t, u)
    ensures u.uniqueKey == t.uniqueKey || (u.uniqueKey == "" && !Active(u))
  {
    hide Runnable, Reapable;
  }

  /** A key, once given up, is not taken back: only an enqueue brings one in. */
  lemma KeysAreOnlyReleased(w: World, s: Step, id: string)
    requires Inv(w) && Enabled(w, s) && id in w.docs
    ensures w.docs.Keys <= w.hist.Keys
    ensures id in Do(w, s).docs ==> Do(w, s).docs[id].uniqueKey in {w.docs[id].uniqueKey, ""}
    ensures id in Do(w, s).docs && Active(Do(w, s).docs[id]) ==> Do(w, s).docs[id].uniqueKey == w.docs[id].uniqueKey
  {
    hide Inv, Do, Enabled, Evolves, Active;
    TasksEvolve(w, s, id);
    if id in Do(w, s).docs {
      KeyEvolves(w, s, w.docs[id], Do(w, s).docs[id]);
    }
  }
}
