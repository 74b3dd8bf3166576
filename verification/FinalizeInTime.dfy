/** The flusher's timer against the store: an outcome that waits in the buffer
    is still the store's to accept when its bulk write lands.
 */
module FinalizeInTime {
  import opened Tasks
  import opened Lifecycle
  import opened Cluster
  import opened ClusterInvariant
  import opened ClusterGuarantees
  import opened ClusterHeartbeat
  import opened ClusterCopies
  import Buf = FinalizeBuffer
  import Pipe = Pipeline
  import PipeRuns = PipelineGuarantees

  /** The buffered outcome of a worker's finished task: the buffer knows the
      claim, and the lease as the worker's copy has it. */
  predicate Buffered(e: Buf.Entry, h: Handle) {
    h.stage.Finished? && e.item == Buf.Item(KeyOf(h.snap), h.snap.maxAttempts, h.snap.leasedUntil)
  }

  lemma AppliedWhileHeld(w: World, slot: nat, sample: int)
    requires Enabled(w, Write(slot, sample)) && w.docs.Keys <= w.hist.Keys && Holds(w, KeyOf(w.handles[slot].snap))
    ensures var id, o := w.handles[slot].snap.id, w.handles[slot].stage.outcome;
            && id in Do(w, Write(slot, sample)).docs
            && Do(w, Write(slot, sample)).docs[id] == Finalized(w.docs[id], o, sample)
  {
    hide Finalized, Reportable, DoExtend;
  }

  lemma CopyIsBehind(w: World, slot: nat)
    requires slot in w.handles
    requires CopiesBehind(w, KeyOf(w.handles[slot].snap)) && Holds(w, KeyOf(w.handles[slot].snap))
    ensures w.handles[slot].snap.leasedUntil <= DeadlineOf(w, KeyOf(w.handles[slot].snap))
  {
    assert w.handles[slot].snap.leasedUntil in Deadlines(w.handles[slot]);
  }

  /** An outcome whose claim is held when the flusher sets its timer is applied,
      if its write lands within half a margin of the timer: whatever else goes on
      in the cluster, no claim or reap takes the task away before, provided
      extensions never set an earlier deadline than some copy has (which is
      when the gate is right to trust the copy) and nobody deletes the task. */
  lemma BufferedOutcomeIsApplied(
      before: seq<Step>, slot: nat, cfg: Buf.Config, s: Pipe.State, timer: int, e: Buf.Entry, steps: seq<Step>,
      later: nat, sample: int)
    requires CanRun(Start, before) && slot in Exec(Start, before).handles
    requires PipeRuns.Reachable(cfg, s) && s.flusher == Pipe.Blocked(|s.buf.entries|, Some(timer))
    requires e in s.buf.entries && Buffered(e, Exec(Start, before).handles[slot])
    requires AlwaysCovers(Start, before, e.item.key) && Holds(Exec(Start, before), e.item.key)
    requires var w := Exec(Start, before);
             && CanRun(w, steps) && Undisturbed(w, steps, e.item.key, timer + cfg.Margin() / 2)
             && Enabled(Exec(w, steps), Write(later, sample))
             && KeyOf(Exec(w, steps).handles[later].snap) == e.item.key
    ensures var v := Exec(Exec(Start, before), steps);
            && v.docs.Keys <= v.hist.Keys && e.item.key.id in v.docs
            && e.item.key.id in Do(v, Write(later, sample)).docs
            && Do(v, Write(later, sample)).docs[e.item.key.id]
               == Finalized(v.docs[e.item.key.id], v.handles[later].stage.outcome, sample)
  {
    hide CanRun, Exec, AlwaysCovers, AlwaysBehind, Undisturbed, Do, Inv, PipeRuns.Reachable, Finalized, Reportable;
    var w, k := Exec(Start, before), e.item.key;
    StartIsReachable();
    ReachableWorldsAreSafe(Start);
    BehindIffCovered(Start, before, k);
    EndsBehind(Start, before, k);
    PipeRuns.FlushesInTime(cfg, s, e);
    RunKeepsInvariant(Start, before);
    CopyIsBehind(w, slot);
    UndisturbedStays(w, steps, k, timer + cfg.Margin() / 2);
    RunKeepsInvariant(w, steps);
    EveryTaskIsOnRecord(Exec(w, steps));
    AppliedWhileHeld(Exec(w, steps), later, sample);
  }
}
