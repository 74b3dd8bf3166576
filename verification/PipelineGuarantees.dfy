/** What holds of a pipelined manager in every run, in every interleaving. */
module PipelineGuarantees {
  import opened Tasks
  import opened FinalizeBuffer
  import opened Pipeline

  ghost predicate CanRun(cfg: Config, s: State, steps: seq<Step>)
    decreases |steps|
  {
    steps == [] || (Enabled(cfg, s, steps[0]) && CanRun(cfg, Do(cfg, s, steps[0]), steps[1..]))
  }

  ghost function Exec(cfg: Config, s: State, steps: seq<Step>): State
    requires CanRun(cfg, s, steps)
    decreases |steps|
  {
    if steps == [] then s else Exec(cfg, Do(cfg, s, steps[0]), steps[1..])
  }

  lemma {:induction false} RunKeepsInv(cfg: Config, s: State, steps: seq<Step>)
    requires Inv(cfg, s) && CanRun(cfg, s, steps)
    ensures Inv(cfg, Exec(cfg, s, steps))
    decreases |steps|
  {
    hide Inv, Do, Enabled;
    if steps != [] {
      StepKeepsInv(cfg, s, steps[0]);
      RunKeepsInv(cfg, Do(cfg, s, steps[0]), steps[1..]);
    }
  }

  lemma {:induction false} NobodyHolds(ws: seq<Worker>, k: Key)
    requires forall i :: 0 <= i < |ws| ==> HeldKey(ws[i]) == multiset{}
    ensures HeldKeys(ws)[k] == 0
  {
    hide HeldKey;
    if ws != [] {
      NobodyHolds(ws[1..], k);
    }
  }

  lemma StartIsOK(cfg: Config)
    requires cfg.Valid()
    ensures Inv(cfg, Start(cfg))
  {
    var s := Start(cfg);
    forall k ensures Places(s.fetcher, s.chan, s.workers, s.dropped, s.buf.entries, s.flusher, s.written, k) == 0 {
      NobodyHolds(s.workers, k);
    }
  }

  ghost predicate Reachable(cfg: Config, s: State) {
    cfg.Valid() && exists steps :: CanRun(cfg, Start(cfg), steps) && Exec(cfg, Start(cfg), steps) == s
  }

  lemma ReachableIsOK(cfg: Config, s: State)
    requires Reachable(cfg, s)
    ensures Inv(cfg, s)
  {
    hide Inv, Start;
    StartIsOK(cfg);
    var steps :| CanRun(cfg, Start(cfg), steps) && Exec(cfg, Start(cfg), steps) == s;
    RunKeepsInv(cfg, Start(cfg), steps);
  }

  lemma {:induction false} OneStepMore(cfg: Config, s: State, steps: seq<Step>, step: Step)
    requires CanRun(cfg, s, steps) && Enabled(cfg, Exec(cfg, s, steps), step)
    ensures CanRun(cfg, s, steps + [step])
    ensures Exec(cfg, s, steps + [step]) == Do(cfg, Exec(cfg, s, steps), step)
    decreases |steps|
  {
    hide Do, Enabled;
    if steps == [] {
      assert [] + [step] == [step] && [step][1..] == [];
      assert CanRun(cfg, Do(cfg, s, step), []) && Exec(cfg, Do(cfg, s, step), []) == Do(cfg, s, step);
    } else {
      OneStepMore(cfg, Do(cfg, s, steps[0]), steps[1..], step);
      assert (steps + [step])[1..] == steps[1..] + [step];
    }
  }

  /** What is reached can be gone on from, by every enabled step; and the start is
      reached, with every goroutine at the top of its loop. */
  lemma EverythingIsReached(cfg: Config, s: State, step: Step)
    requires cfg.Valid()
    ensures Reachable(cfg, Start(cfg))
    ensures var t := Start(cfg);
            && t.fetcher.Top? && t.chan == [] && t.buf.entries == [] && !t.cancelled && |t.workers| == cfg.workers
            && (forall w <- t.workers :: w.Idle?) && (t.flusher.Scan? <==> cfg.finalizeOn)
    ensures Reachable(cfg, s) && Enabled(cfg, s, step) ==> Reachable(cfg, Do(cfg, s, step))
  {
    assert CanRun(cfg, Start(cfg), []) && Exec(cfg, Start(cfg), []) == Start(cfg);
    if Reachable(cfg, s) && Enabled(cfg, s, step) {
      var steps :| CanRun(cfg, Start(cfg), steps) && Exec(cfg, Start(cfg), steps) == s;
      hide Do, Enabled, Start;
      OneStepMore(cfg, Start(cfg), steps, step);
    }
  }

  // ----- The channel -----

  /** The fetcher asks for at least one task and never for more than fits; so
      it can always put what it has got into the channel at once. */
  lemma SendsNeverBlock(cfg: Config, s: State)
    requires Reachable(cfg, s)
    ensures s.fetcher.Claiming? ==> 1 <= s.fetcher.k <= cfg.claimBatch && s.fetcher.k <= cfg.Capacity() - |s.chan|
    ensures s.fetcher.Sending? && s.fetcher.tail != [] ==> Enabled(cfg, s, FetchSend)
  {
    ReachableIsOK(cfg, s);
  }

  /** The fetcher sleeps on fetchNudge only while a nudge is there, or on its
      way, or the channel holds more tasks than there are workers. */
  lemma NeverStranded(cfg: Config, s: State)
    requires Reachable(cfg, s) && s.fetcher.Parked?
    ensures s.fetchNudge || (exists w <- s.workers :: w.Took?) || (|s.chan| == s.fetcher.seen && |s.chan| > cfg.workers)
  {
    ReachableIsOK(cfg, s);
  }

  /** Every claimed task is in exactly one place: not yet delivered, in the
      channel, with a worker, left to its lease, buffered, in a bulk write, or
      written; and nothing else is anywhere. */
  lemma InExactlyOnePlace(cfg: Config, s: State, k: Key)
    requires Reachable(cfg, s)
    ensures TailKeys(s.fetcher)[k] + Keys(s.chan)[k] + HeldKeys(s.workers)[k] + s.dropped[k]
            + EntryKeys(s.buf.entries)[k] + BatchKeys(s.flusher)[k] + s.written[k]
            == if k in s.claimed then 1 else 0
  {
    ReachableIsOK(cfg, s);
    assert Places(s.fetcher, s.chan, s.workers, s.dropped, s.buf.entries, s.flusher, s.written, k)
         == if k in s.claimed then 1 else 0;
  }

  // ----- The flusher -----

  /** No lost wake-up: a blocked flusher has seen all there is and its timer is
      set to the deadline, or has none and nothing to flush; else a wake-up is
      pending or a worker is about to send one. */
  lemma NoLostWakeUp(cfg: Config, s: State)
    requires Reachable(cfg, s) && s.flusher.Blocked?
    ensures var n := |s.buf.entries|;
            || s.finWake || (exists w <- s.workers :: w.Appended?)
            || (n == s.flusher.seen == 0 && s.flusher.timer == None)
            || (n == s.flusher.seen > 0 && n < cfg.finalizeBatch && s.flusher.timer == Some(Deadline(cfg, s.buf)))
  {
    ReachableIsOK(cfg, s);
  }

  /** Nothing is lost or invented between workers and flusher, and no outcome
      of an at-most-once task ever waits in the buffer. */
  lemma FinalizeConserves(cfg: Config, s: State)
    requires Reachable(cfg, s)
    ensures s.appended == Concat(s.flushed) + s.buf.entries
    ensures forall e <- s.appended :: e.item.maxAttempts != 1 && e.item.leasedUntil - e.gated >= cfg.Margin()
  {
    ReachableIsOK(cfg, s);
  }

  /** When the flusher has returned, every append has been flushed, all workers
      are gone, and every claim is written, dropped, or left in the channel. */
  lemma DrainIsComplete(cfg: Config, s: State, k: Key)
    requires Reachable(cfg, s) && s.flusher.Returned?
    ensures s.buf.entries == [] && s.appended == Concat(s.flushed)
    ensures forall w <- s.workers :: w.Gone?
    ensures TailKeys(s.fetcher)[k] + Keys(s.chan)[k] + s.dropped[k] + s.written[k] == if k in s.claimed then 1 else 0
  {
    ReachableIsOK(cfg, s);
    forall i | 0 <= i < |s.workers| ensures HeldKey(s.workers[i]) == multiset{} {
      assert s.workers[i] in s.workers;
    }
    NobodyHolds(s.workers, k);
    InExactlyOnePlace(cfg, s, k);
  }

  /** The timer of a flusher that has seen the whole buffer leaves half a margin
      of every buffered lease, and three quarters of the leases whose outcome
      was appended at the instant it passed the gate. */
  lemma FlushesInTime(cfg: Config, s: State, e: Entry)
    requires Reachable(cfg, s) && s.flusher.Blocked? && |s.buf.entries| == s.flusher.seen && e in s.buf.entries
    ensures s.flusher.timer.Some?
    ensures s.flusher.timer.value <= e.item.leasedUntil - cfg.Margin() / 2
    ensures e.gated == e.added ==> 4 * (e.item.leasedUntil - s.flusher.timer.value) >= 3 * cfg.Margin()
  {
    ReachableIsOK(cfg, s);
    DeadlineLeavesMargin(cfg, s.buf, e);
  }
}
