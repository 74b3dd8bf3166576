/** What each goroutine of a pipelined manager does next, and when: which tasks
    are dropped, started, buffered, written at once; how much the fetcher asks
    for; when the flusher flushes.
 */
module PipelineSteps {
  import opened Tasks
  import opened FinalizeBuffer
  import opened Pipeline
  import opened PipelineGuarantees

  // ----- The start of work -----

  /** The reply settles it: no longer ours, or no answer for the second time. */
  predicate TurnedAway(x: Worker, step: Step) {
    step.WorkerStart? && x.Starting? && (step.reply.Lost? || (step.reply.Broken? && x.tries >= 1))
  }

  /** A checked task goes on to the handshake if and only if its queue lease has
      not run out; else it is dropped, and the worker is free again. */
  lemma CheckedTaskGoesOn(cfg: Config, s: State, w: nat)
    requires Enabled(cfg, s, WorkerCheck(w))
    ensures var x, v := s.workers[w], Do(cfg, s, WorkerCheck(w));
            if s.now < x.item.leasedUntil
            then v == s.(workers := s.workers[w := Starting(x.item, 0)])
            else v == s.(workers := s.workers[w := Idle], dropped := s.dropped + multiset{x.item.key})
  {
  }

  /** A handshake that is granted always leads to work, under the deadline it was
      granted; one that is lost never does; one without an answer is tried once more. */
  lemma HandshakeDecides(cfg: Config, s: State, w: nat, reply: Reply)
    requires Enabled(cfg, s, WorkerStart(w, reply))
    ensures var x, v := s.workers[w], Do(cfg, s, WorkerStart(w, reply));
            match reply
            case Granted(until) =>
              v == s.(workers := s.workers[w := Working(Item(x.item.key, x.item.maxAttempts, until))])
            case Lost => v == s.(workers := s.workers[w := Idle], dropped := s.dropped + multiset{x.item.key})
            case Broken =>
              if x.tries == 0 then v == s.(workers := s.workers[w := Starting(x.item, 1)])
              else v == s.(workers := s.workers[w := Idle], dropped := s.dropped + multiset{x.item.key})
  {
  }

  // ----- The rest of a worker's round -----

  /** A worker takes the oldest task in the channel, nudges the fetcher, and
      checks it; a handler's own extension renews its copy of the deadline. */
  lemma WorkerTakesInOrder(cfg: Config, s: State, step: Step)
    requires Enabled(cfg, s, step)
    ensures step.WorkerTake? ==>
              && s.chan != []
              && Do(cfg, s, step) == s.(chan := s.chan[1..], workers := s.workers[step.w := Took(s.chan[0])])
    ensures step.WorkerNudge? ==>
              Do(cfg, s, step)
              == s.(fetchNudge := true, workers := s.workers[step.w := Checking(s.workers[step.w].item)])
    ensures step.WorkerExtend? ==>
              var i := s.workers[step.w].item;
              Do(cfg, s, step) == s.(workers := s.workers[step.w := Working(Item(i.key, i.maxAttempts, step.until))])
    ensures step.WorkerLeave? ==> s.cancelled && Do(cfg, s, step) == s.(workers := s.workers[step.w := Gone])
  {
  }

  /** An outcome is buffered if and only if batching is on, the task is not
      at-most-once, and its lease outlives the clock by four flush intervals and
      by two seconds; else it is written at once. */
  lemma OutcomeIsBufferedIff(cfg: Config, s: State, w: nat)
    requires Enabled(cfg, s, WorkerFinish(w))
    ensures var x, v := s.workers[w], Do(cfg, s, WorkerFinish(w));
            var margin := x.item.leasedUntil - s.now;
            if cfg.finalizeOn && x.item.maxAttempts != 1 && margin >= 4 * cfg.interval && margin >= 2_000_000_000
            then v == s.(workers := s.workers[w := Buffering(x.item, s.now)])
            else v == s.(workers := s.workers[w := Writing(x.item)])
  {
  }

  lemma OutcomeGoesOut(cfg: Config, s: State, step: Step)
    requires Enabled(cfg, s, step)
    ensures step.WorkerAppend? ==>
              var x, v := s.workers[step.w], Do(cfg, s, step);
              && v.buf.entries == s.buf.entries + [Entry(x.item, x.gated, s.now)]
              && v.appended == s.appended + [Entry(x.item, x.gated, s.now)]
              && v.workers == s.workers[step.w := Appended] && v.dropped == s.dropped && v.written == s.written
    ensures step.WorkerWake? ==> Do(cfg, s, step) == s.(finWake := true, workers := s.workers[step.w := Idle])
    ensures step.WorkerWritten? ==>
              Do(cfg, s, step)
              == s.(workers := s.workers[step.w := Idle],
                    written := s.written + multiset{s.workers[step.w].item.key})
  {
  }

  // ----- Who is dropped and who is started -----

  predicate IsWorkerStep(step: Step) {
    || step.WorkerTake? || step.WorkerNudge? || step.WorkerCheck? || step.WorkerStart? || step.WorkerExtend?
    || step.WorkerFinish? || step.WorkerAppend? || step.WorkerWake? || step.WorkerWritten? || step.WorkerLeave?
  }

  predicate IsFlusherStep(step: Step) {
    || step.FlushScan? || step.FlushTake? || step.FlushWritten? || step.FlushWoken? || step.FlushTimer?
    || step.FlushDrain? || step.CloseDone?
  }

  lemma FlusherMovesNoWorker(cfg: Config, s: State, step: Step)
    requires Enabled(cfg, s, step) && IsFlusherStep(step)
    ensures Do(cfg, s, step).workers == s.workers && Do(cfg, s, step).dropped == s.dropped
  {
    hide Do;
    if step.FlushScan? {
      ScanMovesNoWorker(cfg, s);
    } else {
      FlusherFlushes(cfg, s, step);
    }
  }

  lemma ScanMovesNoWorker(cfg: Config, s: State)
    requires Enabled(cfg, s, FlushScan)
    ensures Do(cfg, s, FlushScan).workers == s.workers && Do(cfg, s, FlushScan).dropped == s.dropped
  {
  }

  lemma OthersMoveNoWorker(cfg: Config, s: State, step: Step)
    requires Enabled(cfg, s, step) && !IsWorkerStep(step)
    ensures Do(cfg, s, step).workers == s.workers
    ensures !step.FetchExit? ==> Do(cfg, s, step).dropped == s.dropped
  {
    hide Keys, EntryKeys, Deadline, TailKeys, ScanBuffer, TakeBuffer;
    if IsFlusherStep(step) {
      FlusherMovesNoWorker(cfg, s, step);
    }
  }

  /** A worker's step moves that worker alone; it starts work only when granted,
      and drops a task only when it is not. */
  ghost predicate Lawful(s: State, step: Step, v: State)
    requires IsWorkerStep(step) && step.w < |s.workers|
  {
    var x := s.workers[step.w];
    && |v.workers| == |s.workers|
    && (forall i :: 0 <= i < |s.workers| && i != step.w ==> v.workers[i] == s.workers[i])
    && (v.workers[step.w].Working? ==>
          || (step.WorkerExtend? && x.Working?)
          || (step.WorkerStart? && x.Starting? && step.reply.Granted?
              && v.workers[step.w].item == Item(x.item.key, x.item.maxAttempts, step.reply.until)))
    && (forall k :: v.dropped[k] > s.dropped[k] ==>
          && (x.Checking? || x.Starting?) && x.item.key == k
          && ((step.WorkerCheck? && x.Checking? && x.item.leasedUntil <= s.now) || TurnedAway(x, step)))
  }

  /** A worker that goes on with no task dropped. */
  lemma QuietIsLawful(s: State, step: Step, v: State, y: Worker)
    requires IsWorkerStep(step) && step.w < |s.workers|
    requires v.workers == s.workers[step.w := y] && v.dropped == s.dropped
    requires y.Working? ==>
               var x := s.workers[step.w];
               || (step.WorkerExtend? && x.Working?)
               || (step.WorkerStart? && x.Starting? && step.reply.Granted?
                   && y.item == Item(x.item.key, x.item.maxAttempts, step.reply.until))
    ensures Lawful(s, step, v)
  {
  }

  lemma DropIsLawful(s: State, step: Step, v: State)
    requires IsWorkerStep(step) && step.w < |s.workers|
    requires s.workers[step.w].Checking? || s.workers[step.w].Starting?
    requires var x := s.workers[step.w];
             && v.workers == s.workers[step.w := Idle] && v.dropped == s.dropped + multiset{x.item.key}
             && ((step.WorkerCheck? && x.Checking? && x.item.leasedUntil <= s.now) || TurnedAway(x, step))
    ensures Lawful(s, step, v)
  {
  }

  lemma WorkerIsThere(cfg: Config, s: State, step: Step)
    requires Enabled(cfg, s, step) && IsWorkerStep(step)
    ensures step.w < |s.workers|
    ensures step.WorkerCheck? ==> s.workers[step.w].Checking?
    ensures step.WorkerStart? ==> s.workers[step.w].Starting?
    ensures step.WorkerExtend? ==> s.workers[step.w].Working?
  {
  }

  lemma StartIsLawful(cfg: Config, s: State, step: Step)
    requires Enabled(cfg, s, step) && (step.WorkerCheck? || step.WorkerStart?)
    ensures step.w < |s.workers| && Lawful(s, step, Do(cfg, s, step))
  {
    hide Do, Enabled, Lawful;
    WorkerIsThere(cfg, s, step);
    var v, w := Do(cfg, s, step), step.w;
    if step.WorkerCheck? {
      CheckedTaskGoesOn(cfg, s, w);
    } else {
      HandshakeDecides(cfg, s, w, step.reply);
    }
    if v.dropped == s.dropped {
      QuietIsLawful(s, step, v, v.workers[w]);
    } else {
      DropIsLawful(s, step, v);
    }
  }

  lemma RoundIsLawful(cfg: Config, s: State, step: Step)
    requires Enabled(cfg, s, step) && IsWorkerStep(step) && !step.WorkerCheck? && !step.WorkerStart?
    ensures step.w < |s.workers| && Lawful(s, step, Do(cfg, s, step))
  {
    hide Do, Enabled, Lawful;
    WorkerIsThere(cfg, s, step);
    var v, w := Do(cfg, s, step), step.w;
    if step.WorkerFinish? {
      OutcomeIsBufferedIff(cfg, s, w);
    } else if step.WorkerAppend? || step.WorkerWake? || step.WorkerWritten? {
      OutcomeGoesOut(cfg, s, step);
    } else {
      WorkerTakesInOrder(cfg, s, step);
    }
    QuietIsLawful(s, step, v, v.workers[w]);
  }

  lemma WorkersAreLawful(cfg: Config, s: State, step: Step)
    requires Enabled(cfg, s, step) && IsWorkerStep(step)
    ensures step.w < |s.workers| && Lawful(s, step, Do(cfg, s, step))
  {
    hide Do, Enabled, Lawful;
    if step.WorkerCheck? || step.WorkerStart? {
      StartIsLawful(cfg, s, step);
    } else {
      RoundIsLawful(cfg, s, step);
    }
  }

  /** A task leaves a worker for its lease to bring back only if its queue lease
      had run out by the worker's clock, or the store turned it away; the fetcher
      leaves behind only what it cannot hand on when it exits. */
  lemma DroppedOnlyWhenLost(cfg: Config, s: State, step: Step, k: Key)
    requires Enabled(cfg, s, step) && Do(cfg, s, step).dropped[k] > s.dropped[k]
    ensures if step.FetchExit?
            then s.fetcher.Sending? && exists i :: 0 <= i < |s.fetcher.tail| && s.fetcher.tail[i].key == k
            else
              && (step.WorkerCheck? || step.WorkerStart?) && step.w < |s.workers|
              && var x := s.workers[step.w];
                 && (x.Checking? || x.Starting?) && x.item.key == k
                 && (step.WorkerCheck? ==> x.item.leasedUntil <= s.now)
                 && (step.WorkerStart? ==> TurnedAway(x, step))
  {
    if step.FetchExit? {
      KeysCount(if s.fetcher.Sending? then s.fetcher.tail else [], k);
    } else {
      hide Do, Enabled;
      if IsWorkerStep(step) {
        WorkersAreLawful(cfg, s, step);
      } else {
        OthersMoveNoWorker(cfg, s, step);
      }
    }
  }

  /** And nothing else starts work: a worker that was not working and now is has
      just been granted its task, and knows the deadline. */
  lemma WorkIsGranted(cfg: Config, s: State, step: Step, w: nat)
    requires Enabled(cfg, s, step) && w < |s.workers|
    ensures w < |Do(cfg, s, step).workers|
    ensures Do(cfg, s, step).workers[w].Working? && !s.workers[w].Working? ==>
              && step.WorkerStart? && step.w == w && step.reply.Granted? && s.workers[w].Starting?
              && Do(cfg, s, step).workers[w].item
                 == Item(s.workers[w].item.key, s.workers[w].item.maxAttempts, step.reply.until)
  {
    hide Do, Enabled;
    if IsWorkerStep(step) {
      WorkersAreLawful(cfg, s, step);
    } else {
      OthersMoveNoWorker(cfg, s, step);
    }
  }

  // ----- The fetcher -----

  /** The fetcher parks if and only if less than half a batch would fit into the
      channel; else it asks for a batch, or for as much as fits. */
  lemma FetcherAsks(cfg: Config, s: State)
    requires cfg.Valid() && Enabled(cfg, s, FetchLook)
    ensures var free, v := cfg.workers + cfg.claimBatch - |s.chan|, Do(cfg, s, FetchLook);
            if free < 1 || 2 * free + 1 < cfg.claimBatch then v == s.(fetcher := Parked(|s.chan|))
            else v == s.(fetcher := Claiming(if free < cfg.claimBatch then free else cfg.claimBatch))
  {
  }

  /** What a claim brings is sent in order, all of it; without any the fetcher
      idles, and then looks again. */
  lemma FetcherSends(cfg: Config, s: State, step: Step)
    requires Enabled(cfg, s, step)
    ensures step.FetchClaimed? && step.items != [] ==> Do(cfg, s, step).fetcher == Sending(step.items)
    ensures step.FetchClaimed? ==>
              && (forall k :: k in Do(cfg, s, step).claimed <==> k in s.claimed || exists x <- step.items :: x.key == k)
              && Do(cfg, s, step).chan == s.chan
    ensures (step.FetchClaimed? && step.items == []) || step.FetchNothing? ==> Do(cfg, s, step).fetcher == Idling
    ensures step.FetchSend? ==>
              && s.fetcher.tail != []
              && Do(cfg, s, step) == s.(chan := s.chan + [s.fetcher.tail[0]], fetcher := Sending(s.fetcher.tail[1..]))
    ensures step.FetchSent? || step.FetchResume? ==> Do(cfg, s, step) == s.(fetcher := Top)
    ensures step.FetchNudged? ==> Do(cfg, s, step) == s.(fetcher := Top, fetchNudge := false)
  {
  }

  // ----- The flusher -----

  /** The flush is due: a full batch, an interval since the oldest entry, or half
      a margin before a buffered lease runs out. */
  ghost predicate FlushIsDue(cfg: Config, buf: Buffer, now: int) {
    && buf.entries != []
    && (|buf.entries| >= cfg.finalizeBatch
        || now >= buf.entries[0].added + cfg.interval
        || exists e <- buf.entries :: now >= e.item.leasedUntil - cfg.Margin() / 2)
  }

  lemma DeadlineIsExact(cfg: Config, buf: Buffer, now: int)
    requires Truthful(buf) && buf.entries != []
    ensures now >= Deadline(cfg, buf) <==>
              || now >= buf.entries[0].added + cfg.interval
              || exists e <- buf.entries :: now >= e.item.leasedUntil - cfg.Margin() / 2
  {
  }

  /** Which settings a manager starts with. */
  lemma SettingsAre(cfg: Config)
    ensures cfg.Valid() <==>
              && cfg.workers > 0 && cfg.claimBatch > 0 && cfg.claimBatch < 101
              && (cfg.finalizeOn ==> cfg.finalizeBatch > 1 && cfg.finalizeBatch < 1001 && cfg.interval > 0)
  {
  }

  lemma MarginIs(cfg: Config)
    ensures cfg.Margin() >= 4 * cfg.interval && cfg.Margin() >= 2_000_000_000
    ensures cfg.Margin() == 4 * cfg.interval || cfg.Margin() == 2_000_000_000
  {
  }

  /** The flusher's look: it goes to flush if and only if that is due; else it
      blocks, having seen the buffer as it is, with a timer for when it will be. */
  lemma FlusherLooks(cfg: Config, s: State)
    requires Reachable(cfg, s) && Enabled(cfg, s, FlushScan)
    ensures var v := Do(cfg, s, FlushScan);
            if FlushIsDue(cfg, s.buf, s.now) then v == s.(flusher := Taking(false))
            else
              && v.flusher.Blocked? && v == s.(flusher := v.flusher) && v.flusher.seen == |s.buf.entries|
              && (v.flusher.timer.None? <==> s.buf.entries == [])
              && (v.flusher.timer.Some? ==>
                    && s.now < v.flusher.timer.value
                    && forall now :: FlushIsDue(cfg, s.buf, now) <==> now >= v.flusher.timer.value)
  {
    ReachableIsOK(cfg, s);
    if s.buf.entries != [] {
      forall now: int
        ensures FlushIsDue(cfg, s.buf, now) <==> |s.buf.entries| >= cfg.finalizeBatch || now >= Deadline(cfg, s.buf)
      {
        DeadlineIsExact(cfg, s.buf, now);
      }
    }
  }

  /** A flush takes everything there is and writes each entry once; the wake-up,
      the timer and the end of the workers each set it off, the last for good. */
  lemma FlusherFlushes(cfg: Config, s: State, step: Step)
    requires Enabled(cfg, s, step)
    ensures step.FlushTake? && s.buf.entries != [] ==>
              var v := Do(cfg, s, step);
              && v.buf.entries == [] && v.flusher == Flushing(s.buf.entries, s.flusher.drain)
              && v.flushed == s.flushed + [s.buf.entries] && v.written == s.written && v.workers == s.workers
              && v.dropped == s.dropped
    ensures step.FlushTake? && s.buf.entries == [] ==>
              Do(cfg, s, step) == s.(flusher := if s.flusher.drain then Returned else Scan)
    ensures step.FlushWritten? ==>
              && Do(cfg, s, step).flusher == (if s.flusher.drain then Returned else Scan)
              && Do(cfg, s, step).buf == s.buf && Do(cfg, s, step).workers == s.workers
              && Do(cfg, s, step).dropped == s.dropped
              && forall k :: Do(cfg, s, step).written[k] == s.written[k] + EntryKeys(s.flusher.batch)[k]
    ensures step.FlushWoken? ==> s.finWake && Do(cfg, s, step) == s.(flusher := Scan, finWake := false)
    ensures step.FlushTimer? ==> s.flusher.timer.value <= s.now && Do(cfg, s, step) == s.(flusher := Scan)
    ensures step.FlushDrain? ==> s.workersDone && Do(cfg, s, step) == s.(flusher := Taking(true))
    ensures step.CloseDone? ==> Do(cfg, s, step) == s.(workersDone := true)
  {
  }

  // ----- What may happen -----

  /** A claim may bring any tasks it has not brought before, stale or not, up to
      as many as asked for, or fail; the store may answer a handshake in any way;
      the fetcher may be cut off anywhere once the manager is cancelled. */
  lemma StoreMayDoAnything(cfg: Config, s: State, step: Step)
    ensures step.Tick? ==> Enabled(cfg, s, step) && Do(cfg, s, step) == s.(now := s.now + step.d)
    ensures step.Cancel? ==> (Enabled(cfg, s, step) <==> !s.cancelled)
    ensures step.FetchLook? ==> (Enabled(cfg, s, step) <==> s.fetcher.Top? && !s.cancelled)
    ensures step.FetchClaimed? ==>
              (Enabled(cfg, s, step) <==>
                 && s.fetcher.Claiming? && |step.items| <= s.fetcher.k
                 && (forall i, j :: 0 <= i < j < |step.items| ==> step.items[i].key != step.items[j].key)
                 && (forall i :: 0 <= i < |step.items| ==> step.items[i].key !in s.claimed))
    ensures step.FetchNothing? ==> (Enabled(cfg, s, step) <==> s.fetcher.Claiming?)
    ensures step.FetchSend? ==>
              (Enabled(cfg, s, step) <==>
                 s.fetcher.Sending? && s.fetcher.tail != [] && |s.chan| < cfg.workers + cfg.claimBatch)
    ensures step.FetchSent? ==> (Enabled(cfg, s, step) <==> s.fetcher.Sending? && s.fetcher.tail == [])
    ensures step.FetchNudged? ==> (Enabled(cfg, s, step) <==> s.fetcher.Parked? && s.fetchNudge)
    ensures step.FetchResume? ==> (Enabled(cfg, s, step) <==> s.fetcher.Idling?)
    ensures step.FetchExit? ==> (Enabled(cfg, s, step) <==> s.cancelled && !s.fetcher.Exited?)
  {
  }

  /** A worker moves on whenever its round lets it, and leaves only when it is
      idle and the manager cancelled; the flusher waits for nothing but its timer,
      a wake-up or the end of the workers. */
  lemma WorkersAndFlusherMove(cfg: Config, s: State, step: Step)
    ensures IsWorkerStep(step) && step.w < |s.workers| ==>
              var x := s.workers[step.w];
              (Enabled(cfg, s, step) <==>
                 match step
                 case WorkerTake(_) => x.Idle? && s.chan != []
                 case WorkerNudge(_) => x.Took?
                 case WorkerCheck(_) => x.Checking?
                 case WorkerStart(_, _) => x.Starting?
                 case WorkerExtend(_, _) => x.Working?
                 case WorkerFinish(_) => x.Working?
                 case WorkerAppend(_) => x.Buffering?
                 case WorkerWake(_) => x.Appended?
                 case WorkerWritten(_) => x.Writing?
                 case _ => x.Idle? && s.cancelled)
    ensures step.CloseDone? ==> (Enabled(cfg, s, step) <==> !s.workersDone && forall w <- s.workers :: w.Gone?)
    ensures step.FlushScan? ==> (Enabled(cfg, s, step) <==> s.flusher.Scan?)
    ensures step.FlushTake? ==> (Enabled(cfg, s, step) <==> s.flusher.Taking?)
    ensures step.FlushWritten? ==> (Enabled(cfg, s, step) <==> s.flusher.Flushing?)
    ensures step.FlushWoken? ==> (Enabled(cfg, s, step) <==> s.flusher.Blocked? && s.finWake)
    ensures step.FlushTimer? ==>
              (Enabled(cfg, s, step) <==> s.flusher.Blocked? && s.flusher.timer.Some? && s.flusher.timer.value <= s.now)
    ensures step.FlushDrain? ==> (Enabled(cfg, s, step) <==> s.flusher.Blocked? && s.workersDone)
  {
  }
}
