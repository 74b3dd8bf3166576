/** Stop: once claiming is cancelled, a pipelined manager comes to rest after a
    bounded number of steps, with its buffer drained.
 */
module PipelineStop {
  import opened Tasks
  import opened FinalizeBuffer
  import opened Pipeline
  import opened PipelineGuarantees

  function FetcherWeight(f: Fetcher): nat {
    match f
    case Exited => 0
    case Top => 1
    case Idling => 2
    case Parked(_) => 2
    case Sending(tail) => 2 + 27 * |tail|
    case Claiming(k) => 3 + 27 * k
  }

  function WorkerWeight(w: Worker): nat {
    match w
    case Gone => 0
    case Idle => 1
    case Writing(_) => 2
    case Appended => 5
    case Buffering(_, _) => 20
    case Working(_) => 21
    case Starting(_, tries) => if tries == 0 then 23 else 22
    case Checking(_) => 24
    case Took(_) => 25
  }

  function WorkersWeight(ws: seq<Worker>): nat {
    if ws == [] then 0 else WorkerWeight(ws[0]) + WorkersWeight(ws[1..])
  }

  predicate Due(cfg: Config, now: int, buf: Buffer) {
    |buf.entries| >= cfg.finalizeBatch || (buf.entries != [] && now >= Deadline(cfg, buf))
  }

  function FlusherWeight(cfg: Config, now: int, buf: Buffer, f: Flusher): nat {
    match f
    case Absent => 0
    case Returned => 0
    case Taking(_) => 1
    case Scan => if Due(cfg, now, buf) then 2 else 4
    case Blocked(_, _) => 3
    case Flushing(_, _) => 5
  }

  /** What is left to do once nothing new is claimed. */
  function Remaining(cfg: Config, s: State): nat {
    FetcherWeight(s.fetcher) + 26 * |s.chan| + WorkersWeight(s.workers) + (if s.finWake then 2 else 0)
    + 10 * |s.buf.entries| + FlusherWeight(cfg, s.now, s.buf, s.flusher) + (if s.workersDone then 0 else 1)
  }

  lemma {:induction false} WeightSet(ws: seq<Worker>, i: nat, x: Worker)
    requires i < |ws|
    ensures WorkersWeight(ws[i := x]) + WorkerWeight(ws[i]) == WorkersWeight(ws) + WorkerWeight(x)
  {
    hide WorkerWeight;
    var more := ws[i := x];
    if i == 0 {
      assert more[1..] == ws[1..];
    } else {
      WeightSet(ws[1..], i - 1, x);
      assert more[1..] == ws[1..][i - 1 := x] && more[0] == ws[0];
    }
  }

  lemma AppendsAreSoonerDue(cfg: Config, s: State, e: Entry)
    ensures FlusherWeight(cfg, s.now, Append(s.buf, e), s.flusher) <= FlusherWeight(cfg, s.now, s.buf, s.flusher)
  {
  }

  lemma FetcherWinds(cfg: Config, s: State, step: Step)
    requires Inv(cfg, s) && Enabled(cfg, s, step) && s.cancelled
    requires step in {FetchNothing, FetchSend, FetchSent, FetchNudged, FetchResume, FetchExit} || step.FetchClaimed?
    ensures Remaining(cfg, Do(cfg, s, step)) < Remaining(cfg, s)
  {
    hide Inv, WorkersWeight, FlusherWeight;
  }

  /** The shared parts stay; only the worker's weight changes. */
  lemma SettingWinds(cfg: Config, s: State, w: nat, x: Worker)
    requires At(s, w)
    ensures Remaining(cfg, SetWorker(s, w, x)) + WorkerWeight(s.workers[w]) == Remaining(cfg, s) + WorkerWeight(x)
  {
    hide WorkersWeight, FlusherWeight, FetcherWeight, WorkerWeight;
    WeightSet(s.workers, w, x);
  }

  lemma StartOfWorkWinds(cfg: Config, s: State, w: nat, reply: Reply)
    requires At(s, w)
    ensures s.workers[w].Checking? ==> Remaining(cfg, Check(s, w)) < Remaining(cfg, s)
    ensures s.workers[w].Starting? ==> Remaining(cfg, Begin(s, w, reply)) < Remaining(cfg, s)
  {
    hide Remaining;
    SettingWinds(cfg, s, w, Idle);
    var x := s.workers[w];
    if x.Checking? {
      SettingWinds(cfg, s, w, Starting(x.item, 0));
      DroppingWinds(cfg, SetWorker(s, w, Idle), s.dropped + multiset{x.item.key});
    } else if x.Starting? {
      SettingWinds(cfg, s, w, Starting(x.item, x.tries + 1));
      DroppingWinds(cfg, SetWorker(s, w, Idle), s.dropped + multiset{x.item.key});
      if reply.Granted? {
        SettingWinds(cfg, s, w, Working(x.item.(leasedUntil := reply.until)));
      }
    }
  }

  lemma DroppingWinds(cfg: Config, s: State, keys: multiset<Key>)
    ensures Remaining(cfg, s.(dropped := keys)) == Remaining(cfg, s.(written := keys)) == Remaining(cfg, s)
    ensures Remaining(cfg, s.(fetchNudge := true)) == Remaining(cfg, s)
    ensures Remaining(cfg, s.(finWake := true)) <= Remaining(cfg, s) + 2
    ensures s.chan != [] ==> Remaining(cfg, s.(chan := s.chan[1..])) == Remaining(cfg, s) - 26
  {
    hide WorkersWeight, FlusherWeight, FetcherWeight;
  }

  lemma OutcomeWinds(cfg: Config, s: State, w: nat)
    requires At(s, w)
    ensures s.workers[w].Working? ==> Remaining(cfg, Finish(cfg, s, w)) < Remaining(cfg, s)
    ensures s.workers[w].Buffering? ==> Remaining(cfg, AppendOutcome(s, w)) < Remaining(cfg, s)
  {
    hide WorkersWeight, FlusherWeight, FetcherWeight, ShouldBuffer;
    var x := s.workers[w];
    if x.Working? {
      var y := if ShouldBuffer(cfg, x.item, s.now) then Buffering(x.item, s.now) else Writing(x.item);
      SettingWinds(cfg, s, w, y);
      assert Finish(cfg, s, w) == SetWorker(s, w, y);
    } else if x.Buffering? {
      SettingWinds(cfg, s, w, Appended);
      AppendsAreSoonerDue(cfg, s, Entry(x.item, x.gated, s.now));
    }
  }

  lemma WorkerWinds(cfg: Config, s: State, step: Step)
    requires Enabled(cfg, s, step) && s.cancelled
    requires step.WorkerTake? || step.WorkerNudge? || step.WorkerCheck? || step.WorkerStart? || step.WorkerFinish?
             || step.WorkerAppend? || step.WorkerWake? || step.WorkerWritten? || step.WorkerLeave?
    ensures Remaining(cfg, Do(cfg, s, step)) < Remaining(cfg, s)
  {
    hide Remaining, Check, Begin, Finish, AppendOutcome;
    var w, x := step.w, s.workers[step.w];
    if step.WorkerCheck? || step.WorkerStart? {
      StartOfWorkWinds(cfg, s, w, if step.WorkerStart? then step.reply else Lost);
    } else if step.WorkerFinish? || step.WorkerAppend? {
      OutcomeWinds(cfg, s, w);
    } else if step.WorkerTake? {
      SettingWinds(cfg, s, w, Took(s.chan[0]));
      DroppingWinds(cfg, SetWorker(s, w, Took(s.chan[0])), s.dropped);
    } else if step.WorkerNudge? {
      SettingWinds(cfg, s, w, Checking(x.item));
      DroppingWinds(cfg, SetWorker(s, w, Checking(x.item)), s.dropped);
    } else if step.WorkerLeave? {
      SettingWinds(cfg, s, w, Gone);
    } else {
      SettingWinds(cfg, s, w, Idle);
      DroppingWinds(cfg, SetWorker(s, w, Idle),
          if step.WorkerWritten? then s.written + multiset{x.item.key} else s.dropped);
    }
  }

  lemma StaysCancelled(cfg: Config, s: State, step: Step)
    requires Enabled(cfg, s, step) && s.cancelled
    ensures Do(cfg, s, step).cancelled
  {
    hide Keys, TailKeys, EntryKeys, Append, Deadline, ShouldBuffer;
  }

  lemma FlusherWinds(cfg: Config, s: State, step: Step)
    requires Inv(cfg, s) && Enabled(cfg, s, step) && s.cancelled
    requires step in {CloseDone, FlushScan, FlushTake, FlushWritten, FlushWoken, FlushTimer, FlushDrain}
    ensures Remaining(cfg, Do(cfg, s, step)) < Remaining(cfg, s)
  {
    hide WorkersWeight, FetcherWeight, Deadline, ChannelOK, NudgeOK, BufferOK, DrainOK, Accounted, LogOK;
  }

  /** The clock ticks and handlers extend their leases as they please; every
      other step is a move. */
  predicate IsMove(step: Step) { !step.Tick? && !step.WorkerExtend? }

  lemma ExtendingIsIdle(cfg: Config, s: State, w: nat, until: int)
    requires At(s, w) && s.workers[w].Working?
    ensures Remaining(cfg, SetWorker(s, w, Working(s.workers[w].item.(leasedUntil := until)))) == Remaining(cfg, s)
  {
    hide Remaining;
    SettingWinds(cfg, s, w, Working(s.workers[w].item.(leasedUntil := until)));
  }

  /** After cancellation every move brings the end nearer. */
  lemma StopWindsDown(cfg: Config, s: State, step: Step)
    requires Inv(cfg, s) && Enabled(cfg, s, step) && s.cancelled
    ensures Do(cfg, s, step).cancelled
    ensures if IsMove(step) then Remaining(cfg, Do(cfg, s, step)) < Remaining(cfg, s)
            else Remaining(cfg, Do(cfg, s, step)) <= Remaining(cfg, s)
  {
    hide Inv, WorkersWeight, FetcherWeight, Look, AppendOutcome, ScanBuffer, TakeBuffer, Begin, Check, Finish;
    StaysCancelled(cfg, s, step);
    if step.Tick? {
    } else if step.WorkerExtend? {
      ExtendingIsIdle(cfg, s, step.w, step.until);
    } else if step in {FetchNothing, FetchSend, FetchSent, FetchNudged, FetchResume, FetchExit} || step.FetchClaimed? {
      FetcherWinds(cfg, s, step);
    } else if step in {CloseDone, FlushScan, FlushTake, FlushWritten, FlushWoken, FlushTimer, FlushDrain} {
      FlusherWinds(cfg, s, step);
    } else {
      WorkerWinds(cfg, s, step);
    }
  }

  predicate AtRest(s: State) {
    && s.fetcher.Exited? && (forall w <- s.workers :: w.Gone?)
    && (s.flusher.Absent? || s.flusher.Returned?)
  }

  /** ... and as long as a goroutine is left, one of them can move. */
  lemma StopNeverStalls(cfg: Config, s: State)
    requires Inv(cfg, s) && s.cancelled && !AtRest(s)
    ensures exists step: Step :: IsMove(step) && Enabled(cfg, s, step)
  {
    hide Inv;
    if !s.fetcher.Exited? {
      assert Enabled(cfg, s, FetchExit);
    } else if w :| 0 <= w < |s.workers| && !s.workers[w].Gone? {
      WorkerCanMove(cfg, s, w);
    } else if !s.workersDone {
      assert Enabled(cfg, s, CloseDone);
    } else {
      match s.flusher {
        case Scan => assert Enabled(cfg, s, FlushScan);
        case Taking(_) => assert Enabled(cfg, s, FlushTake);
        case Flushing(_, _) => assert Enabled(cfg, s, FlushWritten);
        case Blocked(_, _) => assert Enabled(cfg, s, FlushDrain);
        case _ =>
      }
    }
  }

  lemma WorkerCanMove(cfg: Config, s: State, w: nat)
    requires At(s, w) && s.cancelled && !s.workers[w].Gone?
    ensures exists step: Step :: IsMove(step) && Enabled(cfg, s, step)
  {
    match s.workers[w] {
      case Idle => assert Enabled(cfg, s, WorkerLeave(w));
      case Took(_) => assert Enabled(cfg, s, WorkerNudge(w));
      case Checking(_) => assert Enabled(cfg, s, WorkerCheck(w));
      case Starting(_, _) => assert Enabled(cfg, s, WorkerStart(w, Lost));
      case Working(_) => assert Enabled(cfg, s, WorkerFinish(w));
      case Buffering(_, _) => assert Enabled(cfg, s, WorkerAppend(w));
      case Appended => assert Enabled(cfg, s, WorkerWake(w));
      case Writing(_) => assert Enabled(cfg, s, WorkerWritten(w));
    }
  }

  function Moves(steps: seq<Step>): nat {
    if steps == [] then 0 else (if IsMove(steps[0]) then 1 else 0) + Moves(steps[1..])
  }

  /** So no run after cancellation makes more than `Remaining` moves, whatever the interleaving. */
  lemma {:induction false} StopTerminates(cfg: Config, s: State, steps: seq<Step>)
    requires Inv(cfg, s) && s.cancelled && CanRun(cfg, s, steps)
    ensures Moves(steps) <= Remaining(cfg, s)
    decreases |steps|
  {
    hide Inv, Do, Enabled, Remaining;
    if steps != [] {
      StopWindsDown(cfg, s, steps[0]);
      StepKeepsInv(cfg, s, steps[0]);
      StopTerminates(cfg, Do(cfg, s, steps[0]), steps[1..]);
    }
  }
}
