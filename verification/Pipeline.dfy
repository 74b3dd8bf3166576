/** One manager in pipeline mode, goroutine by goroutine: the fetcher, the
    workers, the flusher, and what they share -- the task channel, the two
    one-slot wake-up channels, the finalize buffer.  Every goroutine moves one
    step at a time, in any interleaving.
 */
module Pipeline {
  import opened Tasks
  import opened FinalizeBuffer

  datatype Fetcher =
    | Top
    | Parked(seen: nat)            // waiting for fetchNudge; `seen` was len(taskCh)
    | Claiming(k: nat)
    | Sending(tail: seq<Item>)
    | Idling
    | Exited

  datatype Worker =
    | Idle
    | Took(item: Item)             // received, has yet to nudge the fetcher
    | Checking(item: Item)
    | Starting(item: Item, tries: nat)
    | Working(item: Item)
    | Buffering(item: Item, gated: int)
    | Appended                     // appended, has yet to wake the flusher
    | Writing(item: Item)
    | Gone

  datatype Flusher =
    | Absent
    | Scan
    | Taking(drain: bool)
    | Flushing(batch: seq<Entry>, drain: bool)
    | Blocked(seen: nat, timer: Option<int>)
    | Returned

  /** What the store says to the start-of-work ExtendLease. */
  datatype Reply = Granted(until: int) | Lost | Broken

  datatype State = State(
    now: int,
    cancelled: bool,
    fetcher: Fetcher,
    chan: seq<Item>,
    fetchNudge: bool,
    workers: seq<Worker>,
    buf: Buffer,
    finWake: bool,
    workersDone: bool,
    flusher: Flusher,
    claimed: set<Key>,             // history: what the claims brought in,
    dropped: multiset<Key>,        // what was left to its lease,
    written: multiset<Key>,        // what was sent to the store,
    appended: seq<Entry>,          // every append, in order,
    flushed: seq<seq<Entry>>)      // every batch taken, in order

  datatype Step =
    | Tick(d: nat)
    | Cancel
    | FetchLook
    | FetchClaimed(items: seq<Item>)
    | FetchNothing
    | FetchSend
    | FetchSent
    | FetchNudged
    | FetchResume
    | FetchExit
    | WorkerTake(w: nat)
    | WorkerNudge(w: nat)
    | WorkerCheck(w: nat)
    | WorkerStart(w: nat, reply: Reply)
    | WorkerExtend(w: nat, until: int)
    | WorkerFinish(w: nat)
    | WorkerAppend(w: nat)
    | WorkerWake(w: nat)
    | WorkerWritten(w: nat)
    | WorkerLeave(w: nat)
    | CloseDone
    | FlushScan
    | FlushTake
    | FlushWritten
    | FlushWoken
    | FlushTimer
    | FlushDrain

  function Start(cfg: Config): State {
    State(0, false, Top, [], false, seq(cfg.workers, _ => Idle), Buffer([], 0, 0), false, false,
          if cfg.finalizeOn then Scan else Absent, {}, multiset{}, multiset{}, [], [])
  }

  // ----- Where tasks are -----

  function Keys(items: seq<Item>): multiset<Key> {
    if items == [] then multiset{} else multiset{items[0].key} + Keys(items[1..])
  }

  function EntryKeys(es: seq<Entry>): multiset<Key> {
    if es == [] then multiset{} else multiset{es[0].item.key} + EntryKeys(es[1..])
  }

  function TailKeys(f: Fetcher): multiset<Key> {
    if f.Sending? then Keys(f.tail) else multiset{}
  }

  function HeldKey(w: Worker): multiset<Key> {
    match w
    case Idle => multiset{}
    case Appended => multiset{}
    case Gone => multiset{}
    case _ => multiset{w.item.key}
  }

  function HeldKeys(ws: seq<Worker>): multiset<Key> {
    if ws == [] then multiset{} else HeldKey(ws[0]) + HeldKeys(ws[1..])
  }

  function BatchKeys(f: Flusher): multiset<Key> {
    if f.Flushing? then EntryKeys(f.batch) else multiset{}
  }

  function Concat(batches: seq<seq<Entry>>): seq<Entry> {
    if batches == [] then [] else Concat(batches[..|batches| - 1]) + batches[|batches| - 1]
  }

  // ----- Steps -----

  predicate At(s: State, w: nat) { w < |s.workers| }

  ghost predicate Enabled(cfg: Config, s: State, step: Step) {
    match step
    case Tick(_) => true
    case Cancel => !s.cancelled
    case FetchLook => s.fetcher.Top? && !s.cancelled
    case FetchClaimed(items) =>
      && s.fetcher.Claiming? && |items| <= s.fetcher.k
      && (forall i, j :: 0 <= i < j < |items| ==> items[i].key != items[j].key)
      && (forall i :: 0 <= i < |items| ==> items[i].key !in s.claimed)
    case FetchNothing => s.fetcher.Claiming?
    case FetchSend => s.fetcher.Sending? && s.fetcher.tail != [] && |s.chan| < cfg.Capacity()
    case FetchSent => s.fetcher.Sending? && s.fetcher.tail == []
    case FetchNudged => s.fetcher.Parked? && s.fetchNudge
    case FetchResume => s.fetcher.Idling?
    case FetchExit => s.cancelled && !s.fetcher.Exited?
    case WorkerTake(w) => At(s, w) && s.workers[w].Idle? && s.chan != []
    case WorkerNudge(w) => At(s, w) && s.workers[w].Took?
    case WorkerCheck(w) => At(s, w) && s.workers[w].Checking?
    case WorkerStart(w, _) => At(s, w) && s.workers[w].Starting?
    case WorkerExtend(w, _) => At(s, w) && s.workers[w].Working?
    case WorkerFinish(w) => At(s, w) && s.workers[w].Working?
    case WorkerAppend(w) => At(s, w) && s.workers[w].Buffering?
    case WorkerWake(w) => At(s, w) && s.workers[w].Appended?
    case WorkerWritten(w) => At(s, w) && s.workers[w].Writing?
    case WorkerLeave(w) => At(s, w) && s.workers[w].Idle? && s.cancelled
    case CloseDone => !s.workersDone && forall w <- s.workers :: w.Gone?
    case FlushScan => s.flusher.Scan?
    case FlushTake => s.flusher.Taking?
    case FlushWritten => s.flusher.Flushing?
    case FlushWoken => s.flusher.Blocked? && s.finWake
    case FlushTimer => s.flusher.Blocked? && s.flusher.timer.Some? && s.flusher.timer.value <= s.now
    case FlushDrain => s.flusher.Blocked? && s.workersDone
  }

  /** The loop head: park when the channel is nearly full, else claim. */
  function Look(cfg: Config, s: State): State {
    var free: int := cfg.Capacity() - |s.chan|;
    if free < cfg.LowWater() then s.(fetcher := Parked(|s.chan|))
    else s.(fetcher := Claiming(if cfg.claimBatch <= free then cfg.claimBatch else free))
  }

  function SetWorker(s: State, w: nat, x: Worker): State
    requires At(s, w)
  {
    s.(workers := s.workers[w := x])
  }

  function Abandon(s: State, w: nat, key: Key): State
    requires At(s, w)
  {
    SetWorker(s, w, Idle).(dropped := s.dropped + multiset{key})
  }

  /** startOfWork: a queue lease that has visibly run out means somebody else's task, ... */
  function Check(s: State, w: nat): State
    requires At(s, w) && s.workers[w].Checking?
  {
    var item := s.workers[w].item;
    if s.now >= item.leasedUntil then Abandon(s, w, item.key) else SetWorker(s, w, Starting(item, 0))
  }

  /** ... else one ExtendLease decides, tried twice. */
  function Begin(s: State, w: nat, reply: Reply): State
    requires At(s, w) && s.workers[w].Starting?
  {
    var item, tries := s.workers[w].item, s.workers[w].tries;
    match reply
    case Granted(until) => SetWorker(s, w, Working(item.(leasedUntil := until)))
    case Lost => Abandon(s, w, item.key)
    case Broken => if tries + 1 >= 2 then Abandon(s, w, item.key) else SetWorker(s, w, Starting(item, tries + 1))
  }

  /** The handler is done: buffer its outcome, or write it at once. */
  function Finish(cfg: Config, s: State, w: nat): State
    requires At(s, w) && s.workers[w].Working?
  {
    var item := s.workers[w].item;
    SetWorker(s, w, if ShouldBuffer(cfg, item, s.now) then Buffering(item, s.now) else Writing(item))
  }

  function AppendOutcome(s: State, w: nat): State
    requires At(s, w) && s.workers[w].Buffering?
  {
    var e := Entry(s.workers[w].item, s.workers[w].gated, s.now);
    SetWorker(s, w, Appended).(buf := Append(s.buf, e), appended := s.appended + [e])
  }

  function ScanBuffer(cfg: Config, s: State): State {
    var n, d := |s.buf.entries|, Deadline(cfg, s.buf);
    if n >= cfg.finalizeBatch || (n > 0 && s.now >= d) then s.(flusher := Taking(false))
    else s.(flusher := Blocked(n, if n > 0 then Some(d) else None))
  }

  function TakeBuffer(s: State): State
    requires s.flusher.Taking?
  {
    if s.buf.entries == [] then s.(flusher := if s.flusher.drain then Returned else Scan)
    else s.(buf := Emptied(s.buf), flushed := s.flushed + [s.buf.entries],
            flusher := Flushing(s.buf.entries, s.flusher.drain))
  }

  function Do(cfg: Config, s: State, step: Step): State
    requires Enabled(cfg, s, step)
  {
    match step
    case Tick(d) => s.(now := s.now + d)
    case Cancel => s.(cancelled := true)
    case FetchLook => Look(cfg, s)
    case FetchClaimed(items) =>
      s.(fetcher := if items == [] then Idling else Sending(items), claimed := s.claimed + set x <- items :: x.key)
    case FetchNothing => s.(fetcher := Idling)
    case FetchSend => s.(chan := s.chan + [s.fetcher.tail[0]], fetcher := Sending(s.fetcher.tail[1..]))
    case FetchSent => s.(fetcher := Top)
    case FetchNudged => s.(fetcher := Top, fetchNudge := false)
    case FetchResume => s.(fetcher := Top)
    case FetchExit => s.(fetcher := Exited, dropped := s.dropped + TailKeys(s.fetcher))
    case WorkerTake(w) => SetWorker(s, w, Took(s.chan[0])).(chan := s.chan[1..])
    case WorkerNudge(w) => SetWorker(s, w, Checking(s.workers[w].item)).(fetchNudge := true)
    case WorkerCheck(w) => Check(s, w)
    case WorkerStart(w, reply) => Begin(s, w, reply)
    case WorkerExtend(w, until) => SetWorker(s, w, Working(s.workers[w].item.(leasedUntil := until)))
    case WorkerFinish(w) => Finish(cfg, s, w)
    case WorkerAppend(w) => AppendOutcome(s, w)
    case WorkerWake(w) => SetWorker(s, w, Idle).(finWake := true)
    case WorkerWritten(w) => SetWorker(s, w, Idle).(written := s.written + multiset{s.workers[w].item.key})
    case WorkerLeave(w) => SetWorker(s, w, Gone)
    case CloseDone => s.(workersDone := true)
    case FlushScan => ScanBuffer(cfg, s)
    case FlushTake => TakeBuffer(s)
    case FlushWritten =>
      s.(written := s.written + EntryKeys(s.flusher.batch), flusher := if s.flusher.drain then Returned else Scan)
    case FlushWoken => s.(flusher := Scan, finWake := false)
    case FlushTimer => s.(flusher := Scan)
    case FlushDrain => s.(flusher := Taking(true))
  }

  // ----- The invariant -----

  /** The fetcher never asks for more than fits, so its sends never block. */
  ghost predicate ChannelOK(cfg: Config, chan: seq<Item>, f: Fetcher) {
    && |chan| <= cfg.Capacity()
    && (f.Claiming? ==> 1 <= f.k <= cfg.claimBatch && |chan| + f.k <= cfg.Capacity())
    && (f.Sending? ==> |chan| + |f.tail| <= cfg.Capacity())
    && (f.Parked? ==> |chan| <= f.seen && cfg.Capacity() - f.seen < cfg.LowWater())
  }

  /** A parked fetcher whose view is out of date has a nudge coming. */
  ghost predicate NudgeOK(chan: seq<Item>, f: Fetcher, nudge: bool, ws: seq<Worker>) {
    f.Parked? && |chan| < f.seen ==> nudge || exists w <- ws :: w.Took?
  }

  ghost predicate BufferOK(cfg: Config, now: int, buf: Buffer, ws: seq<Worker>) {
    && Truthful(buf) && Gated(cfg, buf) && (forall e <- buf.entries :: e.added <= now)
    && forall w <- ws :: w.Buffering? ==> w.gated <= now && ShouldBuffer(cfg, w.item, w.gated)
  }

  /** A blocked flusher whose view is out of date has a wake-up coming. */
  ghost predicate WakeOK(cfg: Config, buf: Buffer, f: Flusher, wake: bool, ws: seq<Worker>) {
    && (f.Blocked? ==>
          && f.seen <= |buf.entries| && f.seen < cfg.finalizeBatch && (f.timer.Some? <==> f.seen > 0)
          && (f.seen > 0 ==> Deadline(cfg, buf) <= f.timer.value)
          && (|buf.entries| == f.seen > 0 ==> f.timer == Some(Deadline(cfg, buf)))
          && (|buf.entries| > f.seen ==> wake || exists w <- ws :: w.Appended?))
    && (f == Taking(false) ==> buf.entries != [])
  }

  /** Once the workers are done nothing more comes in, and the drain empties the buffer. */
  ghost predicate DrainOK(cfg: Config, done: bool, ws: seq<Worker>, f: Flusher, entries: seq<Entry>) {
    && (done ==> forall w <- ws :: w.Gone?)
    && (f == Taking(true) || (f.Flushing? && f.drain) || f.Returned? ==> done)
    && ((f.Flushing? && f.drain) || f.Returned? ==> entries == [])
    && (f.Absent? <==> !cfg.finalizeOn) && (f.Absent? ==> entries == [])
  }

  /** In how many places the claim `k` is. */
  function Places(f: Fetcher, chan: seq<Item>, ws: seq<Worker>, dropped: multiset<Key>, entries: seq<Entry>,
        fl: Flusher,
                  written: multiset<Key>, k: Key): nat {
    TailKeys(f)[k] + Keys(chan)[k] + HeldKeys(ws)[k] + dropped[k]
    + EntryKeys(entries)[k] + BatchKeys(fl)[k] + written[k]
  }

  /** Every claimed task is in exactly one place, and nothing else is anywhere. */
  ghost predicate Accounted(claimed: set<Key>, f: Fetcher, chan: seq<Item>, ws: seq<Worker>, dropped: multiset<Key>,
                            entries: seq<Entry>, fl: Flusher, written: multiset<Key>) {
    forall k :: Places(f, chan, ws, dropped, entries, fl, written, k) == if k in claimed then 1 else 0
  }

  ghost predicate LogOK(cfg: Config, appended: seq<Entry>, flushed: seq<seq<Entry>>, entries: seq<Entry>) {
    && appended == Concat(flushed) + entries
    && forall e <- appended :: ShouldBuffer(cfg, e.item, e.gated)
  }

  ghost predicate Inv(cfg: Config, s: State) {
    && cfg.Valid() && |s.workers| == cfg.workers
    && ChannelOK(cfg, s.chan, s.fetcher) && NudgeOK(s.chan, s.fetcher, s.fetchNudge, s.workers)
    && BufferOK(cfg, s.now, s.buf, s.workers) && WakeOK(cfg, s.buf, s.flusher, s.finWake, s.workers)
    && DrainOK(cfg, s.workersDone, s.workers, s.flusher, s.buf.entries)
    && Accounted(s.claimed, s.fetcher, s.chan, s.workers, s.dropped, s.buf.entries, s.flusher, s.written)
    && LogOK(cfg, s.appended, s.flushed, s.buf.entries)
  }

  // ----- Lists and workers -----

  lemma {:induction false} KeysMore(items: seq<Item>, x: Item, k: Key)
    ensures Keys(items + [x])[k] == Keys(items)[k] + multiset{x.key}[k]
  {
    if items == [] {
      assert items + [x] == [x] && [x][1..] == [];
    } else {
      KeysMore(items[1..], x, k);
      assert (items + [x])[1..] == items[1..] + [x];
    }
  }

  lemma {:induction false} EntryKeysMore(es: seq<Entry>, e: Entry, k: Key)
    ensures EntryKeys(es + [e])[k] == EntryKeys(es)[k] + multiset{e.item.key}[k]
  {
    if es == [] {
      assert es + [e] == [e] && [e][1..] == [];
    } else {
      EntryKeysMore(es[1..], e, k);
      assert (es + [e])[1..] == es[1..] + [e];
    }
  }

  lemma {:induction false} KeysCount(items: seq<Item>, k: Key)
    ensures k in Keys(items) <==> exists i :: 0 <= i < |items| && items[i].key == k
    ensures (forall i, j :: 0 <= i < j < |items| ==> items[i].key != items[j].key) ==> Keys(items)[k] <= 1
  {
    if items != [] {
      KeysCount(items[1..], k);
      if i :| 0 <= i < |items| && items[i].key == k {
        assert i > 0 ==> items[1..][i - 1].key == k;
      }
      assert forall i :: 0 <= i < |items| - 1 ==> items[1..][i] == items[i + 1];
    }
  }

  lemma {:induction false} HeldSet(ws: seq<Worker>, i: nat, x: Worker, k: Key)
    requires i < |ws|
    ensures HeldKeys(ws[i := x])[k] + HeldKey(ws[i])[k] == HeldKeys(ws)[k] + HeldKey(x)[k]
  {
    hide HeldKey;
    var more := ws[i := x];
    if i == 0 {
      assert more[1..] == ws[1..];
    } else {
      HeldSet(ws[1..], i - 1, x, k);
      assert more[1..] == ws[1..][i - 1 := x] && more[0] == ws[0];
    }
  }

  lemma Replaced(ws: seq<Worker>, i: nat, x: Worker)
    requires i < |ws|
    ensures var more := ws[i := x];
            && x in more && ws[i] in ws
            && (forall w <- more :: w == x || w in ws)
            && (forall w <- ws :: w == ws[i] || w in more)
  {
    var more := ws[i := x];
    assert more[i] == x;
    forall w <- ws ensures w == ws[i] || w in more {
      var j :| 0 <= j < |ws| && ws[j] == w;
      assert j != i ==> more[j] == w;
    }
  }

  // ----- What a worker's move does to each part of the invariant -----

  lemma NudgeMoves(chan: seq<Item>, f: Fetcher, nudge: bool, ws: seq<Worker>, i: nat, x: Worker)
    requires i < |ws| && NudgeOK(chan, f, nudge, ws)
    ensures !ws[i].Took? ==> NudgeOK(chan, f, nudge, ws[i := x])
    ensures NudgeOK(chan, f, true, ws[i := x])
    ensures x.Took? && chan != [] ==> NudgeOK(chan[1..], f, nudge, ws[i := x])
  {
    Replaced(ws, i, x);
  }

  lemma WakeMoves(cfg: Config, buf: Buffer, f: Flusher, wake: bool, ws: seq<Worker>, i: nat, x: Worker)
    requires i < |ws| && WakeOK(cfg, buf, f, wake, ws)
    ensures !ws[i].Appended? ==> WakeOK(cfg, buf, f, wake, ws[i := x])
    ensures WakeOK(cfg, buf, f, true, ws[i := x])
  {
    Replaced(ws, i, x);
  }

  lemma WakeAppends(cfg: Config, buf: Buffer, f: Flusher, wake: bool, ws: seq<Worker>, i: nat, e: Entry)
    requires i < |ws| && WakeOK(cfg, buf, f, wake, ws)
    ensures WakeOK(cfg, Append(buf, e), f, wake, ws[i := Appended])
  {
    Replaced(ws, i, Appended);
  }

  lemma BufferMoves(cfg: Config, now: int, buf: Buffer, ws: seq<Worker>, i: nat, x: Worker)
    requires i < |ws| && BufferOK(cfg, now, buf, ws)
    requires x.Buffering? ==> x.gated <= now && ShouldBuffer(cfg, x.item, x.gated)
    ensures BufferOK(cfg, now, buf, ws[i := x])
  {
    hide ShouldBuffer, Truthful, Gated;
    Replaced(ws, i, x);
  }

  lemma BufferAppends(cfg: Config, now: int, buf: Buffer, ws: seq<Worker>, i: nat)
    requires i < |ws| && BufferOK(cfg, now, buf, ws) && ws[i].Buffering?
    ensures BufferOK(cfg, now, Append(buf, Entry(ws[i].item, ws[i].gated, now)), ws[i := Appended])
  {
    hide ShouldBuffer, Truthful;
    Replaced(ws, i, Appended);
    AppendIsTruthful(buf, Entry(ws[i].item, ws[i].gated, now));
  }

  lemma DrainMoves(cfg: Config, done: bool, ws: seq<Worker>, f: Flusher, entries: seq<Entry>, i: nat, x: Worker)
    requires i < |ws| && DrainOK(cfg, done, ws, f, entries) && !ws[i].Gone?
    ensures DrainOK(cfg, done, ws[i := x], f, entries) && !done
  {
    assert ws[i] in ws;
  }

  lemma DrainAppends(cfg: Config, done: bool, ws: seq<Worker>, f: Flusher, entries: seq<Entry>, i: nat, e: Entry)
    requires i < |ws| && DrainOK(cfg, done, ws, f, entries) && !ws[i].Gone? && cfg.finalizeOn
    ensures DrainOK(cfg, done, ws[i := Appended], f, entries + [e])
  {
    DrainMoves(cfg, done, ws, f, entries, i, Appended);
  }

  lemma LogAppends(cfg: Config, appended: seq<Entry>, flushed: seq<seq<Entry>>, entries: seq<Entry>, e: Entry)
    requires LogOK(cfg, appended, flushed, entries) && ShouldBuffer(cfg, e.item, e.gated)
    ensures LogOK(cfg, appended + [e], flushed, entries + [e])
  {
    assert Concat(flushed) + (entries + [e]) == appended + [e];
  }

  lemma ConcatMore(batches: seq<seq<Entry>>, batch: seq<Entry>)
    ensures Concat(batches + [batch]) == Concat(batches) + batch
  {
    assert (batches + [batch])[..|batches|] == batches;
  }

  /** What a worker lets go of or takes on must show up elsewhere. */
  lemma AccountMoves(s: State, i: nat, x: Worker, chan: seq<Item>, dropped: multiset<Key>, entries: seq<Entry>,
        written: multiset<Key>)
    requires At(s, i)
    requires Accounted(s.claimed, s.fetcher, s.chan, s.workers, s.dropped, s.buf.entries, s.flusher, s.written)
    requires forall k ::
               HeldKey(s.workers[i])[k] + Keys(s.chan)[k] + s.dropped[k] + EntryKeys(s.buf.entries)[k] + s.written[k]
               == HeldKey(x)[k] + Keys(chan)[k] + dropped[k] + EntryKeys(entries)[k] + written[k]
    ensures Accounted(s.claimed, s.fetcher, chan, s.workers[i := x], dropped, entries, s.flusher, written)
  {
    hide HeldKeys, HeldKey, Keys, EntryKeys, TailKeys, BatchKeys;
    var ws := s.workers[i := x];
    forall k
      ensures Places(s.fetcher, chan, ws, dropped, entries, s.flusher, written, k) == if k in s.claimed then 1 else 0
    {
      HeldSet(s.workers, i, x, k);
      assert Places(s.fetcher, s.chan, s.workers, s.dropped, s.buf.entries, s.flusher, s.written, k)
          == if k in s.claimed then 1 else 0;
    }
  }

  // ----- Every step keeps the invariant: the fetcher -----

  lemma TickKeeps(cfg: Config, s: State, d: nat)
    requires Inv(cfg, s)
    ensures Inv(cfg, s.(now := s.now + d)) && Inv(cfg, s.(cancelled := true))
  {
    hide ChannelOK, NudgeOK, WakeOK, DrainOK, Accounted, LogOK, ShouldBuffer, Truthful, Gated;
  }

  lemma LookKeeps(cfg: Config, s: State)
    requires Inv(cfg, s) && s.fetcher.Top?
    ensures Inv(cfg, Look(cfg, s))
  {
    hide BufferOK, WakeOK, DrainOK, Accounted, LogOK;
    AccountFetch(s, Look(cfg, s).fetcher, s.claimed, s.chan, s.dropped);
  }

  /** The fetcher moves tasks in from the store, on to the channel, or drops them. */
  lemma AccountFetch(s: State, f: Fetcher, claimed: set<Key>, chan: seq<Item>, dropped: multiset<Key>)
    requires Accounted(s.claimed, s.fetcher, s.chan, s.workers, s.dropped, s.buf.entries, s.flusher, s.written)
    ensures (forall k ::
               TailKeys(s.fetcher)[k] + Keys(s.chan)[k] + s.dropped[k] + (if k in claimed then 1 else 0)
               == TailKeys(f)[k] + Keys(chan)[k] + dropped[k] + if k in s.claimed then 1 else 0)
            ==> Accounted(claimed, f, chan, s.workers, dropped, s.buf.entries, s.flusher, s.written)
  {
    hide HeldKeys, Keys, EntryKeys, TailKeys, BatchKeys;
    if forall k ::
         TailKeys(s.fetcher)[k] + Keys(s.chan)[k] + s.dropped[k] + (if k in claimed then 1 else 0)
         == TailKeys(f)[k] + Keys(chan)[k] + dropped[k] + if k in s.claimed then 1 else 0 {
      forall k
        ensures Places(f, chan, s.workers, dropped, s.buf.entries, s.flusher, s.written, k)
             == if k in claimed then 1 else 0
      {
        assert Places(s.fetcher, s.chan, s.workers, s.dropped, s.buf.entries, s.flusher, s.written, k)
            == if k in s.claimed then 1 else 0;
      }
    }
  }

  lemma ClaimedKeys(items: seq<Item>, claimed: set<Key>, k: Key)
    requires forall i, j :: 0 <= i < j < |items| ==> items[i].key != items[j].key
    requires forall i :: 0 <= i < |items| ==> items[i].key !in claimed
    ensures Keys(items)[k] + (if k in claimed then 1 else 0) == if k in claimed + set x <- items :: x.key then 1 else 0
  {
    KeysCount(items, k);
    if k in Keys(items) {
      var i :| 0 <= i < |items| && items[i].key == k;
      assert items[i] in items;
    }
  }

  lemma ClaimedKeeps(cfg: Config, s: State, items: seq<Item>)
    requires Inv(cfg, s) && s.fetcher.Claiming? && |items| <= s.fetcher.k
    requires forall i, j :: 0 <= i < j < |items| ==> items[i].key != items[j].key
    requires forall i :: 0 <= i < |items| ==> items[i].key !in s.claimed
    ensures Inv(cfg, s.(fetcher := if items
         == [] then Idling else Sending(items), claimed := s.claimed + set x <- items :: x.key))
  {
    hide BufferOK, WakeOK, DrainOK, Accounted, LogOK, Keys;
    var f, claimed := if items == [] then Idling else Sending(items), s.claimed + set x <- items :: x.key;
    forall k
      ensures TailKeys(f)[k] + (if k in s.claimed then 1 else 0) == if k in claimed then 1 else 0
    {
      ClaimedKeys(items, s.claimed, k);
      KeysFirst([], k);
    }
    AccountFetch(s, f, claimed, s.chan, s.dropped);
  }

  lemma SendKeeps(cfg: Config, s: State)
    requires Inv(cfg, s) && s.fetcher.Sending? && s.fetcher.tail != []
    ensures Inv(cfg, s.(chan := s.chan + [s.fetcher.tail[0]], fetcher := Sending(s.fetcher.tail[1..])))
  {
    hide BufferOK, WakeOK, DrainOK, Accounted, LogOK;
    var x, rest := s.fetcher.tail[0], s.fetcher.tail[1..];
    forall k
      ensures TailKeys(s.fetcher)[k] + Keys(s.chan)[k] == TailKeys(Sending(rest))[k] + Keys(s.chan + [x])[k]
    {
      KeysMore(s.chan, x, k);
      KeysFirst(s.fetcher.tail, k);
      hide Keys;
    }
    hide Keys, TailKeys;
    AccountFetch(s, Sending(rest), s.claimed, s.chan + [x], s.dropped);
  }

  lemma KeysFirst(items: seq<Item>, k: Key)
    ensures Keys([])[k] == 0
    ensures items != [] ==> Keys(items)[k] == multiset{items[0].key}[k] + Keys(items[1..])[k]
  {
  }

  lemma ExitKeeps(cfg: Config, s: State)
    requires Inv(cfg, s)
    ensures Inv(cfg, s.(fetcher := Exited, dropped := s.dropped + TailKeys(s.fetcher)))
  {
    hide BufferOK, WakeOK, DrainOK, Accounted, LogOK, Keys;
    AccountFetch(s, Exited, s.claimed, s.chan, s.dropped + TailKeys(s.fetcher));
  }

  /** The fetcher goes on with nothing in hand. */
  lemma IdlingKeeps(cfg: Config, s: State, f: Fetcher, nudge: bool)
    requires Inv(cfg, s) && (f.Top? || f.Idling?) && (s.fetcher.Sending? ==> s.fetcher.tail == [])
    ensures Inv(cfg, s.(fetcher := f, fetchNudge := nudge))
  {
    hide BufferOK, WakeOK, DrainOK, Accounted, LogOK, Keys;
    forall k ensures TailKeys(s.fetcher)[k] == TailKeys(f)[k] {
      KeysFirst([], k);
    }
    AccountFetch(s, f, s.claimed, s.chan, s.dropped);
  }

  lemma FetcherKeeps(cfg: Config, s: State, step: Step)
    requires Inv(cfg, s) && Enabled(cfg, s, step)
    requires step in {FetchNothing, FetchSent, FetchNudged, FetchResume, FetchExit}
    ensures Inv(cfg, Do(cfg, s, step))
  {
    hide Inv, TailKeys;
    if step.FetchExit? {
      ExitKeeps(cfg, s);
    } else {
      IdlingKeeps(cfg, s, if step.FetchNothing? then Idling else Top, s.fetchNudge && !step.FetchNudged?);
    }
  }

  // ----- The workers -----

  /** A worker goes on with its task, touching nothing shared. */
  lemma GoesOnKeeps(cfg: Config, s: State, w: nat, x: Worker)
    requires Inv(cfg, s) && At(s, w) && HeldKey(x) == HeldKey(s.workers[w])
    requires !s.workers[w].Gone? && !s.workers[w].Took? && !s.workers[w].Appended?
    requires x.Buffering? ==> x.gated <= s.now && ShouldBuffer(cfg, x.item, x.gated)
    ensures Inv(cfg, SetWorker(s, w, x))
  {
    hide ChannelOK, NudgeOK, BufferOK, WakeOK, DrainOK, Accounted, LogOK, HeldKey, ShouldBuffer;
    NudgeMoves(s.chan, s.fetcher, s.fetchNudge, s.workers, w, x);
    WakeMoves(cfg, s.buf, s.flusher, s.finWake, s.workers, w, x);
    BufferMoves(cfg, s.now, s.buf, s.workers, w, x);
    DrainMoves(cfg, s.workersDone, s.workers, s.flusher, s.buf.entries, w, x);
    AccountMoves(s, w, x, s.chan, s.dropped, s.buf.entries, s.written);
  }

  lemma ChannelTakes(cfg: Config, chan: seq<Item>, f: Fetcher)
    requires ChannelOK(cfg, chan, f) && chan != []
    ensures ChannelOK(cfg, chan[1..], f)
  {
  }

  lemma TakeKeeps(cfg: Config, s: State, w: nat)
    requires Inv(cfg, s) && At(s, w) && s.workers[w].Idle? && s.chan != []
    ensures Inv(cfg, SetWorker(s, w, Took(s.chan[0])).(chan := s.chan[1..]))
  {
    hide ChannelOK, NudgeOK, BufferOK, WakeOK, DrainOK, Accounted, LogOK, Keys;
    var x := Took(s.chan[0]);
    ChannelTakes(cfg, s.chan, s.fetcher);
    NudgeMoves(s.chan, s.fetcher, s.fetchNudge, s.workers, w, x);
    WakeMoves(cfg, s.buf, s.flusher, s.finWake, s.workers, w, x);
    BufferMoves(cfg, s.now, s.buf, s.workers, w, x);
    DrainMoves(cfg, s.workersDone, s.workers, s.flusher, s.buf.entries, w, x);
    forall k ensures Keys(s.chan)[k] == HeldKey(x)[k] + Keys(s.chan[1..])[k] {
      KeysFirst(s.chan, k);
    }
    AccountMoves(s, w, x, s.chan[1..], s.dropped, s.buf.entries, s.written);
  }

  lemma NudgeKeeps(cfg: Config, s: State, w: nat)
    requires Inv(cfg, s) && At(s, w) && s.workers[w].Took?
    ensures Inv(cfg, SetWorker(s, w, Checking(s.workers[w].item)).(fetchNudge := true))
  {
    hide ChannelOK, NudgeOK, BufferOK, WakeOK, DrainOK, Accounted, LogOK;
    var x := Checking(s.workers[w].item);
    NudgeMoves(s.chan, s.fetcher, s.fetchNudge, s.workers, w, x);
    WakeMoves(cfg, s.buf, s.flusher, s.finWake, s.workers, w, x);
    BufferMoves(cfg, s.now, s.buf, s.workers, w, x);
    DrainMoves(cfg, s.workersDone, s.workers, s.flusher, s.buf.entries, w, x);
    AccountMoves(s, w, x, s.chan, s.dropped, s.buf.entries, s.written);
  }

  /** A worker is through with its task: dropped, or written. */
  lemma ThroughKeeps(cfg: Config, s: State, w: nat)
    requires Inv(cfg, s) && At(s, w)
    requires s.workers[w].Checking? || s.workers[w].Starting? || s.workers[w].Writing?
    ensures Inv(cfg, Abandon(s, w, s.workers[w].item.key))
    ensures Inv(cfg, SetWorker(s, w, Idle).(written := s.written + multiset{s.workers[w].item.key}))
  {
    hide ChannelOK, NudgeOK, BufferOK, WakeOK, DrainOK, Accounted, LogOK;
    var k := s.workers[w].item.key;
    NudgeMoves(s.chan, s.fetcher, s.fetchNudge, s.workers, w, Idle);
    WakeMoves(cfg, s.buf, s.flusher, s.finWake, s.workers, w, Idle);
    BufferMoves(cfg, s.now, s.buf, s.workers, w, Idle);
    DrainMoves(cfg, s.workersDone, s.workers, s.flusher, s.buf.entries, w, Idle);
    AccountMoves(s, w, Idle, s.chan, s.dropped + multiset{k}, s.buf.entries, s.written);
    AccountMoves(s, w, Idle, s.chan, s.dropped, s.buf.entries, s.written + multiset{k});
  }

  lemma AppendKeeps(cfg: Config, s: State, w: nat)
    requires Inv(cfg, s) && Enabled(cfg, s, WorkerAppend(w))
    ensures Inv(cfg, AppendOutcome(s, w))
  {
    hide ChannelOK, NudgeOK, BufferOK, WakeOK, DrainOK, Accounted, LogOK, Keys, EntryKeys;
    var e := Entry(s.workers[w].item, s.workers[w].gated, s.now);
    NudgeMoves(s.chan, s.fetcher, s.fetchNudge, s.workers, w, Appended);
    WakeAppends(cfg, s.buf, s.flusher, s.finWake, s.workers, w, e);
    GateIsOpen(cfg, s, w);
    BufferAppends(cfg, s.now, s.buf, s.workers, w);
    DrainAppends(cfg, s.workersDone, s.workers, s.flusher, s.buf.entries, w, e);
    forall k ensures EntryKeys(s.buf.entries + [e])[k] == EntryKeys(s.buf.entries)[k] + multiset{e.item.key}[k] {
      EntryKeysMore(s.buf.entries, e, k);
    }
    AccountMoves(s, w, Appended, s.chan, s.dropped, s.buf.entries + [e], s.written);
    LogAppends(cfg, s.appended, s.flushed, s.buf.entries, e);
  }

  lemma GateIsOpen(cfg: Config, s: State, w: nat)
    requires Inv(cfg, s) && At(s, w) && s.workers[w].Buffering?
    ensures cfg.finalizeOn && ShouldBuffer(cfg, s.workers[w].item, s.workers[w].gated)
  {
    assert s.workers[w] in s.workers;
  }

  lemma WakeKeeps(cfg: Config, s: State, w: nat)
    requires Inv(cfg, s) && At(s, w) && s.workers[w].Appended?
    ensures Inv(cfg, SetWorker(s, w, Idle).(finWake := true))
  {
    hide ChannelOK, NudgeOK, BufferOK, WakeOK, DrainOK, Accounted, LogOK;
    NudgeMoves(s.chan, s.fetcher, s.fetchNudge, s.workers, w, Idle);
    WakeMoves(cfg, s.buf, s.flusher, s.finWake, s.workers, w, Idle);
    BufferMoves(cfg, s.now, s.buf, s.workers, w, Idle);
    DrainMoves(cfg, s.workersDone, s.workers, s.flusher, s.buf.entries, w, Idle);
    AccountMoves(s, w, Idle, s.chan, s.dropped, s.buf.entries, s.written);
  }

  // ----- The flusher -----

  lemma AccountFlush(s: State, entries: seq<Entry>, f: Flusher, written: multiset<Key>)
    requires Accounted(s.claimed, s.fetcher, s.chan, s.workers, s.dropped, s.buf.entries, s.flusher, s.written)
    requires forall k ::
               EntryKeys(s.buf.entries)[k] + BatchKeys(s.flusher)[k] + s.written[k]
               == EntryKeys(entries)[k] + BatchKeys(f)[k] + written[k]
    ensures Accounted(s.claimed, s.fetcher, s.chan, s.workers, s.dropped, entries, f, written)
  {
    hide HeldKeys, Keys, EntryKeys, TailKeys, BatchKeys;
    forall k
      ensures Places(s.fetcher, s.chan, s.workers, s.dropped, entries, f, written, k) == if k in s.claimed then 1 else 0
    {
      assert Places(s.fetcher, s.chan, s.workers, s.dropped, s.buf.entries, s.flusher, s.written, k)
          == if k in s.claimed then 1 else 0;
    }
  }

  lemma ScanKeeps(cfg: Config, s: State)
    requires Inv(cfg, s) && s.flusher.Scan?
    ensures Inv(cfg, ScanBuffer(cfg, s))
  {
    hide ChannelOK, NudgeOK, BufferOK, Accounted, LogOK, Deadline, EntryKeys;
    AccountFlush(s, s.buf.entries, ScanBuffer(cfg, s).flusher, s.written);
  }

  lemma NoEntryKeys()
    ensures EntryKeys([]) == multiset{}
  {
  }

  lemma EmptiedIsOK(cfg: Config, now: int, buf: Buffer, ws: seq<Worker>)
    requires BufferOK(cfg, now, buf, ws)
    ensures BufferOK(cfg, now, Emptied(buf), ws)
  {
    hide ShouldBuffer;
  }

  lemma FlushTakeKeeps(cfg: Config, s: State)
    requires Inv(cfg, s) && s.flusher.Taking?
    ensures Inv(cfg, TakeBuffer(s))
  {
    hide ChannelOK, NudgeOK, BufferOK, Accounted, LogOK, EntryKeys;
    var t := TakeBuffer(s);
    NoEntryKeys();
    AccountFlush(s, t.buf.entries, t.flusher, s.written);
    EmptiedIsOK(cfg, s.now, s.buf, s.workers);
    if s.buf.entries != [] {
      LogTakes(cfg, s.appended, s.flushed, s.buf.entries);
    }
  }

  lemma LogTakes(cfg: Config, appended: seq<Entry>, flushed: seq<seq<Entry>>, entries: seq<Entry>)
    requires LogOK(cfg, appended, flushed, entries)
    ensures LogOK(cfg, appended, flushed + [entries], [])
  {
    ConcatMore(flushed, entries);
  }

  lemma FlusherKeeps(cfg: Config, s: State, step: Step)
    requires Inv(cfg, s) && Enabled(cfg, s, step)
    requires step in {CloseDone, FlushWritten, FlushWoken, FlushTimer, FlushDrain}
    ensures Inv(cfg, Do(cfg, s, step))
  {
    hide ChannelOK, NudgeOK, BufferOK, Accounted, LogOK, EntryKeys, Deadline;
    var t := Do(cfg, s, step);
    AccountFlush(s, t.buf.entries, t.flusher, t.written);
  }

  lemma StartOfWorkKeeps(cfg: Config, s: State, w: nat, reply: Reply)
    requires Inv(cfg, s) && At(s, w)
    ensures s.workers[w].Checking? ==> Inv(cfg, Check(s, w))
    ensures s.workers[w].Starting? ==> Inv(cfg, Begin(s, w, reply))
  {
    hide Inv;
    var x := s.workers[w];
    if x.Checking? {
      ThroughKeeps(cfg, s, w);
      GoesOnKeeps(cfg, s, w, Starting(x.item, 0));
    } else if x.Starting? {
      ThroughKeeps(cfg, s, w);
      GoesOnKeeps(cfg, s, w, Starting(x.item, x.tries + 1));
      if reply.Granted? {
        GoesOnKeeps(cfg, s, w, Working(x.item.(leasedUntil := reply.until)));
      }
    }
  }

  lemma WorkerStepKeeps(cfg: Config, s: State, step: Step)
    requires Inv(cfg, s) && Enabled(cfg, s, step)
    requires step.WorkerTake? || step.WorkerNudge? || step.WorkerCheck? || step.WorkerStart? || step.WorkerExtend?
             || step.WorkerFinish? || step.WorkerAppend? || step.WorkerWake? || step.WorkerWritten? || step.WorkerLeave?
    ensures Inv(cfg, Do(cfg, s, step))
  {
    hide Inv, AppendOutcome, Check, Begin, Finish, SetWorker, HeldKey;
    var w := step.w;
    if step.WorkerTake? {
      TakeKeeps(cfg, s, w);
    } else if step.WorkerNudge? {
      NudgeKeeps(cfg, s, w);
    } else if step.WorkerCheck? {
      StartOfWorkKeeps(cfg, s, w, Lost);
    } else if step.WorkerStart? {
      StartOfWorkKeeps(cfg, s, w, step.reply);
    } else if step.WorkerExtend? {
      ExtendKeeps(cfg, s, w, step.until);
    } else if step.WorkerFinish? {
      FinishKeeps(cfg, s, w);
    } else if step.WorkerAppend? {
      AppendKeeps(cfg, s, w);
    } else if step.WorkerWake? {
      WakeKeeps(cfg, s, w);
    } else if step.WorkerWritten? {
      ThroughKeeps(cfg, s, w);
    } else {
      LeaveKeeps(cfg, s, w);
    }
  }

  lemma FinishKeeps(cfg: Config, s: State, w: nat)
    requires Inv(cfg, s) && At(s, w) && s.workers[w].Working?
    ensures Inv(cfg, Finish(cfg, s, w))
  {
    hide Inv, ShouldBuffer;
    var x := s.workers[w];
    GoesOnKeeps(cfg, s, w, if ShouldBuffer(cfg, x.item, s.now) then Buffering(x.item, s.now) else Writing(x.item));
  }

  lemma ExtendKeeps(cfg: Config, s: State, w: nat, until: int)
    requires Inv(cfg, s) && At(s, w) && s.workers[w].Working?
    ensures Inv(cfg, SetWorker(s, w, Working(s.workers[w].item.(leasedUntil := until))))
  {
    hide Inv;
    GoesOnKeeps(cfg, s, w, Working(s.workers[w].item.(leasedUntil := until)));
  }

  lemma LeaveKeeps(cfg: Config, s: State, w: nat)
    requires Inv(cfg, s) && At(s, w) && s.workers[w].Idle?
    ensures Inv(cfg, SetWorker(s, w, Gone))
  {
    hide Inv;
    GoesOnKeeps(cfg, s, w, Gone);
  }

  lemma StepKeepsInv(cfg: Config, s: State, step: Step)
    requires Inv(cfg, s) && Enabled(cfg, s, step)
    ensures Inv(cfg, Do(cfg, s, step))
  {
    hide Inv, Look, AppendOutcome, ScanBuffer, TakeBuffer, Begin, Abandon, SetWorker;
    if step.Tick? {
      TickKeeps(cfg, s, step.d);
    } else if step.Cancel? {
      TickKeeps(cfg, s, 0);
    } else if step.FetchLook? {
      LookKeeps(cfg, s);
    } else if step.FetchClaimed? {
      ClaimedKeeps(cfg, s, step.items);
    } else if step.FetchSend? {
      SendKeeps(cfg, s);
    } else if step.FlushScan? {
      ScanKeeps(cfg, s);
    } else if step.FlushTake? {
      FlushTakeKeeps(cfg, s);
    } else if step in {FetchNothing, FetchSent, FetchNudged, FetchResume, FetchExit} {
      FetcherKeeps(cfg, s, step);
    } else if step in {CloseDone, FlushWritten, FlushWoken, FlushTimer, FlushDrain} {
      FlusherKeeps(cfg, s, step);
    } else {
      WorkerStepKeeps(cfg, s, step);
    }
  }
}
