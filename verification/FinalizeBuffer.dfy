/** The finalize buffer of a pipelined manager: outcomes wait here for a bulk
    write, and the flusher must not let any of their leases run out.
 */
module FinalizeBuffer {
  import opened Tasks

  /** A claimed task as the pipeline sees it: `leasedUntil` is the worker's copy. */
  datatype Item = Item(key: Key, maxAttempts: int, leasedUntil: int)

  /** A buffered outcome: when the gate let it through and when it was appended. */
  datatype Entry = Entry(item: Item, gated: int, added: int)

  /** finBuf, finOldest and finMinLease; the last two mean nothing while it is empty. */
  datatype Buffer = Buffer(entries: seq<Entry>, oldest: int, minLease: int)

  datatype Config = Config(workers: nat, claimBatch: nat, finalizeOn: bool, finalizeBatch: nat, interval: int)
  {
    /** finMargin, as Start sets it. */
    function Margin(): int {
      if 4 * interval >= 2_000_000_000 then 4 * interval else 2_000_000_000
    }

    function Capacity(): nat { workers + claimBatch }

    function LowWater(): nat { if claimBatch / 2 >= 1 then claimBatch / 2 else 1 }

    predicate Valid() {
      && workers >= 1 && 1 <= claimBatch <= 100
      && (finalizeOn ==> 2 <= finalizeBatch <= 1000 && interval > 0)
    }
  }

  /** The batch-finalize gate. */
  predicate ShouldBuffer(cfg: Config, item: Item, now: int) {
    cfg.finalizeOn && item.maxAttempts != 1 && item.leasedUntil - now >= cfg.Margin()
  }

  function Append(b: Buffer, e: Entry): Buffer {
    Buffer(b.entries + [e],
           if b.entries == [] then e.added else b.oldest,
           if b.entries == [] || e.item.leasedUntil < b.minLease then e.item.leasedUntil else b.minLease)
  }

  function Emptied(b: Buffer): Buffer { b.(entries := []) }

  /** When the flusher must flush: an interval after the oldest entry, or half a
      margin before the first lease runs out. */
  function Deadline(cfg: Config, b: Buffer): int {
    var byAge, leaseEdge := b.oldest + cfg.interval, b.minLease - cfg.Margin() / 2;
    if leaseEdge < byAge then leaseEdge else byAge
  }

  ghost predicate IsMinLease(es: seq<Entry>, lease: int) {
    && (forall e <- es :: lease <= e.item.leasedUntil)
    && (exists e <- es :: lease == e.item.leasedUntil)
  }

  /** The book-keeping is true: the first entry's time, and the least lease. */
  ghost predicate Truthful(b: Buffer) {
    b.entries != [] ==>
      && b.oldest == b.entries[0].added && IsMinLease(b.entries, b.minLease)
      && forall e <- b.entries :: b.oldest <= e.added
  }

  /** Every entry came through the gate. */
  ghost predicate Gated(cfg: Config, b: Buffer) {
    forall e <- b.entries :: ShouldBuffer(cfg, e.item, e.gated) && e.gated <= e.added
  }

  lemma AppendIsTruthful(b: Buffer, e: Entry)
    requires Truthful(b) && forall d <- b.entries :: d.added <= e.added
    ensures Truthful(Append(b, e))
  {
    var more := Append(b, e).entries;
    assert e in more;
    forall d <- b.entries ensures d in more {}
    if b.entries != [] {
      assert b.entries[0] in b.entries && more[0] == b.entries[0];
      var least :| least in b.entries && b.minLease == least.item.leasedUntil;
      assert least in more;
    }
  }

  /** The deadline leaves half a margin of every buffered lease; and all of it
      but the interval, less the time an outcome took from the gate into the
      buffer: at least three quarters when that was no time at all. */
  lemma DeadlineLeavesMargin(cfg: Config, b: Buffer, e: Entry)
    requires cfg.Valid() && Truthful(b) && Gated(cfg, b) && e in b.entries
    ensures Deadline(cfg, b) <= e.item.leasedUntil - cfg.Margin() / 2
    ensures Deadline(cfg, b) <= e.item.leasedUntil - cfg.Margin() + cfg.interval + (b.oldest - e.gated)
    ensures e.gated == e.added ==> 4 * (e.item.leasedUntil - Deadline(cfg, b)) >= 3 * cfg.Margin()
  {
  }

  /** The buffer itself, under its mutex. */
  class FinBuffer {
    var finBuf: seq<Entry>
    var finOldest: int
    var finMinLease: int

    ghost function Contents(): Buffer
      reads this
    {
      Buffer(finBuf, finOldest, finMinLease)
    }

    constructor ()
      ensures finBuf == [] && Truthful(Contents())
    {
      finBuf, finOldest, finMinLease := [], 0, 0;
    }

    method BufferOutcome(item: Item, gated: int, now: int)
      requires Truthful(Contents()) && forall d <- finBuf :: d.added <= now
      modifies this
      ensures Contents() == Append(old(Contents()), Entry(item, gated, now)) && Truthful(Contents())
    {
      AppendIsTruthful(Contents(), Entry(item, gated, now));
      if |finBuf| == 0 {
        finOldest := now;
        finMinLease := item.leasedUntil;
      } else if item.leasedUntil < finMinLease {
        finMinLease := item.leasedUntil;
      }
      finBuf := finBuf + [Entry(item, gated, now)];
    }

    /** The flusher's look under the mutex. */
    method Look(cfg: Config) returns (n: nat, deadline: Option<int>)
      requires cfg.Valid()
      ensures n == |finBuf| && (deadline.Some? <==> n > 0)
      ensures deadline.Some? ==> deadline.value == Deadline(cfg, Contents())
    {
      n, deadline := |finBuf|, None;
      if n > 0 {
        var d := finOldest + cfg.interval;
        var leaseEdge := finMinLease - cfg.Margin() / 2;
        if leaseEdge < d {
          d := leaseEdge;
        }
        deadline := Some(d);
      }
    }

    /** flushOutcomes takes everything there is. */
    method Take() returns (buf: seq<Entry>)
      modifies this
      ensures buf == old(finBuf) && Contents() == Emptied(old(Contents())) && Truthful(Contents())
    {
      buf := finBuf;
      finBuf := [];
    }
  }
}
