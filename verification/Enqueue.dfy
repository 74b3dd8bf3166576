/** Enqueueing: the manager builds fresh tasks, the Mongo store inserts them in
    chunks and accounts for every entry, the manager counts what went in.
 */
module Enqueue {
  import opened Tasks
  import opened Lifecycle

  datatype Cause = Duplicate | Rejected | Unknown

  datatype EntryFailure = EntryFailure(index: nat, cause: Cause)

  /** Why a call is turned away before anything is sent to the server. */
  datatype Refusal =
    | NoType
    | QueueNotDeclared
    | NotRegistered
    | SeveralPolicies
    | NoAttempts
    | KeyForMany
    | PayloadNotAnObject
    | PayloadNotBson

  datatype EnqueueError =
    | NoError
    | Refused(why: Refusal)
    | DuplicateTask(key: string, existing: string)
    | Partial(failures: seq<EntryFailure>)

  datatype WriteError = WriteError(index: nat, duplicate: bool)

  /** What InsertMany reports for one unordered chunk: all in; all in but the
      listed entries; or an error that leaves open which entries `landed`. */
  datatype ChunkReply =
    | AllIn
    | SomeOut(errors: seq<WriteError>)
    | Broken(landed: set<nat>)

  /** The driver names each failed entry of a chunk of `size` once. */
  ghost predicate WellBehaved(r: ChunkReply, size: nat) {
    r.SomeOut? ==>
      && r.errors != []
      && (forall i :: 0 <= i < |r.errors| ==> r.errors[i].index < size)
      && (forall i, j :: 0 <= i < j < |r.errors| ==> r.errors[i].index != r.errors[j].index)
  }

  /** Every reply the driver can give: any errors, each for another entry. */
  lemma RepliesAre(r: ChunkReply, size: nat)
    ensures r.AllIn? || r.Broken? ==> WellBehaved(r, size)
    ensures r.SomeOut? && r.errors != [] && (forall e <- r.errors :: e.index < size)
            && (forall i, j :: 0 <= i < |r.errors| && i + 1 <= j < |r.errors| ==>
                  r.errors[j].index != r.errors[i].index)
            ==> WellBehaved(r, size)
  {
  }

  ghost function FailedIndexes(fs: seq<EntryFailure>): set<nat> { set f <- fs :: f.index }

  ghost predicate NamedOnce(fs: seq<EntryFailure>) {
    forall i, j :: 0 <= i < j < |fs| ==> fs[i].index != fs[j].index
  }

  /** The account of the entries below `done`: blank exactly where a failure
      names them, and otherwise inserted under the id that was minted for them. */
  ghost predicate Accounted(
    ids: seq<string>, minted: seq<string>, fs: seq<EntryFailure>, inserted: set<nat>, done: nat)
  {
    && |ids| == |minted| && done <= |ids| && NamedOnce(fs)
    && (forall f <- fs :: f.index < done) && (forall i <- inserted :: i < done)
    && (forall i :: 0 <= i < done ==> (ids[i] == "" <==> i in FailedIndexes(fs)))
    && (forall i :: 0 <= i < done && ids[i] != "" ==> ids[i] == minted[i] && i in inserted)
    && (forall i :: done <= i < |ids| ==> ids[i] == minted[i])
  }

  lemma OneMoreFailure(fs: seq<EntryFailure>, f: EntryFailure)
    ensures FailedIndexes(fs + [f]) == FailedIndexes(fs) + {f.index}
    ensures NamedOnce(fs + [f]) <==> NamedOnce(fs) && f.index !in FailedIndexes(fs)
  {
    var more := fs + [f];
    forall g <- fs ensures g in more {}
    assert f in more;
    if NamedOnce(fs) && f.index !in FailedIndexes(fs) {
      forall i, j | 0 <= i < j < |more| ensures more[i].index != more[j].index {
        assert fs[i] in fs;
      }
    }
    if NamedOnce(more) {
      forall i, j | 0 <= i < j < |fs| ensures fs[i].index != fs[j].index {
        assert more[i] == fs[i] && more[j] == fs[j];
      }
      forall g <- fs ensures g.index != f.index {
        var i :| 0 <= i < |fs| && fs[i] == g;
        assert more[i] == g && more[|fs|] == f;
      }
    }
  }

  ghost function Entries(minted: seq<string>, start: nat, end: nat): set<nat> {
    set i: nat | start <= i < end && i < |minted| && minted[i] != ""
  }

  function Min(a: nat, b: nat): nat { if a <= b then a else b }

  /** Of `n` entries in chunks of `chunk`. */
  ghost predicate AllWellBehaved(replies: seq<ChunkReply>, chunk: nat, n: nat) {
    forall c :: 0 <= c < |replies| ==> WellBehaved(replies[c], Min(chunk, n - Min(c * chunk, n)))
  }

  // ----- What the server said -----

  /** Entry `i` is entry `Offset` of chunk `ChunkNo`. */
  function ChunkNo(chunk: nat, i: nat): (c: nat)
    requires chunk >= 1
    ensures c <= i
  {
    if i < chunk then 0 else 1 + ChunkNo(chunk, i - chunk)
  }

  function Offset(chunk: nat, i: nat): (j: nat)
    requires chunk >= 1
    ensures j < chunk
  {
    if i < chunk then i else Offset(chunk, i - chunk)
  }

  /** What the replies say against entry `i`: nothing is known of it from the first broken chunk on; before
      that it is a duplicate or rejected as its own chunk's reply has it. */
  ghost predicate Blamed(replies: seq<ChunkReply>, chunk: nat, i: nat, cause: Cause)
    requires chunk >= 1
  {
    var c := ChunkNo(chunk, i);
    if exists b: nat :: b <= c && b < |replies| && replies[b].Broken? then cause.Unknown?
    else
      && c < |replies| && replies[c].SomeOut?
      && WriteError(Offset(chunk, i), cause.Duplicate?) in replies[c].errors && !cause.Unknown?
  }

  /** The failures are what the server said, all of it and nothing else. */
  ghost predicate Told(replies: seq<ChunkReply>, chunk: nat, fs: seq<EntryFailure>, done: nat)
    requires chunk >= 1
  {
    && (forall f <- fs :: f.index < done && Blamed(replies, chunk, f.index, f.cause))
    && (forall i: nat, cause :: i < done && Blamed(replies, chunk, i, cause) ==> EntryFailure(i, cause) in fs)
  }

  lemma {:induction false} Divided(chunk: nat, i: nat)
    requires chunk >= 1
    ensures i == ChunkNo(chunk, i) * chunk + Offset(chunk, i)
    decreases i
  {
    if i >= chunk {
      Divided(chunk, i - chunk);
      assert (1 + ChunkNo(chunk, i - chunk)) * chunk == ChunkNo(chunk, i - chunk) * chunk + chunk;
    }
  }

  lemma ChunkOf(chunk: nat, c: nat, i: nat)
    requires chunk >= 1
    ensures c * chunk <= i ==> c <= ChunkNo(chunk, i)
    ensures i < c * chunk ==> ChunkNo(chunk, i) < c
    ensures c * chunk <= i < c * chunk + chunk ==> ChunkNo(chunk, i) == c && Offset(chunk, i) == i - c * chunk
    ensures i == ChunkNo(chunk, i) * chunk + Offset(chunk, i)
  {
    hide ChunkNo, Offset;
    Divided(chunk, i);
    var q := ChunkNo(chunk, i);
    if q < c {
      assert (q + 1) * chunk <= c * chunk by { Times(q + 1, c, chunk); }
    } else if q > c {
      assert (c + 1) * chunk <= q * chunk by { Times(c + 1, q, chunk); }
    }
  }

  lemma Times(a: nat, b: nat, chunk: nat)
    requires a <= b
    ensures a * chunk <= b * chunk
  {
  }

  predicate Starts(chunk: nat, c: nat, start: nat) { start == c * chunk }

  lemma NextStart(replies: seq<ChunkReply>, chunk: nat, n: nat, c: nat, start: nat)
    requires AllWellBehaved(replies, chunk, n) && Starts(chunk, c, start) && start < n && c < |replies|
    ensures Starts(chunk, c + 1, start + chunk) && WellBehaved(replies[c], Min(start + chunk, n) - start)
  {
    assert (c + 1) * chunk == c * chunk + chunk;
  }

  lemma FirstStart(chunk: nat)
    ensures Starts(chunk, 0, 0)
  {
  }

  lemma ChunkFrom(chunk: nat, c: nat, start: nat, i: nat)
    requires chunk >= 1 && Starts(chunk, c, start)
    ensures start <= i ==> c <= ChunkNo(chunk, i)
    ensures i < start ==> ChunkNo(chunk, i) < c
    ensures start <= i < start + chunk ==> ChunkNo(chunk, i) == c && Offset(chunk, i) == i - start
  {
    hide ChunkNo, Offset;
    ChunkOf(chunk, c, i);
  }

  /** Every write error of the chunk is on the account, under the cause the server
      gave, and nothing else is new. */
  ghost predicate Rejections(fs0: seq<EntryFailure>, fs: seq<EntryFailure>, errors: seq<WriteError>, start: nat) {
    && (forall f <- fs0 :: f in fs)
    && (forall e <- errors :: EntryFailure(start + e.index, if e.duplicate then Duplicate else Rejected) in fs)
    && (forall f <- fs ::
          || f in fs0
          || (start <= f.index && !f.cause.Unknown? && WriteError(f.index - start, f.cause.Duplicate?) in errors))
  }

  lemma NoRejections(fs0: seq<EntryFailure>, errors: seq<WriteError>, start: nat)
    ensures Rejections(fs0, fs0, errors[..0], start)
  {
  }

  lemma OneMoreRejection(fs0: seq<EntryFailure>, fs: seq<EntryFailure>, errors: seq<WriteError>, e: nat, start: nat)
    requires e < |errors| && Rejections(fs0, fs, errors[..e], start)
    ensures var f := EntryFailure(start + errors[e].index, if errors[e].duplicate then Duplicate else Rejected);
            Rejections(fs0, fs + [f], errors[..e + 1], start)
  {
    assert errors[..e + 1] == errors[..e] + [errors[e]];
  }

  lemma RejectionIsOne(fs0: seq<EntryFailure>, fs: seq<EntryFailure>, errors: seq<WriteError>, start: nat,
        f: EntryFailure)
    requires Rejections(fs0, fs, errors, start)
    ensures f in fs0 ==> f in fs
    ensures f in fs && f !in fs0 ==>
              start <= f.index && !f.cause.Unknown? && WriteError(f.index - start, f.cause.Duplicate?) in errors
  {
  }

  lemma ErrorIsRejected(fs0: seq<EntryFailure>, fs: seq<EntryFailure>, errors: seq<WriteError>, start: nat, i: nat,
        cause: Cause)
    requires Rejections(fs0, fs, errors, start) && i >= start && !cause.Unknown?
    requires WriteError(i - start, cause.Duplicate?) in errors
    ensures EntryFailure(i, cause) in fs
  {
  }

  function ErrorsOf(r: ChunkReply): seq<WriteError> { if r.SomeOut? then r.errors else [] }

  lemma BlamedInChunk(replies: seq<ChunkReply>, chunk: nat, c: nat, start: nat, i: nat, cause: Cause)
    requires chunk >= 1 && Starts(chunk, c, start) && c < |replies| && start <= i < start + chunk
    requires forall b :: 0 <= b <= c ==> !replies[b].Broken?
    ensures Blamed(replies, chunk, i, cause) <==>
              WriteError(i - start, cause.Duplicate?) in ErrorsOf(replies[c]) && !cause.Unknown?
  {
    hide ChunkNo, Offset, Starts;
    ChunkFrom(chunk, c, start, i);
  }

  /** How each kind of reply brings the account up to the end of its chunk. */
  lemma ToldChunk(replies: seq<ChunkReply>, chunk: nat, fs: seq<EntryFailure>, c: nat, start: nat, end: nat,
        more: seq<EntryFailure>)
    requires chunk >= 1 && Starts(chunk, c, start) && c < |replies| && Told(replies, chunk, fs, start)
    requires start <= end <= start + chunk && forall b :: 0 <= b <= c ==> !replies[b].Broken?
    requires WellBehaved(replies[c], end - start) && Rejections(fs, more, ErrorsOf(replies[c]), start)
    ensures Told(replies, chunk, more, end)
  {
    hide ChunkNo, Offset, Starts, Blamed, Rejections;
    forall f <- more ensures f.index < end && Blamed(replies, chunk, f.index, f.cause) {
      RejectionIsOne(fs, more, ErrorsOf(replies[c]), start, f);
      if f !in fs {
        BlamedInChunk(replies, chunk, c, start, f.index, f.cause);
      }
    }
    forall i: nat, cause | i < end && Blamed(replies, chunk, i, cause) ensures EntryFailure(i, cause) in more {
      if i < start {
        RejectionIsOne(fs, more, ErrorsOf(replies[c]), start, EntryFailure(i, cause));
      } else {
        BlamedInChunk(replies, chunk, c, start, i, cause);
        ErrorIsRejected(fs, more, ErrorsOf(replies[c]), start, i, cause);
      }
    }
  }

  lemma ToldRest(replies: seq<ChunkReply>, chunk: nat, fs: seq<EntryFailure>, c: nat, start: nat, end: nat,
        more: seq<EntryFailure>)
    requires chunk >= 1 && Starts(chunk, c, start) && c < |replies| && Told(replies, chunk, fs, start) && start <= end
    requires replies[c].Broken?
    requires forall f <- more :: f in fs || (start <= f.index < end && f.cause.Unknown?)
    requires forall f <- fs :: f in more
    requires forall i: nat :: start <= i < end ==> EntryFailure(i, Unknown) in more
    ensures Told(replies, chunk, more, end)
  {
    hide ChunkNo, Offset, Starts;
    forall f <- more ensures f.index < end && Blamed(replies, chunk, f.index, f.cause) {
      ChunkFrom(chunk, c, start, f.index);
    }
    forall i: nat, cause | i < end && Blamed(replies, chunk, i, cause) ensures EntryFailure(i, cause) in more {
      ChunkFrom(chunk, c, start, i);
    }
  }

  /** No failure, no fault: the server has taken every chunk whole. */
  lemma ToldNothing(replies: seq<ChunkReply>, chunk: nat, fs: seq<EntryFailure>, n: nat)
    requires chunk >= 1 && Told(replies, chunk, fs, n) && n <= |replies|
    requires AllWellBehaved(replies, chunk, n)
    ensures fs == [] <==> forall i: nat :: i < n ==> replies[ChunkNo(chunk, i)].AllIn?
  {
    hide ChunkNo, Offset;
    if i: nat :| i < n && !replies[ChunkNo(chunk, i)].AllIn? {
      var c := ChunkNo(chunk, i);
      ChunkOf(chunk, c, i);
      if exists b: nat :: b <= c && b < |replies| && replies[b].Broken? {
        assert Blamed(replies, chunk, i, Unknown);
      } else {
        var e := replies[c].errors[0];
        var j := c * chunk + e.index;
        ChunkOf(chunk, c, j);
        assert Blamed(replies, chunk, j, if e.duplicate then Duplicate else Rejected);
      }
    }
    if fs != [] {
      var f := fs[0];
      assert f in fs;
      BlameIsFault(replies, chunk, f.index, f.cause);
    }
  }

  lemma BlameIsFault(replies: seq<ChunkReply>, chunk: nat, i: nat, cause: Cause)
    requires chunk >= 1 && Blamed(replies, chunk, i, cause) && i < |replies|
    ensures exists j: nat :: j <= i && !replies[ChunkNo(chunk, j)].AllIn?
  {
    hide ChunkNo, Offset;
    var c := ChunkNo(chunk, i);
    ChunkOf(chunk, c, i);
    if b: nat :| b <= c && b < |replies| && replies[b].Broken? {
      var j := b * chunk;
      ChunkOf(chunk, b, j);
      Times(b, c, chunk);
      assert ChunkNo(chunk, j) == b;
    }
  }

  /** A lone task is told of a duplicate exactly when the server said so. */
  lemma ToldOfOne(replies: seq<ChunkReply>, chunk: nat, fs: seq<EntryFailure>)
    requires chunk >= 1 && Told(replies, chunk, fs, 1) && |replies| >= 1 && NamedOnce(fs)
    requires WellBehaved(replies[0], 1)
    ensures fs != [] && fs[0].cause.Duplicate? <==>
              replies[0].SomeOut? && exists e <- replies[0].errors :: e.duplicate
  {
    ChunkOf(chunk, 0, 0);
    if fs != [] && fs[0].cause.Duplicate? {
      assert fs[0] in fs;
    }
    if replies[0].SomeOut? {
      if e :| e in replies[0].errors && e.duplicate {
        assert e == WriteError(0, true);
        assert Blamed(replies, chunk, 0, Duplicate);
        var k :| 0 <= k < |fs| && fs[k] == EntryFailure(0, Duplicate);
        assert fs[0] in fs;
      }
    }
  }

  /** The error of a lone duplicate names the key and, if the lookup still finds
      it, the task that has it. */
  method DuplicateError(keys: seq<string>, holder: Option<string>) returns (err: EnqueueError)
    ensures err.DuplicateTask? && err.existing == (if holder.Some? then holder.value else "")
    ensures if exists k <- keys :: k != "" then err.key in keys && err.key != "" else err.key == ""
  {
    var key := "";
    for i := 0 to |keys|
      invariant key == "" && forall j :: 0 <= j < i ==> keys[j] == ""
    {
      if keys[i] != "" {
        key := keys[i];
        break;
      }
    }
    err := DuplicateTask(key, if holder.Some? then holder.value else "");
  }

  /** The store's Enqueue of tasks with these keys; `bson` says which payloads
      convert.  `minted` are the ids made up front, one per task; `replies[c]` is
      what InsertMany says to the c-th chunk.  A lone task that meets a
      unique-key conflict gets the richer error and no ids; `holder` is what the
      lookup of its key finds. */
  method StoreEnqueue(keys: seq<string>, bson: seq<bool>, minted: seq<string>, chunk: nat, replies: seq<ChunkReply>,
        holder: Option<string>)
    returns (ids: seq<string>, err: EnqueueError, ghost inserted: set<nat>)
    requires |keys| == |bson| == |minted|
    requires 1 <= chunk && "" !in minted && |minted| <= |replies|
    requires AllWellBehaved(replies, chunk, |minted|)
    ensures err.Refused? <==> false in bson
    ensures err.Refused? ==> err.why == PayloadNotBson && ids == [] && inserted == {}
    ensures err.NoError? ==> ids == minted && forall i :: 0 <= i < |ids| ==> i in inserted
    ensures err.Partial? ==>
              && err.failures != [] && Accounted(ids, minted, err.failures, inserted, |minted|)
              && forall f <- err.failures :: !f.cause.Unknown? ==> f.index !in inserted
    ensures err.DuplicateTask? ==>
              && ids == [] && |minted| == 1 && 0 !in inserted
              && err.key == keys[0] && err.existing == (if holder.Some? then holder.value else "")
    ensures false !in bson ==>
              && (err.NoError? <==> forall i: nat :: i < |minted| ==> replies[ChunkNo(chunk, i)].AllIn?)
              && (err.DuplicateTask? <==>
                    |minted| == 1 && replies[0].SomeOut? && exists e <- replies[0].errors :: e.duplicate)
              && (err.Partial? ==> Told(replies, chunk, err.failures, |minted|))
  {
    hide ChunkNo, Offset;
    inserted := {};
    if |minted| == 0 {
      return [], NoError, {};
    }
    for i := 0 to |bson|
      invariant forall j :: 0 <= j < i ==> bson[j]
    {
      if !bson[i] {
        return [], Refused(PayloadNotBson), {};
      }
    }
    var failures;
    ids, failures, inserted := InsertChunks(minted, chunk, replies);
    ToldNothing(replies, chunk, failures, |minted|);
    if |minted| == 1 {
      ToldOfOne(replies, chunk, failures);
    }
    hide Told;
    if |failures| == 0 {
      assert forall i :: 0 <= i < |ids| ==> i !in FailedIndexes(failures);
      return ids, NoError, inserted;
    }
    if |minted| == 1 && failures[0].cause.Duplicate? {
      assert failures[0] in failures && keys[0] in keys;
      err := DuplicateError(keys, holder);
      return [], err, inserted;
    }
    err := Partial(failures);
  }

  /** Its loop over the chunks. */
  method InsertChunks(minted: seq<string>, chunk: nat, replies: seq<ChunkReply>)
    returns (ids: seq<string>, failures: seq<EntryFailure>, ghost inserted: set<nat>)
    requires 1 <= chunk && "" !in minted && |minted| <= |replies|
    requires AllWellBehaved(replies, chunk, |minted|)
    ensures Accounted(ids, minted, failures, inserted, |minted|)
    ensures forall f <- failures :: !f.cause.Unknown? ==> f.index !in inserted
    ensures Told(replies, chunk, failures, |minted|)
  {
    hide Told, Rejections, Starts, AllWellBehaved, WellBehaved, Accounted;
    FirstStart(chunk);
    NothingAccounted(minted);
    ids, failures, inserted := minted, [], {};
    ToldAtFirst(replies, chunk);
    var start, c := 0, 0;
    while start < |minted|
      invariant 0 <= start <= |minted| && c <= start
      invariant start < |minted| ==> Starts(chunk, c, start)
      invariant Accounted(ids, minted, failures, inserted, start)
      invariant forall f <- failures :: !f.cause.Unknown? ==> f.index !in inserted
      invariant Told(replies, chunk, failures, start) && forall b :: 0 <= b < c && b < |replies| ==> !replies[b].Broken?
      decreases |minted| - start
    {
      ghost var before := failures;
      var end := Min(start + chunk, |minted|);
      NextStart(replies, chunk, |minted|, c, start);
      match replies[c] {
        case AllIn =>
          ChunkIsIn(ids, minted, failures, inserted, start, end);
          inserted := inserted + Entries(minted, start, end);
          NoRejections(before, [], start);
          ToldChunk(replies, chunk, before, c, start, end, failures);
        case SomeOut(errors) =>
          ids, failures, inserted := Reject(minted, ids, failures, inserted, start, end, errors);
          ToldChunk(replies, chunk, before, c, start, end, failures);
        case Broken(landed) =>
          ghost var ids0, more := ids, set i <- landed | start <= i < end;
          ids, failures := FailRest(minted, ids, failures, inserted, start);
          MoreLanded(ids0, ids, minted, before, failures, inserted, start, more);
          inserted := inserted + more;
          ToldRest(replies, chunk, before, c, start, |minted|, failures);
          start := |minted|;
          break;
      }
      start, c := end, c + 1;
    }
  }

  lemma NothingAccounted(minted: seq<string>)
    ensures Accounted(minted, minted, [], {}, 0)
  {
  }

  lemma ChunkIsIn(ids: seq<string>, minted: seq<string>, fs: seq<EntryFailure>, inserted: set<nat>, start: nat,
        end: nat)
    requires Accounted(ids, minted, fs, inserted, start) && start <= end <= |minted| && "" !in minted
    requires forall f <- fs :: !f.cause.Unknown? ==> f.index !in inserted
    ensures Accounted(ids, minted, fs, inserted + Entries(minted, start, end), end)
    ensures forall f <- fs :: !f.cause.Unknown? ==> f.index !in inserted + Entries(minted, start, end)
  {
    assert forall i <- FailedIndexes(fs) :: i < start;
  }

  lemma MoreLanded(
      ids0: seq<string>, ids: seq<string>, minted: seq<string>, fs0: seq<EntryFailure>, fs: seq<EntryFailure>,
      inserted: set<nat>, start: nat, landed: set<nat>)
    requires Accounted(ids0, minted, fs0, inserted, start) && Accounted(ids, minted, fs, inserted, |minted|)
    requires forall i <- landed :: start <= i < |minted|
    requires forall f <- fs0 :: !f.cause.Unknown? ==> f.index !in inserted
    requires forall f <- fs :: f in fs0 || f.cause.Unknown?
    ensures Accounted(ids, minted, fs, inserted + landed, |minted|)
    ensures forall f <- fs :: !f.cause.Unknown? ==> f.index !in inserted + landed
  {
    hide NamedOnce;
  }

  lemma ToldAtFirst(replies: seq<ChunkReply>, chunk: nat)
    requires chunk >= 1
    ensures Told(replies, chunk, [], 0)
  {
  }

  /** Per-entry failures of one chunk; the rest of the chunk was inserted. */
  method Reject(
      minted: seq<string>, ids0: seq<string>, fs0: seq<EntryFailure>, ghost inserted0: set<nat>,
      start: nat, end: nat, errors: seq<WriteError>)
    returns (ids: seq<string>, failures: seq<EntryFailure>, ghost inserted: set<nat>)
    requires start <= end <= |minted| && "" !in minted && Accounted(ids0, minted, fs0, inserted0, start)
    requires WellBehaved(SomeOut(errors), end - start)
    requires forall f <- fs0 :: !f.cause.Unknown? ==> f.index !in inserted0
    ensures Accounted(ids, minted, failures, inserted, end)
    ensures forall f <- failures :: !f.cause.Unknown? ==> f.index !in inserted
    ensures failures != [] && Rejections(fs0, failures, errors, start)
  {
    hide NamedOnce, Rejections, FailedIndexes;
    ids, failures := ids0, fs0;
    NoRejections(fs0, errors, start);
    FailedBelow(ids0, minted, fs0, inserted0, start);
    ghost var out: set<nat> := {};
    for e := 0 to |errors|
      invariant |ids| == |minted| && NamedOnce(failures)
      invariant out == set k | 0 <= k < e :: start + errors[k].index
      invariant FailedIndexes(failures) == FailedIndexes(fs0) + out && forall i <- FailedIndexes(fs0) :: i < start
      invariant forall i :: 0 <= i < |ids| ==> ids[i] == if i in out then "" else ids0[i]
      invariant forall f <- failures :: f in fs0 || f.index in out
      invariant |failures| == |fs0| + e && Rejections(fs0, failures, errors[..e], start)
    {
      var gi := start + errors[e].index;
      ids := ids[gi := ""];
      var f := EntryFailure(gi, if errors[e].duplicate then Duplicate else Rejected);
      assert gi !in out;
      OneMoreFailure(failures, f);
      OneMoreRejection(fs0, failures, errors, e, start);
      failures := failures + [f];
      out := out + {gi};
    }
    assert errors[..|errors|] == errors;
    inserted := inserted0 + (Entries(minted, start, end) - out);
    ChunkAccounted(minted, ids0, ids, fs0, failures, inserted0, start, end, out);
  }

  lemma FailedBelow(ids: seq<string>, minted: seq<string>, fs: seq<EntryFailure>, inserted: set<nat>, start: nat)
    requires Accounted(ids, minted, fs, inserted, start)
    ensures NamedOnce(fs) && forall i <- FailedIndexes(fs) :: i < start
  {
  }

  lemma ChunkAccounted(
      minted: seq<string>, ids0: seq<string>, ids: seq<string>, fs0: seq<EntryFailure>, fs: seq<EntryFailure>,
      inserted: set<nat>, start: nat, end: nat, out: set<nat>)
    requires start <= end <= |minted| == |ids| && "" !in minted && Accounted(ids0, minted, fs0, inserted, start)
    requires NamedOnce(fs) && FailedIndexes(fs) == FailedIndexes(fs0) + out && forall i <- out :: start <= i < end
    requires forall i :: 0 <= i < |ids| ==> ids[i] == if i in out then "" else ids0[i]
    requires forall f <- fs0 :: !f.cause.Unknown? ==> f.index !in inserted
    requires forall f <- fs :: f in fs0 || f.index in out
    ensures Accounted(ids, minted, fs, inserted + (Entries(minted, start, end) - out), end)
    ensures forall f <- fs :: !f.cause.Unknown? ==> f.index !in inserted + (Entries(minted, start, end) - out)
  {
    hide NamedOnce;
    assert forall f <- fs0 :: f.index in FailedIndexes(fs0);
    assert forall i <- FailedIndexes(fs0) :: i < start;
    forall i | 0 <= i < end ensures ids[i] == "" <==> i in FailedIndexes(fs) {
      assert ids0[i] == minted[i] || i < start;
    }
  }

  /** A hard error: this chunk's fate is unknown and later ones were never tried. */
  method FailRest(
      minted: seq<string>, ids0: seq<string>, fs0: seq<EntryFailure>, ghost inserted: set<nat>, start: nat)
    returns (ids: seq<string>, failures: seq<EntryFailure>)
    requires start <= |minted| && "" !in minted && Accounted(ids0, minted, fs0, inserted, start)
    ensures Accounted(ids, minted, failures, inserted, |minted|)
    ensures forall f <- failures :: f in fs0 || (start <= f.index < |minted| && f.cause.Unknown?)
    ensures forall f <- fs0 :: f in failures
    ensures forall i: nat :: start <= i < |minted| ==> EntryFailure(i, Unknown) in failures
  {
    ids, failures := ids0, fs0;
    for i := start to |minted|
      invariant Accounted(ids, minted, failures, inserted, i)
      invariant forall f <- failures :: f in fs0 || (start <= f.index < i && f.cause.Unknown?)
      invariant forall f <- fs0 :: f in failures
      invariant forall j: nat :: start <= j < i ==> EntryFailure(j, Unknown) in failures
    {
      var f := EntryFailure(i, Unknown);
      OneMoreFailure(failures, f);
      ids := ids[i := ""];
      failures := failures + [f];
    }
  }

  // ----- The manager's side -----

  datatype QueuePolicy = QueuePolicy(ttl: int, maxAttempts: int)

  datatype TaskPolicy = TaskPolicy(runAt: Option<int>, delay: int, maxAttempts: int, uniqueKey: string)

  const NO_POLICY := TaskPolicy(None, 0, 0, "")

  function PolicyOf(policies: seq<TaskPolicy>): TaskPolicy {
    if |policies| == 1 then policies[0] else NO_POLICY
  }

  /** TaskPolicy, then QueuePolicy, then the manager's default; 0 inherits. */
  function ResolveMaxAttempts(p: TaskPolicy, qp: QueuePolicy, fallback: int): int {
    if p.maxAttempts != 0 then p.maxAttempts else if qp.maxAttempts != 0 then qp.maxAttempts else fallback
  }

  /** marshalPayload, given what the JSON encoder wrote, if it could: nothing and
      `null` are no payload, anything else has to be an object. */
  function Payload(json: Option<string>): Option<string> {
    match json
    case None => None
    case Some(b) => if b == "" || b == "null" then Some("") else if b[0] != '{' then None else json
  }

  /** The innermost setting that is not zero counts; a call without a policy has
      none of its own. */
  lemma SettingsSay(policies: seq<TaskPolicy>, qp: QueuePolicy, fallback: int)
    ensures var p, n := PolicyOf(policies), ResolveMaxAttempts(PolicyOf(policies), qp, fallback);
            && (|policies| == 1 ==> p == policies[0])
            && (policies == [] ==> p.runAt == None && p.delay == 0 && p.maxAttempts == 0 && p.uniqueKey == "")
            && (p.maxAttempts != 0 ==> n == p.maxAttempts)
            && (p.maxAttempts == 0 && qp.maxAttempts != 0 ==> n == qp.maxAttempts)
            && (p.maxAttempts == qp.maxAttempts == 0 ==> n == fallback)
  {
  }

  /** An object goes through as it is, nothing and null as nothing, and no other
      value goes through. */
  lemma PayloadsSay(json: Option<string>)
    ensures Payload(json).None? <==> json.None? || (json.value !in {"", "null"} && !("{" <= json.value))
    ensures json.Some? && "{" <= json.value ==> Payload(json) == json
    ensures json.Some? && json.value in {"", "null"} ==> Payload(json) == Some("")
  {
  }

  function NewTask(queue: string, qp: QueuePolicy, kind: string, p: TaskPolicy, maxAttempts: int, payload: string,
        now: int): Task {
    var runAt := if p.runAt.Some? then p.runAt.value else now + p.delay;
    Task("", queue, kind, p.uniqueKey, payload, Pending, 0, maxAttempts, runAt,
         if qp.ttl > 0 then Some(runAt + qp.ttl) else None, "", ZERO_TIME, "", [], "", now, now)
  }

  lemma {:induction false} BlanksAreFailures(ids: seq<string>, minted: seq<string>, fs: seq<EntryFailure>,
        inserted: set<nat>)
    requires Accounted(ids, minted, fs, inserted, |minted|)
    ensures |set i: nat | i < |ids| && ids[i] != ""| == |ids| - |fs|
  {
    var filled, all := set i: nat | i < |ids| && ids[i] != "", set i: nat | i < |ids| && ids[i] in ids;
    CountBelow(ids);
    FailuresAreDistinct(fs);
    assert filled == all - FailedIndexes(fs);
    assert FailedIndexes(fs) <= all;
  }

  lemma {:induction false} CountBelow(ids: seq<string>)
    ensures |set i: nat | i < |ids| && ids[i] in ids| == |ids|
  {
    if ids != [] {
      var n := |ids| - 1;
      CountBelow(ids[..n]);
      assert (set i: nat | i < |ids| && ids[i] in ids)
          == (set i: nat | i < n && ids[..n][i] in ids[..n]) + {n};
    }
  }

  lemma {:induction false} FailuresAreDistinct(fs: seq<EntryFailure>)
    requires NamedOnce(fs)
    ensures |FailedIndexes(fs)| == |fs|
  {
    if fs == [] {
      assert FailedIndexes(fs) == {};
    } else {
      hide NamedOnce, FailedIndexes;
      var n := |fs| - 1;
      assert fs == fs[..n] + [fs[n]];
      OneMoreFailure(fs[..n], fs[n]);
      FailuresAreDistinct(fs[..n]);
    }
  }

  /** EnqueueMany's first loop: the tasks, one per payload, unless one will not do. */
  method NewTasks(queue: string, qp: QueuePolicy, kind: string, policy: TaskPolicy, maxAttempts: int,
        payloads: seq<Option<string>>, now: int)
    returns (tasks: seq<Task>, ok: bool)
    requires maxAttempts >= 1
    ensures ok <==> forall i :: 0 <= i < |payloads| ==> Payload(payloads[i]).Some?
    ensures !ok ==> tasks == []
    ensures ok ==> |tasks| == |payloads|
    ensures forall i :: 0 <= i < |tasks| ==>
              && Fresh(tasks[i]) && Some(tasks[i].payload) == Payload(payloads[i])
              && tasks[i].queue == queue && tasks[i].kind == kind && tasks[i].uniqueKey == policy.uniqueKey
    ensures forall i :: 0 <= i < |tasks| ==>
              && tasks[i].maxAttempts == maxAttempts
              && tasks[i].runAt == (if policy.runAt.Some? then policy.runAt.value else now + policy.delay)
              && (if qp.ttl > 0 then tasks[i].expiresAt == Some(tasks[i].runAt + qp.ttl) else tasks[i].expiresAt.None?)
              && tasks[i].createdAt == tasks[i].updatedAt == now
  {
    tasks := [];
    for i := 0 to |payloads|
      invariant |tasks| == i
      invariant forall j :: 0 <= j < i ==>
                  && Payload(payloads[j]).Some?
                  && tasks[j] == NewTask(queue, qp, kind, policy, maxAttempts, Payload(payloads[j]).value, now)
    {
      var payload := Payload(payloads[i]);
      if payload.None? {
        return [], false;
      }
      tasks := tasks + [NewTask(queue, qp, kind, policy, maxAttempts, payload.value, now)];
    }
    ok := true;
  }

  /** Its second loop: how many got an id. */
  method CountFilled(ids: seq<string>) returns (count: nat)
    ensures count == |set j: nat | j < |ids| && ids[j] != ""|
  {
    count := 0;
    ghost var filled: set<nat> := {};
    for i := 0 to |ids|
      invariant filled == set j: nat | j < i && ids[j] != ""
      invariant count == |filled|
    {
      if ids[i] == "" {
        continue;
      }
      count := count + 1;
      filled := filled + {i};
    }
  }

  /** What a manager knows of its queues. */
  datatype Manager = Manager(queues: map<string, QueuePolicy>, registered: bool, defaultMaxAttempts: int)

  /** A call of EnqueueMany; a payload is what the JSON encoder made of it, if
      it could, and `bson` says which of them the store can convert. */
  datatype Request = Request(
    queue: string,
    kind: string,
    payloads: seq<Option<string>>,
    bson: seq<bool>,
    policies: seq<TaskPolicy>)

  /** What is wrong with a call that is refused.  An empty batch is checked less. */
  ghost predicate Grounds(m: Manager, r: Request, why: Refusal) {
    var p := PolicyOf(r.policies);
    match why
    case NoType => r.kind == ""
    case QueueNotDeclared => r.queue !in m.queues
    case NotRegistered => !m.registered
    case SeveralPolicies => r.payloads != [] && |r.policies| > 1
    case NoAttempts =>
      r.payloads != [] && r.queue in m.queues && ResolveMaxAttempts(p, m.queues[r.queue], m.defaultMaxAttempts) < 1
    case KeyForMany => |r.payloads| > 1 && p.uniqueKey != ""
    case PayloadNotAnObject => exists i :: 0 <= i < |r.payloads| && Payload(r.payloads[i]).None?
    case PayloadNotBson => false in r.bson
  }

  /** EnqueueMany: a call is refused exactly when there are grounds to, and for
      one of them; otherwise every task handed to the store is fresh, and the
      enqueued count is the inputs less the reported failures, whatever the
      store's answer. */
  method EnqueueMany(
      m: Manager, r: Request, now: int, minted: seq<string>, chunk: nat, replies: seq<ChunkReply>,
      holder: Option<string>)
    returns (tasks: seq<Task>, ids: seq<string>, err: EnqueueError, count: nat, ghost inserted: set<nat>)
    requires |minted| == |r.payloads| == |r.bson| && 1 <= chunk && "" !in minted && |minted| <= |replies|
    requires AllWellBehaved(replies, chunk, |minted|)
    ensures err.Refused? <==> exists why :: Grounds(m, r, why)
    ensures err.Refused? ==> Grounds(m, r, err.why)
    ensures err.Refused? || r.payloads == [] ==> ids == [] && count == 0 && inserted == {}
    ensures |tasks| <= |r.payloads|
    ensures !err.Refused? ==> |tasks| == |r.payloads| && r.queue in m.queues
    ensures forall i :: 0 <= i < |tasks| ==>
              && Fresh(tasks[i]) && Some(tasks[i].payload) == Payload(r.payloads[i])
              && tasks[i].queue == r.queue && tasks[i].kind == r.kind
              && tasks[i].uniqueKey == PolicyOf(r.policies).uniqueKey
    ensures !err.Refused? ==>
              var p, qp := PolicyOf(r.policies), m.queues[r.queue];
              forall i :: 0 <= i < |tasks| ==>
                && tasks[i].maxAttempts == ResolveMaxAttempts(p, qp, m.defaultMaxAttempts)
                && tasks[i].runAt == (if p.runAt.Some? then p.runAt.value else now + p.delay)
                && tasks[i].expiresAt == (if qp.ttl > 0 then Some(tasks[i].runAt + qp.ttl) else None)
                && tasks[i].createdAt == tasks[i].updatedAt == now
    ensures err.NoError? ==> count == |r.payloads|
    ensures err.Partial? ==>
              count == |r.payloads| - |err.failures|
              && Accounted(ids, minted, err.failures, inserted, |minted|)
    ensures err.DuplicateTask? ==>
              && count == 0 && |r.payloads| == 1 && 0 !in inserted && err.key == PolicyOf(r.policies).uniqueKey
              && err.existing == (if holder.Some? then holder.value else "")
    ensures !err.Refused? ==>
              && (err.NoError? <==> forall i: nat :: i < |minted| ==> replies[ChunkNo(chunk, i)].AllIn?)
              && (err.DuplicateTask? <==>
                    |minted| == 1 && replies[0].SomeOut? && exists e <- replies[0].errors :: e.duplicate)
              && (err.Partial? ==> Told(replies, chunk, err.failures, |minted|))
  {
    hide ChunkNo, Offset, Told;
    tasks, ids, count, inserted := [], [], 0, {};
    if r.kind == "" {
      err := Refused(NoType);
      assert Grounds(m, r, NoType);
      return;
    }
    if r.queue !in m.queues {
      err := Refused(QueueNotDeclared);
      assert Grounds(m, r, QueueNotDeclared);
      return;
    }
    if !m.registered {
      err := Refused(NotRegistered);
      assert Grounds(m, r, NotRegistered);
      return;
    }
    if |r.payloads| == 0 {
      err := NoError;
      return;
    }
    if |r.policies| > 1 {
      err := Refused(SeveralPolicies);
      assert Grounds(m, r, SeveralPolicies);
      return;
    }
    var p, qp := PolicyOf(r.policies), m.queues[r.queue];
    var maxAttempts := ResolveMaxAttempts(p, qp, m.defaultMaxAttempts);
    if maxAttempts < 1 {
      err := Refused(NoAttempts);
      assert Grounds(m, r, NoAttempts);
      return;
    }
    if p.uniqueKey != "" && |r.payloads| > 1 {
      err := Refused(KeyForMany);
      assert Grounds(m, r, KeyForMany);
      return;
    }
    var ok;
    tasks, ok := NewTasks(r.queue, qp, r.kind, p, maxAttempts, r.payloads, now);
    if !ok {
      err := Refused(PayloadNotAnObject);
      assert Grounds(m, r, PayloadNotAnObject);
      return;
    }
    var keys := seq(|tasks|, i requires 0 <= i < |tasks| => tasks[i].uniqueKey);
    ids, err, inserted := StoreEnqueue(keys, r.bson, minted, chunk, replies, holder);
    count := CountFilled(ids);
    if err.Refused? {
      assert Grounds(m, r, PayloadNotBson);
    } else if err.Partial? {
      BlanksAreFailures(ids, minted, err.failures, inserted);
    } else if err.NoError? {
      CountBelow(ids);
      assert (set j: nat | j < |ids| && ids[j] != "") == set j: nat | j < |ids| && ids[j] in ids;
    }
  }
}
