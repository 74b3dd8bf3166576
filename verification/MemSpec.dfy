/** What the operations of the in-memory store do to its state, as functions. */
module MemSpec {
  import opened Tasks
  import opened Lifecycle
  import opened Strings

  /** `seqNo` mints both ids and lease tokens. */
  datatype MemState = MemState(seqNo: nat, tasks: map<string, Task>)

  // ----- Transitions that differ from the Mongo store's -----

  function MemCompleted(t: Task, result: string, now: int): Task {
    t.(status := Done, result := result, leasedBy := "", leaseToken := "", uniqueKey := "", updatedAt := now)
  }

  function MemExtended(t: Task, now: int, lease: int): Task {
    t.(leasedUntil := now + lease)
  }

  function MemRequeued(t: Task, now: int): Task {
    t.(status := Pending, attempts := 0, runAt := now, result := "", leasedBy := "", leaseToken := "", updatedAt := now)
  }

  function MemReaped(t: Task, now: int): Task {
    t.(status := Dead, errors := t.errors + [TaskError(now, t.attempts, t.leasedBy, REAP_MESSAGE)],
       leasedBy := "", leaseToken := "", uniqueKey := "")
  }

  function MemFinalized(t: Task, o: Outcome, now: int): Task {
    match o
    case Success(_, result) => MemCompleted(t, result, now)
    case Failure(_, error, retryAt, terminal) => Failed(t, error, retryAt, terminal, now)
  }

  // ----- Enqueue -----

  predicate Conflict(m: map<string, Task>, key: string) {
    key != "" && exists id <- m :: Active(m[id]) && m[id].uniqueKey == key
  }

  function Insert(s: MemState, t: Task): MemState {
    var id := TaskId(s.seqNo + 1);
    MemState(s.seqNo + 1, s.tasks[id := t.(id := id)])
  }

  /** In order, up to the first unique-key conflict; what is in stays in. */
  function EnqueueAll(s: MemState, ts: seq<Task>): MemState
    decreases |ts|
  {
    if ts == [] || Conflict(s.tasks, ts[0].uniqueKey) then s else EnqueueAll(Insert(s, ts[0]), ts[1..])
  }

  /** How many of them get in. */
  function InsertedBy(s: MemState, ts: seq<Task>): nat
    decreases |ts|
  {
    if ts == [] || Conflict(s.tasks, ts[0].uniqueKey) then 0 else 1 + InsertedBy(Insert(s, ts[0]), ts[1..])
  }

  /** No unique key is taken, by a stored task or by an earlier one of the call. */
  ghost predicate NoClash(m: map<string, Task>, ts: seq<Task>) {
    forall i :: 0 <= i < |ts| && ts[i].uniqueKey != "" ==>
      !Conflict(m, ts[i].uniqueKey) && forall j :: 0 <= j < i ==> ts[j].uniqueKey != ts[i].uniqueKey
  }

  lemma EnqueueGoesOn(s: MemState, ts: seq<Task>, i: nat)
    requires i <= |ts|
    ensures i == |ts| ==> EnqueueAll(s, ts[i..]) == s
    ensures i < |ts| ==>
              EnqueueAll(s, ts[i..])
              == if Conflict(s.tasks, ts[i].uniqueKey) then s else EnqueueAll(Insert(s, ts[i]), ts[i + 1..])
  {
    if i < |ts| {
      assert ts[i..][1..] == ts[i + 1..];
    }
  }

  // ----- Claims -----

  predicate WantedAndRunnable(opts: ClaimOptions, now: int, t: Task) {
    Matches(opts, t) && Runnable(t, now)
  }

  predicate Earlier(a: Task, b: Task) {
    a.runAt < b.runAt || (a.runAt == b.runAt && LexLess(a.id, b.id))
  }

  ghost predicate IsFirst(m: map<string, Task>, opts: ClaimOptions, now: int, id: string) {
    && id in m && WantedAndRunnable(opts, now, m[id])
    && forall j <- m | j != id && WantedAndRunnable(opts, now, m[j]) :: Earlier(m[id], m[j])
  }

  /** The first task in (run_at, id) order that the claim may take. */
  ghost function First(m: map<string, Task>, opts: ClaimOptions, now: int): Option<string> {
    if exists id :: IsFirst(m, opts, now, id) then
      var id :| IsFirst(m, opts, now, id);
      Some(id)
    else None
  }

  function ClaimIt(s: MemState, id: string, opts: ClaimOptions, now: int): MemState
    requires id in s.tasks
  {
    var n := s.seqNo + 1;
    MemState(n, s.tasks[id := Claimed(s.tasks[id], now, opts.workerId, LeaseToken(n), opts.lease)])
  }

  ghost function ClaimOne(s: MemState, opts: ClaimOptions, now: int): (MemState, Option<Task>) {
    match First(s.tasks, opts, now)
    case None => (s, None)
    case Some(id) =>
      var s' := ClaimIt(s, id, opts, now);
      (s', Some(s'.tasks[id]))
  }

  /** At most `k` claims in a row, all by the same clock reading. */
  ghost function ClaimRounds(s: MemState, opts: ClaimOptions, now: int, k: nat): (MemState, seq<Task>)
    decreases k
  {
    if k == 0 then (s, [])
    else
      var (s', t) := ClaimOne(s, opts, now);
      if t.None? then (s', [])
      else
        var (s'', rest) := ClaimRounds(s', opts, now, k - 1);
        (s'', [t.value] + rest)
  }

  /** With `n` rounds to go from `s`, the batch that began as `k` rounds from
      `start` has so far taken `out`. */
  ghost predicate RoundsSoFar(start: MemState, opts: ClaimOptions, now: int, k: nat, s: MemState, out: seq<Task>,
        n: nat) {
    var r := ClaimRounds(s, opts, now, n);
    ClaimRounds(start, opts, now, k) == (r.0, out + r.1)
  }

  lemma RoundsBegin(start: MemState, opts: ClaimOptions, now: int, k: nat)
    ensures RoundsSoFar(start, opts, now, k, start, [], k)
  {
    var r := ClaimRounds(start, opts, now, k);
    assert [] + r.1 == r.1;
  }

  lemma RoundsGoOn(start: MemState, opts: ClaimOptions, now: int, k: nat, s: MemState, out: seq<Task>, n: nat)
    requires RoundsSoFar(start, opts, now, k, s, out, n)
    ensures n == 0 ==> ClaimRounds(start, opts, now, k) == (s, out)
    ensures n > 0 ==>
              var (s', t) := ClaimOne(s, opts, now);
              if t.None? then ClaimRounds(start, opts, now, k) == (s', out)
              else RoundsSoFar(start, opts, now, k, s', out + [t.value], n - 1)
  {
    hide ClaimOne;
    assert out + [] == out;
    var (s', t) := ClaimOne(s, opts, now);
    if n > 0 && t.Some? {
      var rest := ClaimRounds(s', opts, now, n - 1).1;
      assert out + ([t.value] + rest) == out + [t.value] + rest;
    }
  }

  // ----- Fenced writes and sweeps -----

  predicate HeldBy(m: map<string, Task>, k: Key) {
    k.id in m && Held(m[k.id], k.token)
  }

  function MemFinalizeOne(m: map<string, Task>, o: Outcome, now: int): map<string, Task> {
    if HeldBy(m, KeyOf(o.task)) then m[o.task.id := MemFinalized(m[o.task.id], o, now)] else m
  }

  function MemExtendOne(m: map<string, Task>, k: Key, now: int, lease: int): map<string, Task> {
    if HeldBy(m, k) then m[k.id := MemExtended(m[k.id], now, lease)] else m
  }

  /** One after the other; each write reads the clock for itself. */
  function MemFinalizeAll(m: map<string, Task>, os: seq<Outcome>, nows: seq<int>): map<string, Task>
    requires |os| == |nows|
  {
    if os == [] then m
    else MemFinalizeOne(MemFinalizeAll(m, os[..|os| - 1], nows[..|os| - 1]), os[|os| - 1], nows[|os| - 1])
  }

  /** How many of them come too late. */
  function MemLost(m: map<string, Task>, os: seq<Outcome>, nows: seq<int>): nat
    requires |os| == |nows|
  {
    if os == [] then 0
    else
      var n := |os| - 1;
      MemLost(m, os[..n], nows[..n]) + if HeldBy(MemFinalizeAll(m, os[..n], nows[..n]), KeyOf(os[n].task)) then 0 else 1
  }

  lemma NothingFinalized(m: map<string, Task>)
    ensures MemFinalizeAll(m, [], []) == m && MemLost(m, [], []) == 0
  {
  }

  lemma FinalizeGoesOn(m: map<string, Task>, os: seq<Outcome>, nows: seq<int>, i: nat)
    requires i < |os| == |nows|
    ensures var m' := MemFinalizeAll(m, os[..i], nows[..i]);
            && MemFinalizeAll(m, os[..i + 1], nows[..i + 1]) == MemFinalizeOne(m', os[i], nows[i])
            && MemLost(m, os[..i + 1], nows[..i + 1])
               == MemLost(m, os[..i], nows[..i]) + if HeldBy(m', KeyOf(os[i].task)) then 0 else 1
  {
    assert os[..i + 1][..i] == os[..i] && nows[..i + 1][..i] == nows[..i];
  }

  function MemRequeueAmong(m: map<string, Task>, ids: set<string>, now: int): map<string, Task> {
    map id <- m :: if id in ids then MemRequeued(m[id], now) else m[id]
  }

  function MemReapAmong(m: map<string, Task>, ids: set<string>, now: int): map<string, Task> {
    map id <- m :: if id in ids then MemReaped(m[id], now) else m[id]
  }

  /** A sweep that has `rest` still to visit. */
  ghost predicate RequeueSoFar(m: map<string, Task>, kind: string, now: int, rest: set<string>, m': map<string, Task>,
        n: nat) {
    m' == MemRequeueAmong(m, DeadIds(m, kind) - rest, now) && n == |DeadIds(m, kind) - rest|
  }

  ghost predicate ReapSoFar(m: map<string, Task>, now: int, rest: set<string>, m': map<string, Task>, n: nat) {
    m' == MemReapAmong(m, ReapableIds(m, now) - rest, now) && n == |ReapableIds(m, now) - rest|
  }

  lemma SweepBegins(m: map<string, Task>, kind: string, now: int)
    ensures RequeueSoFar(m, kind, now, m.Keys, m, 0) && ReapSoFar(m, now, m.Keys, m, 0)
  {
    assert DeadIds(m, kind) - m.Keys == {} && ReapableIds(m, now) - m.Keys == {};
  }

  lemma SweepEnds(m: map<string, Task>, kind: string, now: int, m': map<string, Task>, n: nat)
    ensures RequeueSoFar(m, kind, now, {}, m', n) ==>
              m' == MemRequeueAmong(m, DeadIds(m, kind), now)
              && n == |DeadIds(m, kind)|
    ensures ReapSoFar(m, now, {}, m', n) ==>
              m' == MemReapAmong(m, ReapableIds(m, now), now)
              && n == |ReapableIds(m, now)|
  {
    assert DeadIds(m, kind) - {} == DeadIds(m, kind) && ReapableIds(m, now) - {} == ReapableIds(m, now);
  }

  lemma RequeueGoesOn(m: map<string, Task>, kind: string, now: int, rest: set<string>, m': map<string, Task>, n: nat,
        id: string)
    requires RequeueSoFar(m, kind, now, rest, m', n) && id in rest && id in m
    ensures id in m' && m'[id] == m[id]
    ensures if IsDead(m[id], kind) then RequeueSoFar(m, kind, now, rest - {id}, m'[id := MemRequeued(m[id], now)],
        n + 1)
            else RequeueSoFar(m, kind, now, rest - {id}, m', n)
  {
    var ids := DeadIds(m, kind);
    assert ids - (rest - {id}) == if id in ids then ids - rest + {id} else ids - rest;
    hide MemRequeued;
  }

  lemma ReapGoesOn(m: map<string, Task>, now: int, rest: set<string>, m': map<string, Task>, n: nat, id: string)
    requires ReapSoFar(m, now, rest, m', n) && id in rest && id in m
    ensures id in m' && m'[id] == m[id]
    ensures if Reapable(m[id], now) then ReapSoFar(m, now, rest - {id}, m'[id := MemReaped(m[id], now)], n + 1)
            else ReapSoFar(m, now, rest - {id}, m', n)
  {
    var ids := ReapableIds(m, now);
    assert ids - (rest - {id}) == if id in ids then ids - rest + {id} else ids - rest;
    hide MemReaped;
  }

  // ----- What each operation promises -----

  /** A success overwrites the result also with an empty one. */
  lemma MemTransitionsKeepTheirWord(t: Task, o: Outcome, now: int, lease: int)
    ensures o.Success? ==> IsSuccess(t.(result := ""), MemFinalized(t, o, now), o.result, now)
    ensures o.Failure? ==> IsReport(t, MemFinalized(t, o, now), o, now)
    ensures IsExtension(t, MemExtended(t, now, lease), now + lease)
    ensures MemExtended(t, now, lease).updatedAt == t.updatedAt
    ensures IsRestart(t, MemRequeued(t, now), now) && MemRequeued(t, now).leasedUntil == t.leasedUntil
    ensures IsBurial(t, MemReaped(t, now), now) && MemReaped(t, now).updatedAt == t.updatedAt
  {
  }

  ghost predicate MemReported(t: Task, u: Task, o: Outcome, now: int) {
    IsReport(if o.Success? then t.(result := "") else t, u, o, now)
  }

  lemma FinalizeOneSays(m: map<string, Task>, o: Outcome, now: int)
    ensures var r := MemFinalizeOne(m, o, now);
            if IsUnder(m, o.task.id, o.task.leaseToken)
            then OnlyAt(m, r, o.task.id) && MemReported(m[o.task.id], r[o.task.id], o, now)
            else r == m
  {
    hide IsReport, MemFinalized;
    if HeldBy(m, KeyOf(o.task)) {
      MemTransitionsKeepTheirWord(m[o.task.id], o, now, 0);
      ReportOfSuccess(m[o.task.id].(result := ""), MemFinalized(m[o.task.id], o, now), o, now);
    }
  }

  lemma SuccessSays(m: map<string, Task>, t: Task, result: string, now: int)
    ensures HeldBy(m, KeyOf(t)) <==> IsUnder(m, t.id, t.leaseToken)
    ensures var r := MemFinalizeOne(m, Success(t, result), now);
            if IsUnder(m, t.id, t.leaseToken)
            then OnlyAt(m, r, t.id) && IsSuccess(m[t.id].(result := ""), r[t.id], result, now)
                 && r == m[t.id := MemCompleted(m[t.id], result, now)]
            else r == m
  {
    FinalizeOneSays(m, Success(t, result), now);
  }

  lemma FailureSays(m: map<string, Task>, t: Task, e: TaskError, retryAt: int, terminal: bool, now: int)
    ensures HeldBy(m, KeyOf(t)) <==> IsUnder(m, t.id, t.leaseToken)
    ensures var r := MemFinalizeOne(m, Failure(t, e, retryAt, terminal), now);
            if IsUnder(m, t.id, t.leaseToken)
            then OnlyAt(m, r, t.id) && IsFailure(m[t.id], r[t.id], e, retryAt, terminal, now)
                 && r == m[t.id := Failed(m[t.id], e, retryAt, terminal, now)]
            else r == m
  {
    FinalizeOneSays(m, Failure(t, e, retryAt, terminal), now);
  }

  lemma ExtendSays(m: map<string, Task>, k: Key, now: int, lease: int)
    ensures HeldBy(m, k) <==> IsUnder(m, k.id, k.token)
    ensures var r := MemExtendOne(m, k, now, lease);
            if IsUnder(m, k.id, k.token)
            then OnlyAt(m, r, k.id) && IsExtension(m[k.id], r[k.id], now + lease)
                 && r == m[k.id := MemExtended(m[k.id], now, lease)]
            else r == m
  {
    ExtendOneSays(m, k, now, lease);
  }

  lemma RequeueSays(m: map<string, Task>, id: string, now: int)
    requires id in m
    ensures IsRestart(m[id], MemRequeued(m[id], now), now)
  {
    MemTransitionsKeepTheirWord(m[id], Success(m[id], ""), now, 0);
  }

  lemma ReportOfSuccess(t: Task, u: Task, o: Outcome, now: int)
    requires o.Success? ==> IsSuccess(t, u, o.result, now)
    ensures o.Success? ==> IsReport(t, u, o, now)
  {
  }

  lemma ExtendOneSays(m: map<string, Task>, k: Key, now: int, lease: int)
    ensures var r := MemExtendOne(m, k, now, lease);
            if IsUnder(m, k.id, k.token)
            then OnlyAt(m, r, k.id) && IsExtension(m[k.id], r[k.id], now + lease)
            else r == m
  {
    hide IsExtension;
    if HeldBy(m, k) {
      MemTransitionsKeepTheirWord(m[k.id], Success(m[k.id], ""), now, lease);
    }
  }

  lemma SweepsSay(m: map<string, Task>, kind: string, now: int)
    ensures var r := MemRequeueAmong(m, DeadIds(m, kind), now);
            && r.Keys == m.Keys
            && forall id <- m ::
                 if m[id].status == Dead && (kind == "" || m[id].kind == kind) then IsRestart(m[id], r[id], now)
                 else r[id] == m[id]
    ensures var r := MemReapAmong(m, ReapableIds(m, now), now);
            && r.Keys == m.Keys
            && forall id <- m ::
                 if m[id].status == Running && m[id].leasedUntil < now && m[id].attempts >= m[id].maxAttempts
                 then IsBurial(m[id], r[id], now)
                 else r[id] == m[id]
  {
    hide IsRestart, IsBurial, MemRequeued, MemReaped;
    forall id <- m
      ensures IsRestart(m[id], MemRequeued(m[id], now), now) && IsBurial(m[id], MemReaped(m[id], now), now)
    {
      MemTransitionsKeepTheirWord(m[id], Success(m[id], ""), now, 0);
    }
  }

  /** Each outcome is judged by what is there in its turn. */
  lemma {:induction false} FinalizeAllSays(m: map<string, Task>, os: seq<Outcome>, nows: seq<int>, i: nat)
    requires i < |os| == |nows|
    ensures var m', r := MemFinalizeAll(m, os[..i], nows[..i]), MemFinalizeAll(m, os[..i + 1], nows[..i + 1]);
            var o := os[i];
            && (if IsUnder(m', o.task.id, o.task.leaseToken)
                then OnlyAt(m', r, o.task.id) && MemReported(m'[o.task.id], r[o.task.id], o, nows[i])
                else r == m')
            && MemLost(m, os[..i + 1], nows[..i + 1])
               == MemLost(m, os[..i], nows[..i]) + if IsUnder(m', o.task.id, o.task.leaseToken) then 0 else 1
  {
    hide MemReported, MemFinalizeOne;
    FinalizeGoesOn(m, os, nows, i);
    FinalizeOneSays(MemFinalizeAll(m, os[..i], nows[..i]), os[i], nows[i]);
  }

  // ----- The claim order -----

  /** Ids are the keys, and fresh numbers are fresh. */
  ghost predicate Minted(s: MemState) {
    && (forall id <- s.tasks :: s.tasks[id].id == id)
    && (forall n :: n > s.seqNo ==> TaskId(n) !in s.tasks)
  }

  ghost function Wanted(m: map<string, Task>, opts: ClaimOptions, now: int): set<string> {
    set id <- m | WantedAndRunnable(opts, now, m[id])
  }

  lemma EarlierIsStrictOrder(a: Task, b: Task, c: Task)
    ensures !(Earlier(a, b) && Earlier(b, a))
    ensures a.id != b.id ==> Earlier(a, b) || Earlier(b, a)
    ensures Earlier(a, b) && Earlier(b, c) ==> Earlier(a, c)
  {
    LexLessIsTotal(a.id, b.id);
    if LexLess(a.id, b.id) && LexLess(b.id, c.id) {
      LexLessIsTransitive(a.id, b.id, c.id);
    }
  }

  /** The order is total, so any non-empty choice has exactly one first. */
  lemma {:induction false} SomethingIsFirst(m: map<string, Task>, ids: set<string>) returns (first: string)
    requires ids <= m.Keys && ids != {} && forall id <- m :: m[id].id == id
    ensures first in ids && forall j <- ids | j != first :: Earlier(m[first], m[j])
    decreases |ids|
  {
    var x :| x in ids;
    if ids == {x} {
      first := x;
    } else {
      var y := SomethingIsFirst(m, ids - {x});
      EarlierIsStrictOrder(m[x], m[y], m[y]);
      first := if Earlier(m[x], m[y]) then x else y;
      forall j <- ids | j != first ensures Earlier(m[first], m[j]) {
        EarlierIsStrictOrder(m[x], m[y], m[j]);
      }
    }
  }

  lemma FirstIsFirst(m: map<string, Task>, opts: ClaimOptions, now: int)
    requires forall id <- m :: m[id].id == id
    ensures First(m, opts, now).None? <==> Wanted(m, opts, now) == {}
    ensures forall id :: IsFirst(m, opts, now, id) <==> First(m, opts, now) == Some(id)
  {
    assert forall id :: IsFirst(m, opts, now, id) ==> id in Wanted(m, opts, now);
    if Wanted(m, opts, now) != {} {
      var first := SomethingIsFirst(m, Wanted(m, opts, now));
      assert IsFirst(m, opts, now, first);
      forall i, j | IsFirst(m, opts, now, i) && IsFirst(m, opts, now, j) ensures i == j {
        EarlierIsStrictOrder(m[i], m[j], m[j]);
      }
    }
  }

  ghost function Ids(out: seq<Task>): set<string> { set t <- out :: t.id }

  /** `out` picks the first wanted task, then the first of the rest, at most k times. */
  ghost predicate FirstOf(m: map<string, Task>, wanted: set<string>, k: nat, out: seq<Task>)
    requires wanted <= m.Keys
    decreases k
  {
    if k == 0 || wanted == {} then out == []
    else
      && out != [] && out[0].id in wanted
      && (forall j <- wanted | j != out[0].id :: Earlier(m[out[0].id], m[j]))
      && FirstOf(m, wanted - {out[0].id}, k - 1, out[1..])
  }

  /** Each of them was claimed once, under a token of its own; the rest is untouched. */
  ghost predicate ClaimedOnce(s: MemState, opts: ClaimOptions, now: int, s': MemState, out: seq<Task>) {
    && s'.seqNo == s.seqNo + |out| && s'.tasks.Keys == s.tasks.Keys
    && (forall i :: 0 <= i < |out| ==>
          && out[i].id in s.tasks && s'.tasks[out[i].id] == out[i]
          && out[i] == Claimed(s.tasks[out[i].id], now, opts.workerId, LeaseToken(s.seqNo + 1 + i), opts.lease))
    && (forall id <- s.tasks | id !in Ids(out) :: s'.tasks[id] == s.tasks[id])
  }

  lemma ClaimKeepsMinted(s: MemState, id: string, opts: ClaimOptions, now: int)
    requires Minted(s) && id in s.tasks
    ensures Minted(ClaimIt(s, id, opts, now))
  {
  }

  lemma InsertKeepsMinted(s: MemState, t: Task)
    requires Minted(s)
    ensures Minted(Insert(s, t)) && TaskId(s.seqNo + 1) !in s.tasks
  {
    forall n { IdsAreInjective(n, s.seqNo + 1); }
  }

  lemma ConflictAfterInsert(s: MemState, t: Task, key: string)
    requires Minted(s) && Fresh(t)
    ensures Conflict(Insert(s, t).tasks, key) <==> Conflict(s.tasks, key) || (key != "" && t.uniqueKey == key)
  {
    InsertKeepsMinted(s, t);
    var id, more := TaskId(s.seqNo + 1), Insert(s, t).tasks;
    assert more[id].uniqueKey == t.uniqueKey && Active(more[id]);
    if Conflict(s.tasks, key) {
      var i :| i in s.tasks && Active(s.tasks[i]) && s.tasks[i].uniqueKey == key;
      assert more[i] == s.tasks[i];
    }
  }

  lemma NoClashGoesOn(s: MemState, ts: seq<Task>)
    requires Minted(s) && ts != [] && Fresh(ts[0]) && !Conflict(s.tasks, ts[0].uniqueKey)
    ensures NoClash(s.tasks, ts) <==> NoClash(Insert(s, ts[0]).tasks, ts[1..])
  {
    hide Conflict, Minted, Insert;
    var rest, m := ts[1..], Insert(s, ts[0]).tasks;
    forall i | 0 <= i < |rest| ensures Conflict(m, rest[i].uniqueKey) <==>
        Conflict(s.tasks, ts[i + 1].uniqueKey) || (ts[i + 1].uniqueKey != ""
             && ts[0].uniqueKey == ts[i + 1].uniqueKey) {
      ConflictAfterInsert(s, ts[0], rest[i].uniqueKey);
    }
    if NoClash(m, rest) {
      forall i | 0 <= i < |ts| && ts[i].uniqueKey != ""
        ensures !Conflict(s.tasks, ts[i].uniqueKey) && forall j :: 0 <= j < i ==> ts[j].uniqueKey != ts[i].uniqueKey
      {
        if i > 0 {
          assert rest[i - 1] == ts[i];
          forall j | 0 <= j < i ensures ts[j].uniqueKey != ts[i].uniqueKey {
            assert j > 0 ==> rest[j - 1] == ts[j];
          }
        }
      }
    }
    if NoClash(s.tasks, ts) {
      forall i | 0 <= i < |rest| && rest[i].uniqueKey != ""
        ensures !Conflict(m, rest[i].uniqueKey) && forall j :: 0 <= j < i ==> rest[j].uniqueKey != rest[i].uniqueKey
      {
        assert rest[i] == ts[i + 1];
      }
    }
  }

  lemma {:induction false} AllGetIn(s: MemState, ts: seq<Task>)
    requires Minted(s) && forall i :: 0 <= i < |ts| ==> Fresh(ts[i])
    ensures InsertedBy(s, ts) <= |ts| && (InsertedBy(s, ts) == |ts| <==> NoClash(s.tasks, ts))
    decreases |ts|
  {
    hide Minted, Insert, Fresh, Conflict;
    if ts != [] {
      if Conflict(s.tasks, ts[0].uniqueKey) {
        KeylessNeverConflicts(s.tasks);
      } else {
        InsertKeepsMinted(s, ts[0]);
        AllGetIn(Insert(s, ts[0]), ts[1..]);
        NoClashGoesOn(s, ts);
        hide NoClash;
      }
    }
  }

  lemma KeylessNeverConflicts(m: map<string, Task>)
    ensures !Conflict(m, "")
  {
  }

  /** On a conflict Enqueue hands back no ids at all, yet what went in before it
      stays: it is all or nothing exactly when the first task already conflicts
      or none does. */
  lemma EnqueueIsAllOrNothing(s: MemState, ts: seq<Task>)
    requires Minted(s) && forall i :: 0 <= i < |ts| ==> Fresh(ts[i])
    ensures InsertedBy(s, ts) == 0 || InsertedBy(s, ts) == |ts|
            <==> (ts != [] && Conflict(s.tasks, ts[0].uniqueKey)) || NoClash(s.tasks, ts)
  {
    hide Minted, Insert, Fresh, Conflict;
    AllGetIn(s, ts);
  }

  /** Two tasks with one key: the first stays in, the call fails. */
  lemma EnqueueCanStopHalfway(t: Task)
    requires Fresh(t) && t.uniqueKey != ""
    ensures InsertedBy(MemState(0, map[]), [t, t]) == 1
  {
    var s := MemState(0, map[]);
    ConflictAfterInsert(s, t, t.uniqueKey);
    assert [t, t][1..] == [t];
  }

  lemma UpdateKeepsMinted(s: MemState, id: string, u: Task)
    requires Minted(s) && id in s.tasks && u.id == id
    ensures Minted(s.(tasks := s.tasks[id := u]))
  {
  }

  /** A claim that will not expire at once takes the task off the menu. */
  lemma ClaimLeavesTheRest(s: MemState, opts: ClaimOptions, now: int, id: string)
    requires Minted(s) && opts.lease >= 0 && id in Wanted(s.tasks, opts, now)
    ensures Minted(ClaimIt(s, id, opts, now))
    ensures Wanted(ClaimIt(s, id, opts, now).tasks, opts, now) == Wanted(s.tasks, opts, now) - {id}
  {
    ClaimKeepsMinted(s, id, opts, now);
  }

  lemma {:induction false} FirstOfFrame(m: map<string, Task>, m1: map<string, Task>, wanted: set<string>, k: nat,
        out: seq<Task>)
    requires wanted <= m.Keys && wanted <= m1.Keys && forall j <- wanted :: m1[j] == m[j]
    requires FirstOf(m1, wanted, k, out)
    ensures FirstOf(m, wanted, k, out)
    decreases k
  {
    if k > 0 && wanted != {} {
      FirstOfFrame(m, m1, wanted - {out[0].id}, k - 1, out[1..]);
    }
  }

  lemma FirstOfCons(m: map<string, Task>, wanted: set<string>, k: nat, t: Task, rest: seq<Task>)
    requires wanted <= m.Keys && k > 0 && t.id in wanted
    requires forall j <- wanted | j != t.id :: Earlier(m[t.id], m[j])
    requires FirstOf(m, wanted - {t.id}, k - 1, rest)
    ensures FirstOf(m, wanted, k, [t] + rest)
  {
    assert ([t] + rest)[1..] == rest;
  }

  lemma FirstOfUnfolds(m: map<string, Task>, wanted: set<string>, k: nat, out: seq<Task>)
    requires wanted <= m.Keys && FirstOf(m, wanted, k, out)
    ensures k == 0 || wanted == {} ==> out == []
    ensures k > 0 && wanted != {} ==>
              && out != [] && out[0].id in wanted && FirstOf(m, wanted - {out[0].id}, k - 1, out[1..])
              && forall j <- wanted | j != out[0].id :: Earlier(m[out[0].id], m[j])
  {
  }

  /** So exactly min(k, n) tasks are taken, none twice, and every wanted task
      that is left comes after every one that was taken. */
  lemma {:induction false} FirstOfTakesTheEarliest(m: map<string, Task>, wanted: set<string>, k: nat, out: seq<Task>)
    requires wanted <= m.Keys && FirstOf(m, wanted, k, out)
    ensures |out| == |Ids(out)| == (if k <= |wanted| then k else |wanted|)
    ensures Ids(out) <= wanted
    ensures forall i <- Ids(out), j <- wanted - Ids(out) :: Earlier(m[i], m[j])
    decreases k
  {
    hide FirstOf, Earlier, Ids;
    FirstOfUnfolds(m, wanted, k, out);
    if k > 0 && wanted != {} {
      var head, rest := out[0], out[1..];
      FirstOfTakesTheEarliest(m, wanted - {head.id}, k - 1, rest);
      assert out == [head] + rest;
      IdsOf(head, rest);
      assert Ids(out) == {head.id} + Ids(rest);
    } else {
      NoIds();
    }
  }

  lemma NoIds()
    ensures Ids([]) == {}
  {
  }

  lemma IdsOf(t: Task, rest: seq<Task>)
    ensures Ids([t] + rest) == {t.id} + Ids(rest)
  {
    forall u <- rest ensures u in [t] + rest {}
    assert t in [t] + rest;
  }

  lemma ClaimKeepsId(t: Task, opts: ClaimOptions, now: int, token: string)
    ensures Claimed(t, now, opts.workerId, token, opts.lease).id == t.id
  {
  }

  lemma IdsHave(out: seq<Task>)
    ensures forall i :: 0 <= i < |out| ==> out[i].id in Ids(out)
  {
  }

  lemma OnceThenRest(s: MemState, opts: ClaimOptions, now: int, id: string, s': MemState, rest: seq<Task>)
    requires id in s.tasks && s.tasks[id].id == id
    requires ClaimedOnce(ClaimIt(s, id, opts, now), opts, now, s', rest) && id !in Ids(rest)
    ensures ClaimedOnce(s, opts, now, s', [ClaimIt(s, id, opts, now).tasks[id]] + rest)
  {
    hide Claimed, LeaseToken, Ids;
    var t := ClaimIt(s, id, opts, now).tasks[id];
    ClaimKeepsId(s.tasks[id], opts, now, LeaseToken(s.seqNo + 1));
    IdsOf(t, rest);
    IdsHave(rest);
    var out := [t] + rest;
    forall i | 0 < i < |out| ensures out[i] == rest[i - 1] && out[i].id != id {}
  }

  lemma FirstRoundThenRest(s: MemState, opts: ClaimOptions, now: int, k: nat, id: string, s': MemState, rest: seq<Task>)
    requires Minted(s) && opts.lease >= 0 && k > 0 && IsFirst(s.tasks, opts, now, id)
    requires var s1 := ClaimIt(s, id, opts, now);
             FirstOf(s1.tasks, Wanted(s1.tasks, opts, now), k - 1, rest) && ClaimedOnce(s1, opts, now, s', rest)
    ensures var out := [ClaimIt(s, id, opts, now).tasks[id]] + rest;
            FirstOf(s.tasks, Wanted(s.tasks, opts, now), k, out) && ClaimedOnce(s, opts, now, s', out)
  {
    hide FirstOf, ClaimedOnce, Minted, Claimed, WantedAndRunnable, Earlier;
    var s1, wanted := ClaimIt(s, id, opts, now), Wanted(s.tasks, opts, now);
    ClaimLeavesTheRest(s, opts, now, id);
    ClaimedIdsAreKeys(s, s1);
    FirstOfTakesTheEarliest(s1.tasks, wanted - {id}, k - 1, rest);
    OnceThenRest(s, opts, now, id, s', rest);
    FirstOfFrame(s.tasks, s1.tasks, wanted - {id}, k - 1, rest);
    FirstOfCons(s.tasks, wanted, k, s1.tasks[id], rest);
  }

  lemma ClaimedIdsAreKeys(s: MemState, s1: MemState)
    requires Minted(s) && Minted(s1)
    ensures forall id <- s.tasks :: s.tasks[id].id == id
    ensures forall id <- s1.tasks :: s1.tasks[id].id == id
  {
  }

  lemma NextRound(s: MemState, opts: ClaimOptions, now: int)
    requires Minted(s)
    ensures match First(s.tasks, opts, now)
            case None => Wanted(s.tasks, opts, now) == {}
            case Some(id) => IsFirst(s.tasks, opts, now, id) && id in Wanted(s.tasks, opts, now) && id in s.tasks
  {
    FirstIsFirst(s.tasks, opts, now);
  }

  lemma NoRounds(s: MemState, opts: ClaimOptions, now: int, k: nat)
    requires k == 0 || Wanted(s.tasks, opts, now) == {}
    ensures FirstOf(s.tasks, Wanted(s.tasks, opts, now), k, []) && ClaimedOnce(s, opts, now, s, [])
  {
  }

  /** ClaimBatch(k) returns exactly the first min(k, n) of the n runnable
      matching tasks in (run_at, id) order. */
  lemma {:induction false} RoundsTakeTheFirst(s: MemState, opts: ClaimOptions, now: int, k: nat)
    requires Minted(s) && opts.lease >= 0
    ensures var r := ClaimRounds(s, opts, now, k);
            FirstOf(s.tasks, Wanted(s.tasks, opts, now), k, r.1) && ClaimedOnce(s, opts, now, r.0, r.1)
    decreases k
  {
    hide FirstOf, ClaimedOnce, Minted, Wanted, IsFirst, First, Claimed;
    NextRound(s, opts, now);
    if k == 0 || First(s.tasks, opts, now).None? {
      NoRounds(s, opts, now, k);
      assert ClaimRounds(s, opts, now, k) == (s, []);
    } else {
      var id := First(s.tasks, opts, now).value;
      var s1 := ClaimIt(s, id, opts, now);
      ClaimLeavesTheRest(s, opts, now, id);
      RoundsTakeTheFirst(s1, opts, now, k - 1);
      var (s', rest) := ClaimRounds(s1, opts, now, k - 1);
      assert ClaimRounds(s, opts, now, k) == (s', [s1.tasks[id]] + rest);
      FirstRoundThenRest(s, opts, now, k, id, s', rest);
    }
  }

  // ----- What a claim takes, in the tasks' own fields -----

  /** Of the wanted type and queue; due, or left behind with attempts to spare. */
  predicate MayTake(opts: ClaimOptions, now: int, t: Task) {
    && (opts.kinds == [] || t.kind in opts.kinds) && (opts.queues == [] || t.queue in opts.queues)
    && IsDue(t, now)
  }

  /** The older run_at first; of two alike, the id that comes first as a string. */
  ghost predicate InOrder(a: Task, b: Task) {
    a.runAt < b.runAt || (a.runAt == b.runAt && ComesBefore(a.id, b.id))
  }

  lemma OrderSays(a: Task, b: Task)
    ensures Earlier(a, b) <==> InOrder(a, b)
  {
    LexLessSays(a.id, b.id);
  }

  lemma WantedSays(opts: ClaimOptions, now: int, t: Task)
    ensures WantedAndRunnable(opts, now, t) <==> MayTake(opts, now, t)
  {
  }

  /** One claim: nothing if nothing may be taken, else the first task in order,
      once more attempted, under a token nobody has had. */
  ghost predicate IsClaimOfFirst(s: MemState, opts: ClaimOptions, now: int, s': MemState, t: Option<Task>) {
    match t
    case None => s' == s && forall id <- s.tasks :: !MayTake(opts, now, s.tasks[id])
    case Some(u) =>
      && u.id in s.tasks && MayTake(opts, now, s.tasks[u.id])
      && (forall j <- s.tasks | j != u.id && MayTake(opts, now, s.tasks[j]) :: InOrder(s.tasks[u.id], s.tasks[j]))
      && IsClaim(s.tasks[u.id], u, now, opts.workerId, "lease-" + Decimal(s.seqNo + 1), opts.lease)
      && s'.seqNo == s.seqNo + 1 && s'.tasks == s.tasks[u.id := u]
  }

  lemma ClaimOneSays(s: MemState, opts: ClaimOptions, now: int)
    requires Minted(s)
    ensures var (s', t) := ClaimOne(s, opts, now); IsClaimOfFirst(s, opts, now, s', t)
  {
    hide IsClaim, Claimed, MayTake, WantedAndRunnable, InOrder, Earlier, First;
    FirstIsFirst(s.tasks, opts, now);
    forall id <- s.tasks ensures WantedAndRunnable(opts, now, s.tasks[id]) <==> MayTake(opts, now, s.tasks[id]) {
      WantedSays(opts, now, s.tasks[id]);
    }
    match First(s.tasks, opts, now) {
      case None =>
        assert forall id <- s.tasks | WantedAndRunnable(opts, now, s.tasks[id]) :: id in Wanted(s.tasks, opts, now);
      case Some(id) =>
        assert IsFirst(s.tasks, opts, now, id);
        forall j <- s.tasks ensures Earlier(s.tasks[id], s.tasks[j]) <==> InOrder(s.tasks[id], s.tasks[j]) {
          OrderSays(s.tasks[id], s.tasks[j]);
        }
        var t := s.tasks[id];
        ClaimKeepsId(t, opts, now, LeaseToken(s.seqNo + 1));
        TransitionsKeepTheirWord(t, Success(t, ""), now, opts.workerId, LeaseToken(s.seqNo + 1), opts.lease);
    }
  }

  /** A batch: the first `k` of those that may be taken, or all, in order, each
      once more attempted under a token of its own; the others stay. */
  ghost predicate IsBatchOfFirst(s: MemState, opts: ClaimOptions, now: int, k: nat, s': MemState, out: seq<Task>) {
    && s'.seqNo == s.seqNo + |out| && s'.tasks.Keys == s.tasks.Keys
    && (forall i :: 0 <= i < |out| ==>
          && out[i].id in s.tasks && MayTake(opts, now, s.tasks[out[i].id]) && s'.tasks[out[i].id] == out[i]
          && IsClaim(s.tasks[out[i].id], out[i], now, opts.workerId, "lease-" + Decimal(s.seqNo + 1 + i), opts.lease))
    && (|out| == k || (|out| < k && forall id <- s.tasks | MayTake(opts, now, s.tasks[id]) :: id in Ids(out)))
    && (forall i, j :: 0 <= i < j < |out| ==> InOrder(s.tasks[out[i].id], s.tasks[out[j].id]))
    && (forall id <- s.tasks | id !in Ids(out) ::
          && s'.tasks[id] == s.tasks[id]
          && (MayTake(opts, now, s.tasks[id]) ==>
                forall t <- out :: t.id in s.tasks && InOrder(s.tasks[t.id], s.tasks[id])))
  }

  lemma {:induction false} FirstOfIsSorted(m: map<string, Task>, wanted: set<string>, k: nat, out: seq<Task>, i: nat,
        j: nat)
    requires wanted <= m.Keys && FirstOf(m, wanted, k, out) && i < j < |out|
    ensures out[i].id in m && out[j].id in m && Earlier(m[out[i].id], m[out[j].id])
    decreases k
  {
    hide FirstOf, Earlier;
    FirstOfUnfolds(m, wanted, k, out);
    var rest := out[1..];
    if i == 0 {
      FirstOfTakesTheEarliest(m, wanted - {out[0].id}, k - 1, rest);
      assert rest[j - 1] == out[j] && rest[j - 1] in rest;
    } else {
      FirstOfIsSorted(m, wanted - {out[0].id}, k - 1, rest, i - 1, j - 1);
    }
  }

  lemma BatchSays(s: MemState, opts: ClaimOptions, now: int, k: nat)
    requires Minted(s) && opts.lease >= 0
    ensures var r := ClaimRounds(s, opts, now, k); IsBatchOfFirst(s, opts, now, k, r.0, r.1)
  {
    hide FirstOf, Minted, IsClaim, Claimed, MayTake, WantedAndRunnable, InOrder, Earlier, First, ClaimRounds, Ids;
    var (s', out) := ClaimRounds(s, opts, now, k);
    var wanted := Wanted(s.tasks, opts, now);
    RoundsTakeTheFirst(s, opts, now, k);
    FirstOfTakesTheEarliest(s.tasks, wanted, k, out);
    forall id <- s.tasks ensures id in wanted <==> MayTake(opts, now, s.tasks[id]) {
      WantedSays(opts, now, s.tasks[id]);
    }
    IdsHave(out);
    if |out| < k {
      AllOf(Ids(out), wanted);
    }
    forall i | 0 <= i < |out|
      ensures IsClaim(s.tasks[out[i].id], out[i], now, opts.workerId, "lease-" + Decimal(s.seqNo + 1 + i), opts.lease)
    {
      var t := s.tasks[out[i].id];
      TransitionsKeepTheirWord(t, Success(t, ""), now, opts.workerId, LeaseToken(s.seqNo + 1 + i), opts.lease);
    }
    forall i, j | 0 <= i < j < |out| ensures InOrder(s.tasks[out[i].id], s.tasks[out[j].id]) {
      FirstOfIsSorted(s.tasks, wanted, k, out, i, j);
      OrderSays(s.tasks[out[i].id], s.tasks[out[j].id]);
    }
    forall id <- s.tasks, t <- out | id !in Ids(out) && MayTake(opts, now, s.tasks[id])
      ensures t.id in s.tasks && InOrder(s.tasks[t.id], s.tasks[id])
    {
      assert t.id in Ids(out) && id in wanted - Ids(out);
      OrderSays(s.tasks[t.id], s.tasks[id]);
    }
  }

  lemma AllOf(s: set<string>, t: set<string>)
    requires s <= t && |s| == |t|
    ensures s == t
  {
    if x :| x in t && x !in s {
      assert s <= t - {x} && |t - {x}| == |t| - 1;
      Subset(s, t - {x});
    }
  }

  lemma {:induction false} Subset(s: set<string>, t: set<string>)
    requires s <= t
    ensures |s| <= |t|
    decreases |s|
  {
    if x :| x in s {
      Subset(s - {x}, t - {x});
    }
  }

  // ----- What an enqueue puts in -----

  function NewId(s: MemState, i: nat): string { "task-" + Decimal(s.seqNo + 1 + i) }

  lemma NextId(s: MemState, t: Task, i: nat)
    ensures NewId(Insert(s, t), i) == NewId(s, i + 1) && NewId(s, 0) == TaskId(s.seqNo + 1)
  {
  }

  /** What was there stays. */
  lemma {:induction false} EnqueueKeeps(s: MemState, ts: seq<Task>, id: string)
    requires Minted(s) && id in s.tasks
    ensures id in EnqueueAll(s, ts).tasks && EnqueueAll(s, ts).tasks[id] == s.tasks[id]
    decreases |ts|
  {
    hide Minted, Conflict;
    if ts != [] && !Conflict(s.tasks, ts[0].uniqueKey) {
      InsertKeepsMinted(s, ts[0]);
      EnqueueKeeps(Insert(s, ts[0]), ts[1..], id);
    }
  }

  /** The first tasks, as many as are counted, are in as they came, but for the
      id; ids are given out in order. */
  lemma {:induction false} EnqueuePuts(s: MemState, ts: seq<Task>, i: nat)
    requires Minted(s) && i < InsertedBy(s, ts)
    ensures i < |ts| && NewId(s, i) !in s.tasks && NewId(s, i) in EnqueueAll(s, ts).tasks
    ensures EnqueueAll(s, ts).tasks[NewId(s, i)] == ts[i].(id := NewId(s, i))
    decreases |ts|
  {
    hide Minted, Conflict, NewId;
    var s1 := Insert(s, ts[0]);
    InsertKeepsMinted(s, ts[0]);
    if i == 0 {
      NextId(s, ts[0], 0);
      EnqueueKeeps(s1, ts[1..], NewId(s, 0));
    } else {
      NextId(s, ts[0], i - 1);
      EnqueuePuts(s1, ts[1..], i - 1);
    }
  }

  /** Nothing else gets in. */
  lemma {:induction false} EnqueueAddsOnly(s: MemState, ts: seq<Task>, id: string) returns (i: nat)
    requires Minted(s) && id in EnqueueAll(s, ts).tasks && id !in s.tasks
    ensures i < InsertedBy(s, ts) && id == NewId(s, i)
    decreases |ts|
  {
    hide Minted, Conflict, NewId;
    InsertKeepsMinted(s, ts[0]);
    if id in Insert(s, ts[0]).tasks {
      NextId(s, ts[0], 0);
      i := 0;
    } else {
      i := EnqueueAddsOnly(Insert(s, ts[0]), ts[1..], id);
      NextId(s, ts[0], i);
      i := i + 1;
    }
  }

  /** It stops at the first task whose key an unfinished task has, stored before
      or just now, and not before. */
  lemma {:induction false} EnqueueStops(s: MemState, ts: seq<Task>)
    ensures var s', n := EnqueueAll(s, ts), InsertedBy(s, ts);
            && n <= |ts| && s'.seqNo == s.seqNo + n
            && (n < |ts| ==>
                  && ts[n].uniqueKey != ""
                  && exists id <- s'.tasks :: Active(s'.tasks[id]) && s'.tasks[id].uniqueKey == ts[n].uniqueKey)
    decreases |ts|
  {
    if ts != [] && !Conflict(s.tasks, ts[0].uniqueKey) {
      hide Conflict;
      EnqueueStops(Insert(s, ts[0]), ts[1..]);
    }
  }
}
