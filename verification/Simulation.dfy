/** The in-memory store stands in for the Mongo store: whatever a client of a
    manager's shape asks for, both stores give the same answer and go on holding
    the same tasks, up to lease tokens, `updatedAt`, and the deadline a finished
    lease leaves behind.  Here Mongo's side is its transitions on tasks; module
    SimulationDocs runs the documents it sends.
 */
module Simulation {
  import opened Tasks
  import opened Lifecycle
  import opened Strings
  import opened MemSpec
  import Cluster
  import FinalizeBatch
  import opened MongoDocs

  /** The Mongo store between operations: the collection and the tokens minted. */
  datatype Mongo = Mongo(docs: map<string, Task>, used: set<string>)

  /** Both stores, and for every claim handed out the token Mongo gave it. */
  datatype Pair = Pair(mem: MemState, mongo: Mongo, tokens: map<Key, string>)

  /** What a client may ask for.  It names a claim by the in-memory store's key. */
  datatype Op =
    | Enqueue(tasks: seq<Task>)
    | Claim(opts: ClaimOptions, fifo: bool, now: int)
    | ClaimBatch(opts: ClaimOptions, fifo: bool, now: int, k: nat)
    | Settle(outcome: Outcome, now: int, mongoNow: int)
    | SettleBatch(outcomes: seq<Outcome>, nows: seq<int>, mongoNow: int)
    | Extend(claim: Key, now: int, lease: int)
    | Requeue(id: string, now: int)
    | RequeueDead(kind: string, now: int)
    | Reap(now: int)

  /** A claim's answer is named by its ids: what is returned are copies of the
      stored tasks as the claim left them.  A lone duplicate is told of a task
      that holds its key; `holders` are those it may be told of. */
  datatype Reply =
    | Inserted(n: nat, holders: set<string>)
    | Tasks(ids: set<string>)
    | Verdict(ok: bool)
    | Until(until: Option<int>)
    | Count(count: int)

  // ----- The in-memory store -----

  ghost function MemDo(m: MemState, op: Op): MemState
    requires op.SettleBatch? ==> |op.outcomes| == |op.nows|
  {
    match op
    case Enqueue(ts) => EnqueueAll(m, ts)
    case Claim(opts, _, now) => ClaimOne(m, opts, now).0
    case ClaimBatch(opts, _, now, k) => ClaimRounds(m, opts, now, k).0
    case Settle(o, now, _) => m.(tasks := MemFinalizeOne(m.tasks, o, now))
    case SettleBatch(os, nows, _) => m.(tasks := MemFinalizeAll(m.tasks, os, nows))
    case Extend(k, now, lease) => m.(tasks := MemExtendOne(m.tasks, k, now, lease))
    case Requeue(id, now) =>
      if id in m.tasks && m.tasks[id].status.Dead? then m.(tasks := m.tasks[id := MemRequeued(m.tasks[id], now)]) else m
    case RequeueDead(kind, now) => m.(tasks := MemRequeueAmong(m.tasks, DeadIds(m.tasks, kind), now))
    case Reap(now) => m.(tasks := MemReapAmong(m.tasks, ReapableIds(m.tasks, now), now))
  }

  /** The unfinished tasks that carry the key. */
  ghost function ActiveHolders(m: map<string, Task>, key: string): set<string> {
    if key == "" then {} else set id <- m | Active(m[id]) && m[id].uniqueKey == key
  }

  ghost function MemReply(m: MemState, op: Op): Reply
    requires op.SettleBatch? ==> |op.outcomes| == |op.nows|
  {
    match op
    case Enqueue(ts) => Inserted(InsertedBy(m, ts), if |ts| == 1 then ActiveHolders(m.tasks, ts[0].uniqueKey) else {})
    case Claim(opts, _, now) =>
      (match ClaimOne(m, opts, now).1 case None => Tasks({}) case Some(t) => Tasks({t.id}))
    case ClaimBatch(opts, _, now, k) => Tasks(Ids(ClaimRounds(m, opts, now, k).1))
    case Settle(o, _, _) => Verdict(HeldBy(m.tasks, KeyOf(o.task)))
    case SettleBatch(os, nows, _) => Count(MemLost(m.tasks, os, nows))
    case Extend(k, now, lease) => Until(if HeldBy(m.tasks, k) then Some(now + lease) else None)
    case Requeue(id, _) => Verdict(id in m.tasks && m.tasks[id].status.Dead?)
    case RequeueDead(kind, _) => Count(|DeadIds(m.tasks, kind)|)
    case Reap(now) => Count(|ReapableIds(m.tasks, now)|)
  }

  /** What a client sees of the in-memory store, in the tasks' fields. */
  lemma WritesAreSeen(m: MemState, op: Op)
    ensures op.Enqueue? ==>
              var ts, r := op.tasks, MemReply(m, op);
              && MemDo(m, op) == EnqueueAll(m, ts) && r.Inserted? && r.n == InsertedBy(m, ts)
              && forall id :: id in r.holders <==>
                   && |ts| == 1 && ts[0].uniqueKey != "" && id in m.tasks && m.tasks[id].uniqueKey == ts[0].uniqueKey
                   && m.tasks[id].status in {Pending, Running}
    ensures op.Settle? ==>
              var o, r := op.outcome, MemDo(m, op);
              && (MemReply(m, op) == Verdict(IsUnder(m.tasks, o.task.id, o.task.leaseToken))) && r.seqNo == m.seqNo
              && if IsUnder(m.tasks, o.task.id, o.task.leaseToken)
                 then OnlyAt(m.tasks, r.tasks, o.task.id)
                      && MemReported(m.tasks[o.task.id], r.tasks[o.task.id], o, op.now)
                 else r == m
    ensures op.Extend? ==>
              var k, r := op.claim, MemDo(m, op);
              && r.seqNo == m.seqNo
              && if IsUnder(m.tasks, k.id, k.token)
                 then MemReply(m, op) == Until(Some(op.now + op.lease)) && OnlyAt(m.tasks, r.tasks, k.id)
                      && IsExtension(m.tasks[k.id], r.tasks[k.id], op.now + op.lease)
                 else MemReply(m, op) == Until(None) && r == m
    ensures op.Requeue? ==>
              var r := MemDo(m, op);
              && r.seqNo == m.seqNo
              && if op.id in m.tasks && m.tasks[op.id].status == Dead
                 then MemReply(m, op) == Verdict(true) && OnlyAt(m.tasks, r.tasks, op.id)
                      && IsRestart(m.tasks[op.id], r.tasks[op.id], op.now)
                 else MemReply(m, op) == Verdict(false) && r == m
  {
    hide MemReported, IsExtension, IsRestart, MemFinalizeOne, MemExtendOne, MemRequeued;
    match op {
      case Settle(o, now, _) => FinalizeOneSays(m.tasks, o, now);
      case Extend(k, now, lease) => ExtendOneSays(m.tasks, k, now, lease);
      case Requeue(id, now) =>
        if id in m.tasks {
          RequeueSays(m.tasks, id, now);
        }
      case _ =>
    }
  }

  lemma SweepsAndClaimsAreSeen(m: MemState, op: Op)
    requires Minted(m)
    ensures op.RequeueDead? ==>
              var dead := set id <- m.tasks |
                            m.tasks[id].status == Dead && (op.kind == "" || m.tasks[id].kind == op.kind);
              && MemReply(m, op) == Count(|dead|) && MemDo(m, op).tasks.Keys == m.tasks.Keys
              && forall id <- m.tasks ::
                   if id in dead then IsRestart(m.tasks[id], MemDo(m, op).tasks[id], op.now)
                   else MemDo(m, op).tasks[id] == m.tasks[id]
    ensures op.Reap? ==>
              var stale := set id <- m.tasks |
                             && m.tasks[id].status == Running && m.tasks[id].leasedUntil < op.now
                             && m.tasks[id].attempts >= m.tasks[id].maxAttempts;
              && MemReply(m, op) == Count(|stale|) && MemDo(m, op).tasks.Keys == m.tasks.Keys
              && forall id <- m.tasks ::
                   if id in stale then IsBurial(m.tasks[id], MemDo(m, op).tasks[id], op.now)
                   else MemDo(m, op).tasks[id] == m.tasks[id]
    ensures op.Claim? ==>
              exists t: Option<Task> ::
                && IsClaimOfFirst(m, op.opts, op.now, MemDo(m, op), t)
                && MemReply(m, op) == Tasks(if t.Some? then {t.value.id} else {})
    ensures op.ClaimBatch? && op.opts.lease >= 0 ==>
              exists out ::
                IsBatchOfFirst(m, op.opts, op.now, op.k, MemDo(m, op), out) && MemReply(m, op) == Tasks(Ids(out))
  {
    hide Minted, IsRestart, IsBurial, IsClaimOfFirst, IsBatchOfFirst, ClaimOne, ClaimRounds, MemRequeueAmong,
      MemReapAmong;
    match op {
      case RequeueDead(kind, now) =>
        SweepsSay(m.tasks, kind, now);
        assert DeadIds(m.tasks, kind) == set id <- m.tasks |
                                          m.tasks[id].status == Dead && (kind == "" || m.tasks[id].kind == kind);
      case Reap(now) =>
        SweepsSay(m.tasks, "", now);
        assert ReapableIds(m.tasks, now) == set id <- m.tasks |
                                             && m.tasks[id].status == Running && m.tasks[id].leasedUntil < now
                                             && m.tasks[id].attempts >= m.tasks[id].maxAttempts;
      case Claim(opts, _, now) =>
        ClaimOneSays(m, opts, now);
        assert IsClaimOfFirst(m, opts, now, MemDo(m, op), ClaimOne(m, opts, now).1);
      case ClaimBatch(opts, _, now, k) =>
        if opts.lease >= 0 {
          BatchSays(m, opts, now, k);
          assert IsBatchOfFirst(m, opts, now, k, MemDo(m, op), ClaimRounds(m, opts, now, k).1);
        }
      case _ =>
    }
  }

  // ----- The Mongo store, with nobody else at work -----

  /** An unordered insert: every task whose key is free goes in. */
  function InsertMany(docs: map<string, Task>, ids: seq<string>, ts: seq<Task>): map<string, Task>
    requires |ids| == |ts|
    decreases |ts|
  {
    if ts == [] then docs
    else InsertMany(if Cluster.KeyFree(docs, ts[0].uniqueKey) then docs[ids[0] := ts[0].(id := ids[0])] else docs,
                    ids[1..], ts[1..])
  }

  function InsertedMany(docs: map<string, Task>, ids: seq<string>, ts: seq<Task>): nat
    requires |ids| == |ts|
    decreases |ts|
  {
    if ts == [] then 0
    else if Cluster.KeyFree(docs, ts[0].uniqueKey)
    then 1 + InsertedMany(docs[ids[0] := ts[0].(id := ids[0])], ids[1..], ts[1..])
    else InsertedMany(docs, ids[1..], ts[1..])
  }

  /** The same outcome, about the copy Mongo handed out. */
  function Renamed(o: Outcome, tokens: map<Key, string>): Outcome
    requires KeyOf(o.task) in tokens
  {
    o.(task := o.task.(leaseToken := tokens[KeyOf(o.task)]))
  }

  function RenamedAll(os: seq<Outcome>, tokens: map<Key, string>): seq<Outcome>
    requires forall o <- os :: KeyOf(o.task) in tokens
  {
    seq(|os|, i requires 0 <= i < |os| => Renamed(os[i], tokens))
  }

  /** `ids` and `token` are freshly minted; `chosen` is the store's pick. */
  datatype Choice = Choice(ids: seq<string>, token: string, chosen: set<string>)

  ghost predicate Legal(c: Mongo, op: Op, choice: Choice) {
    && choice.token !in c.used
    && match op
       case Enqueue(ts) =>
         && |choice.ids| == |ts| && (forall id <- choice.ids :: id !in c.docs)
         && (forall i, j :: 0 <= i < j < |ts| ==> choice.ids[i] != choice.ids[j])
       case Claim(opts, fifo, now) => Picks(c.docs, opts, fifo, now, 1, choice.chosen)
       case ClaimBatch(opts, fifo, now, k) => Picks(c.docs, opts, fifo, now, k, choice.chosen)
       case _ => true
  }

  /** Any runnable tasks of the right type and queue, as many as there are up to
      `k`; sorted by (run_at, id), the earliest of them. */
  ghost predicate Picks(docs: map<string, Task>, opts: ClaimOptions, fifo: bool, now: int, k: nat,
        chosen: set<string>) {
    var wanted := Wanted(docs, opts, now);
    && chosen <= wanted && |chosen| == (if k <= |wanted| then k else |wanted|)
    && (fifo ==> forall i <- chosen, j <- wanted - chosen :: Earlier(docs[i], docs[j]))
  }

  /** The claims an operation is about were handed out; tasks enter as the
      manager makes them, and a unique key comes alone. */
  ghost predicate Proper(op: Op, tokens: map<Key, string>) {
    match op
    case Enqueue(ts) => (forall t <- ts :: Fresh(t)) && (|ts| <= 1 || forall t <- ts :: t.uniqueKey == "")
    case Claim(opts, _, _) => opts.lease >= 0
    case ClaimBatch(opts, _, _, _) => opts.lease >= 0
    case Settle(o, _, _) => KeyOf(o.task) in tokens
    case SettleBatch(os, nows, _) => |os| == |nows| && forall o <- os :: KeyOf(o.task) in tokens
    case Extend(k, _, _) => k in tokens
    case _ => true
  }

  ghost function MongoDo(c: Mongo, op: Op, tokens: map<Key, string>, choice: Choice): Mongo
    requires Proper(op, tokens) && (op.Enqueue? ==> |choice.ids| == |op.tasks|)
  {
    match op
    case Enqueue(ts) => c.(docs := InsertMany(c.docs, choice.ids, ts))
    case Claim(opts, _, now) =>
      Mongo(ClaimAmong(c.docs, choice.chosen, opts, now, choice.token), c.used + {choice.token})
    case ClaimBatch(opts, _, now, _) =>
      Mongo(ClaimAmong(c.docs, choice.chosen, opts, now, choice.token), c.used + {choice.token})
    case Settle(o, _, now) => c.(docs := FinalizeOne(c.docs, Renamed(o, tokens), now))
    case SettleBatch(os, _, now) => c.(docs := FinalizeBatch.FinalizeAll(c.docs, RenamedAll(os, tokens), now))
    case Extend(k, now, lease) => c.(docs := ExtendHeld(c.docs, Key(k.id, tokens[k]), now, lease))
    case Requeue(id, now) => c.(docs := RequeueAmong(c.docs, DeadIds(c.docs, "") * {id}, now))
    case RequeueDead(kind, now) => c.(docs := RequeueAmong(c.docs, DeadIds(c.docs, kind), now))
    case Reap(now) => c.(docs := ReapAmong(c.docs, ReapableIds(c.docs, now), now))
  }

  /** The stored tasks that carry the key. */
  ghost function Holders(docs: map<string, Task>, key: string): set<string> {
    if key == "" then {} else set id <- docs | docs[id].uniqueKey == key
  }

  ghost function MongoReply(c: Mongo, op: Op, tokens: map<Key, string>, choice: Choice): Reply
    requires Proper(op, tokens) && (op.Enqueue? ==> |choice.ids| == |op.tasks|)
  {
    match op
    case Enqueue(ts) =>
      Inserted(InsertedMany(c.docs, choice.ids, ts), if |ts| == 1 then Holders(c.docs, ts[0].uniqueKey) else {})
    case Claim(_, _, _) => Tasks(choice.chosen)
    case ClaimBatch(_, _, _, _) => Tasks(choice.chosen)
    case Settle(o, _, _) => Verdict(Hits(c.docs, Renamed(o, tokens)))
    case SettleBatch(os, _, now) =>
      Count(|os| - FinalizeBatch.MatchedInTurn(c.docs, RenamedAll(os, tokens), now))
    case Extend(k, now, lease) => Until(if HeldBy(c.docs, Key(k.id, tokens[k])) then Some(now + lease) else None)
    case Requeue(id, _) => Verdict(id in c.docs && c.docs[id].status.Dead?)
    case RequeueDead(kind, _) => Count(|DeadIds(c.docs, kind)|)
    case Reap(now) => Count(|ReapableIds(c.docs, now)|)
  }

  // ----- The relation -----

  predicate Same(t: Task, u: Task) {
    && u == t.(leaseToken := u.leaseToken, updatedAt := u.updatedAt, leasedUntil := u.leasedUntil)
    && (t.status.Running? ==> u.leasedUntil == t.leasedUntil)
  }

  predicate Tidy(t: Task) {
    && (!t.status.Running? ==> t.leaseToken == "")
    && (!t.status.Done? ==> t.result == "")
    && (!Active(t) ==> t.uniqueKey == "")
  }

  predicate Linked(id: string, t: Task, u: Task, tokens: map<Key, string>) {
    && t.id == id && Same(t, u) && Tidy(t) && Tidy(u)
    && (t.status.Running? ==> KeyOf(t) in tokens && tokens[KeyOf(t)] == u.leaseToken)
  }

  ghost predicate AllLinked(m: map<string, Task>, docs: map<string, Task>, tokens: map<Key, string>) {
    m.Keys == docs.Keys && forall id <- m :: Linked(id, m[id], docs[id], tokens)
  }

  ghost predicate TokensOK(tokens: map<Key, string>, seqNo: nat, used: set<string>) {
    && "" in used
    && (forall k <- tokens :: k.token != "" && tokens[k] != "" && tokens[k] in used)
    && (forall k, n :: k in tokens && n > seqNo ==> k.token != LeaseToken(n))
    && (forall k, l :: k in tokens && l in tokens && k.id == l.id && tokens[k] == tokens[l] ==> k == l)
  }

  ghost predicate Related(p: Pair) {
    && Minted(p.mem) && AllLinked(p.mem.tasks, p.mongo.docs, p.tokens)
    && TokensOK(p.tokens, p.mem.seqNo, p.mongo.used)
  }

  // ----- The matching run -----

  function FreshIds(seqNo: nat, n: nat): seq<string> { seq(n, i requires 0 <= i => TaskId(seqNo + 1 + i)) }

  /** Mongo mints the same ids and picks the tasks the in-memory store took. */
  ghost function Matching(m: MemState, op: Op, token: string): Choice
    requires op.SettleBatch? ==> |op.outcomes| == |op.nows|
  {
    Choice(if op.Enqueue? then FreshIds(m.seqNo, |op.tasks|) else [], token,
           if op.Claim? || op.ClaimBatch? then MemReply(m, op).ids else {})
  }

  function Issued(m: map<string, Task>, ids: set<string>): set<Key> { set id <- ids | id in m :: KeyOf(m[id]) }

  function Grown(tokens: map<Key, string>, keys: set<Key>, token: string): map<Key, string> {
    tokens + map k <- keys :: token
  }

  ghost function Next(p: Pair, op: Op, token: string): Pair
    requires Proper(op, p.tokens)
  {
    var choice := Matching(p.mem, op, token);
    var m := MemDo(p.mem, op);
    Pair(m, MongoDo(p.mongo, op, p.tokens, choice), Grown(p.tokens, Issued(m.tasks, choice.chosen), token))
  }

  lemma NothingGrown(m: map<string, Task>, tokens: map<Key, string>, token: string)
    ensures Grown(tokens, Issued(m, {}), token) == tokens
  {
  }

  // ----- Holding -----

  /** A claim is live in both stores or in neither. */
  lemma HoldsAgree(p: Pair, k: Key)
    requires Related(p) && k in p.tokens
    ensures HeldBy(p.mem.tasks, k) <==> HeldBy(p.mongo.docs, Key(k.id, p.tokens[k]))
  {
    hide Minted;
    if k.id in p.mem.tasks {
      assert Linked(k.id, p.mem.tasks[k.id], p.mongo.docs[k.id], p.tokens);
    }
  }

  lemma OneChanges(p: Pair, id: string, t: Task, u: Task)
    requires Related(p) && id in p.mem.tasks && Linked(id, t, u, p.tokens)
    ensures Related(Pair(p.mem.(tasks := p.mem.tasks[id := t]), p.mongo.(docs := p.mongo.docs[id := u]), p.tokens))
  {
    hide Minted, Linked, TokensOK;
    assert t.id == id by { LinkedId(id, t, u, p.tokens); }
    UpdateKeepsMinted(p.mem, id, t);
  }

  lemma LinkedId(id: string, t: Task, u: Task, tokens: map<Key, string>)
    requires Linked(id, t, u, tokens)
    ensures t.id == id
  {
  }

  // ----- The transitions, task by task -----

  lemma FinalizeLinked(id: string, t: Task, u: Task, tokens: map<Key, string>, o: Outcome, q: Outcome, now: int,
        mongoNow: int)
    requires Linked(id, t, u, tokens) && t.status.Running? && q == o.(task := q.task)
    ensures Linked(id, MemFinalized(t, o, now), Finalized(u, q, mongoNow), tokens)
  {
  }

  lemma SweepsLinked(id: string, t: Task, u: Task, tokens: map<Key, string>, now: int, lease: int)
    requires Linked(id, t, u, tokens)
    ensures t.status.Running? ==> Linked(id, MemExtended(t, now, lease), Extended(u, now, lease), tokens)
    ensures t.status.Dead? ==> Linked(id, MemRequeued(t, now), Requeued(u, now), tokens)
    ensures t.status.Running? ==> Linked(id, MemReaped(t, now), Reaped(u, now), tokens)
  {
  }

  // ----- One operation at a time -----

  lemma SettleAgrees(p: Pair, o: Outcome, now: int, mongoNow: int)
    requires Related(p) && KeyOf(o.task) in p.tokens
    ensures HeldBy(p.mem.tasks, KeyOf(o.task)) <==> Hits(p.mongo.docs, Renamed(o, p.tokens))
    ensures Related(p.(mem := p.mem.(tasks := MemFinalizeOne(p.mem.tasks, o, now)),
                       mongo := p.mongo.(docs := FinalizeOne(p.mongo.docs, Renamed(o, p.tokens), mongoNow))))
  {
    hide Related, Minted, Linked, MemFinalized, Finalized;
    var k, id := KeyOf(o.task), o.task.id;
    HoldsAgree(p, k);
    if HeldBy(p.mem.tasks, k) {
      LinkOf(p, id);
      FinalizeLinked(id, p.mem.tasks[id], p.mongo.docs[id], p.tokens, o, Renamed(o, p.tokens), now, mongoNow);
      OneChanges(p, id, MemFinalized(p.mem.tasks[id], o, now), Finalized(p.mongo.docs[id], Renamed(o, p.tokens),
          mongoNow));
    }
  }

  lemma LinkOf(p: Pair, id: string)
    requires Related(p) && id in p.mem.tasks
    ensures id in p.mongo.docs && Linked(id, p.mem.tasks[id], p.mongo.docs[id], p.tokens)
  {
  }

  lemma {:induction false} SettleBatchAgrees(p: Pair, os: seq<Outcome>, nows: seq<int>, mongoNow: int)
    requires Related(p) && |os| == |nows| && forall o <- os :: KeyOf(o.task) in p.tokens
    ensures MemLost(p.mem.tasks, os, nows)
         == |os| - FinalizeBatch.MatchedInTurn(p.mongo.docs, RenamedAll(os, p.tokens), mongoNow)
    ensures Related(p.(mem := p.mem.(tasks := MemFinalizeAll(p.mem.tasks, os, nows)),
                       mongo := p.mongo.(docs := FinalizeBatch.FinalizeAll(p.mongo.docs, RenamedAll(os, p.tokens),
                           mongoNow))))
  {
    hide Related, HeldBy, MemFinalizeOne, Hits, FinalizeOne;
    if os != [] {
      var n, qs := |os| - 1, RenamedAll(os, p.tokens);
      SettleBatchAgrees(p, os[..n], nows[..n], mongoNow);
      assert qs[..n] == RenamedAll(os[..n], p.tokens) && qs[n] == Renamed(os[n], p.tokens);
      var q := p.(mem := p.mem.(tasks := MemFinalizeAll(p.mem.tasks, os[..n], nows[..n])),
                  mongo := p.mongo.(docs := FinalizeBatch.FinalizeAll(p.mongo.docs, qs[..n], mongoNow)));
      SettleAgrees(q, os[n], nows[n], mongoNow);
    }
  }

  lemma ExtendAgrees(p: Pair, k: Key, now: int, lease: int)
    requires Related(p) && k in p.tokens
    ensures var j := Key(k.id, p.tokens[k]);
            && (HeldBy(p.mem.tasks, k) <==> HeldBy(p.mongo.docs, j))
            && Related(p.(mem := p.mem.(tasks := MemExtendOne(p.mem.tasks, k, now, lease)),
                          mongo := p.mongo.(docs := ExtendHeld(p.mongo.docs, j, now, lease))))
  {
    hide Related, Minted, Linked, Extended;
    var j := Key(k.id, p.tokens[k]);
    HoldsAgree(p, k);
    if HeldBy(p.mem.tasks, k) {
      LinkOf(p, k.id);
      LinkedStatus(k.id, p.mem.tasks[k.id], p.mongo.docs[k.id], p.tokens);
      SweepsLinked(k.id, p.mem.tasks[k.id], p.mongo.docs[k.id], p.tokens, now, lease);
      OneChanges(p, k.id, MemExtended(p.mem.tasks[k.id], now, lease), Extended(p.mongo.docs[k.id], now, lease));
      assert ExtendHeld(p.mongo.docs, j, now, lease) == p.mongo.docs[k.id := Extended(p.mongo.docs[k.id], now, lease)];
    } else {
      assert ExtendHeld(p.mongo.docs, j, now, lease) == p.mongo.docs;
    }
  }

  lemma LinkedStatus(id: string, t: Task, u: Task, tokens: map<Key, string>)
    requires Linked(id, t, u, tokens)
    ensures t.status == u.status
  {
  }

  lemma RequeueAgrees(p: Pair, id: string, now: int)
    requires Related(p)
    ensures id in p.mem.tasks && p.mem.tasks[id].status.Dead? <==> id in p.mongo.docs && p.mongo.docs[id].status.Dead?
    ensures Related(p.(mem := MemDo(p.mem, Requeue(id, now)),
                       mongo := p.mongo.(docs := RequeueAmong(p.mongo.docs, DeadIds(p.mongo.docs, "") * {id}, now))))
  {
    hide Related, Minted, Linked, MemRequeued, Requeued;
    SameTasks(p);
    if id in p.mem.tasks {
      LinkOf(p, id);
      LinkedStatus(id, p.mem.tasks[id], p.mongo.docs[id], p.tokens);
    }
    if id in p.mem.tasks && p.mem.tasks[id].status.Dead? {
      SweepsLinked(id, p.mem.tasks[id], p.mongo.docs[id], p.tokens, now, 0);
      OneChanges(p, id, MemRequeued(p.mem.tasks[id], now), Requeued(p.mongo.docs[id], now));
      assert RequeueAmong(p.mongo.docs, DeadIds(p.mongo.docs, "") * {id}, now)
           == p.mongo.docs[id := Requeued(p.mongo.docs[id], now)];
    } else {
      assert RequeueAmong(p.mongo.docs, DeadIds(p.mongo.docs, "") * {id}, now) == p.mongo.docs;
    }
  }

  lemma SweepsPick(p: Pair, kind: string, now: int)
    requires Related(p)
    ensures DeadIds(p.mem.tasks, kind) == DeadIds(p.mongo.docs, kind)
    ensures ReapableIds(p.mem.tasks, now) == ReapableIds(p.mongo.docs, now)
  {
    forall id <- p.mem.tasks
      ensures IsDead(p.mem.tasks[id], kind) <==> IsDead(p.mongo.docs[id], kind)
      ensures Reapable(p.mem.tasks[id], now) <==> Reapable(p.mongo.docs[id], now)
    {
      LinkOf(p, id);
    }
  }

  lemma RequeueDeadAgrees(p: Pair, kind: string, now: int)
    requires Related(p)
    ensures DeadIds(p.mem.tasks, kind) == DeadIds(p.mongo.docs, kind)
    ensures Related(p.(mem := p.mem.(tasks := MemRequeueAmong(p.mem.tasks, DeadIds(p.mem.tasks, kind), now)),
                       mongo := p.mongo.(docs := RequeueAmong(p.mongo.docs, DeadIds(p.mongo.docs, kind), now))))
  {
    hide Related, Linked, MemRequeued, Requeued, TokensOK;
    SweepsPick(p, kind, now);
    var ids := DeadIds(p.mem.tasks, kind);
    var m, docs := MemRequeueAmong(p.mem.tasks, ids, now), RequeueAmong(p.mongo.docs, ids, now);
    SameTasks(p);
    forall id <- m ensures Linked(id, m[id], docs[id], p.tokens) && m[id].id == id {
      LinkOf(p, id);
      SweepsLinked(id, p.mem.tasks[id], p.mongo.docs[id], p.tokens, now, 0);
      LinkedId(id, m[id], docs[id], p.tokens);
    }
    SweptRelated(p, m, docs);
  }

  lemma ReapAgrees(p: Pair, now: int)
    requires Related(p)
    ensures ReapableIds(p.mem.tasks, now) == ReapableIds(p.mongo.docs, now)
    ensures Related(p.(mem := p.mem.(tasks := MemReapAmong(p.mem.tasks, ReapableIds(p.mem.tasks, now), now)),
                       mongo := p.mongo.(docs := ReapAmong(p.mongo.docs, ReapableIds(p.mongo.docs, now), now))))
  {
    hide Related, Linked, MemReaped, Reaped, TokensOK;
    SweepsPick(p, "", now);
    var ids := ReapableIds(p.mem.tasks, now);
    var m, docs := MemReapAmong(p.mem.tasks, ids, now), ReapAmong(p.mongo.docs, ids, now);
    SameTasks(p);
    forall id <- m ensures Linked(id, m[id], docs[id], p.tokens) && m[id].id == id {
      LinkOf(p, id);
      SweepsLinked(id, p.mem.tasks[id], p.mongo.docs[id], p.tokens, now, 0);
      LinkedId(id, m[id], docs[id], p.tokens);
    }
    SweptRelated(p, m, docs);
  }

  lemma SameTasks(p: Pair)
    requires Related(p)
    ensures p.mem.tasks.Keys == p.mongo.docs.Keys
  {
  }

  lemma SweptRelated(p: Pair, m: map<string, Task>, docs: map<string, Task>)
    requires Related(p) && m.Keys == docs.Keys == p.mem.tasks.Keys
    requires forall id <- m :: Linked(id, m[id], docs[id], p.tokens) && m[id].id == id
    ensures Related(p.(mem := p.mem.(tasks := m), mongo := p.mongo.(docs := docs)))
  {
    hide Linked, TokensOK;
  }

  // ----- Enqueue -----

  /** The scan for an active holder and the unique index agree. */
  lemma ConflictAgrees(p: Pair, key: string)
    requires Related(p)
    ensures Conflict(p.mem.tasks, key) <==> !Cluster.KeyFree(p.mongo.docs, key)
    ensures ActiveHolders(p.mem.tasks, key) == Holders(p.mongo.docs, key)
  {
    hide Minted;
    SameTasks(p);
    forall id <- p.mem.tasks
      ensures key != "" ==> (Active(p.mem.tasks[id]) && p.mem.tasks[id].uniqueKey == key <==>
           p.mongo.docs[id].uniqueKey == key)
    {
      LinkOf(p, id);
    }
  }

  lemma InsertRelated(p: Pair, t: Task)
    requires Related(p) && Fresh(t)
    ensures var id := TaskId(p.mem.seqNo + 1);
            && id !in p.mongo.docs
            && Related(p.(mem := Insert(p.mem, t), mongo := p.mongo.(docs := p.mongo.docs[id := t.(id := id)])))
  {
    hide Minted;
    InsertKeepsMinted(p.mem, t);
  }

  lemma {:induction false} EnqueueAgrees(p: Pair, ts: seq<Task>)
    requires Related(p) && forall t <- ts :: Fresh(t)
    requires |ts| <= 1 || forall t <- ts :: t.uniqueKey == ""
    ensures var ids := FreshIds(p.mem.seqNo, |ts|);
            && InsertedBy(p.mem, ts) == InsertedMany(p.mongo.docs, ids, ts)
            && Related(p.(mem := EnqueueAll(p.mem, ts), mongo := p.mongo.(docs := InsertMany(p.mongo.docs, ids, ts))))
    decreases |ts|
  {
    hide Related, Fresh, Conflict, Cluster.KeyFree;
    if ts != [] {
      var t, ids := ts[0], FreshIds(p.mem.seqNo, |ts|);
      ConflictAgrees(p, t.uniqueKey);
      assert ids[1..] == FreshIds(p.mem.seqNo + 1, |ts| - 1);
      if Conflict(p.mem.tasks, t.uniqueKey) {
        KeylessIsFree(p.mongo.docs);
        assert ts[1..] == [];
      } else {
        InsertRelated(p, t);
        var q := p.(mem := Insert(p.mem, t), mongo := p.mongo.(docs := p.mongo.docs[ids[0] := t.(id := ids[0])]));
        EnqueueAgrees(q, ts[1..]);
      }
    }
  }

  lemma KeylessIsFree(docs: map<string, Task>)
    ensures Cluster.KeyFree(docs, "")
  {
  }

  lemma FreshIdsAreFresh(p: Pair, n: nat)
    requires Related(p)
    ensures var ids := FreshIds(p.mem.seqNo, n);
            |ids| == n && (forall id <- ids :: id !in p.mongo.docs) && forall i, j :: 0 <= i < j < n ==>
                 ids[i] != ids[j]
  {
    var ids := FreshIds(p.mem.seqNo, n);
    forall i, j | 0 <= i < j < n ensures ids[i] != ids[j] {
      IdsAreInjective(p.mem.seqNo + 1 + i, p.mem.seqNo + 1 + j);
    }
  }

  // ----- Claims -----

  lemma WantedAgree(p: Pair, opts: ClaimOptions, now: int)
    requires Related(p)
    ensures Wanted(p.mem.tasks, opts, now) == Wanted(p.mongo.docs, opts, now)
  {
    SameTasks(p);
    forall id <- p.mem.tasks
      ensures WantedAndRunnable(opts, now, p.mem.tasks[id]) <==> WantedAndRunnable(opts, now, p.mongo.docs[id])
    {
      LinkOf(p, id);
    }
  }

  lemma {:induction false} RoundsKeepMinted(s: MemState, opts: ClaimOptions, now: int, k: nat)
    requires Minted(s)
    ensures Minted(ClaimRounds(s, opts, now, k).0)
    decreases k
  {
    hide Minted, First, ClaimIt;
    NextRound(s, opts, now);
    if k > 0 && First(s.tasks, opts, now).Some? {
      var id := First(s.tasks, opts, now).value;
      ClaimKeepsMinted(s, id, opts, now);
      RoundsKeepMinted(ClaimIt(s, id, opts, now), opts, now, k - 1);
    }
  }

  ghost predicate TookOne(s: MemState, opts: ClaimOptions, now: int, s': MemState, id: string, n: nat) {
    && id in s.tasks && id in s'.tasks && s.seqNo < n <= s'.seqNo
    && s'.tasks[id] == Claimed(s.tasks[id], now, opts.workerId, LeaseToken(n), opts.lease)
  }

  /** What a batch claim of the in-memory store did, in the terms needed here. */
  ghost predicate BatchTook(s: MemState, opts: ClaimOptions, now: int, s': MemState, ids: set<string>) {
    && s.seqNo <= s'.seqNo && s'.tasks.Keys == s.tasks.Keys && ids <= Wanted(s.tasks, opts, now)
    && (forall id <- ids :: exists n: nat :: TookOne(s, opts, now, s', id, n))
    && (forall id <- s.tasks | id !in ids :: s'.tasks[id] == s.tasks[id])
  }

  lemma BatchTakes(s: MemState, opts: ClaimOptions, fifo: bool, now: int, k: nat)
    requires Minted(s) && opts.lease >= 0
    ensures var r := ClaimRounds(s, opts, now, k);
            && Minted(r.0) && BatchTook(s, opts, now, r.0, Ids(r.1))
            && Picks(s.tasks, opts, fifo, now, k, Ids(r.1))
  {
    hide Minted, FirstOf, ClaimRounds, Claimed, Wanted;
    var r := ClaimRounds(s, opts, now, k);
    RoundsKeepMinted(s, opts, now, k);
    RoundsTakeTheFirst(s, opts, now, k);
    WantedAreThere(s.tasks, opts, now);
    FirstOfTakesTheEarliest(s.tasks, Wanted(s.tasks, opts, now), k, r.1);
    forall id <- Ids(r.1) ensures exists n: nat :: TookOne(s, opts, now, r.0, id, n) {
      var i :| 0 <= i < |r.1| && r.1[i].id == id;
      assert TookOne(s, opts, now, r.0, id, s.seqNo + 1 + i);
    }
  }

  lemma WantedAreThere(m: map<string, Task>, opts: ClaimOptions, now: int)
    ensures Wanted(m, opts, now) <= m.Keys
  {
  }

  lemma ClaimLinked(id: string, t: Task, u: Task, tokens: map<Key, string>, now: int, opts: ClaimOptions, mine: string,
        theirs: string, more: map<Key, string>)
    requires Linked(id, t, u, tokens) && WantedAndRunnable(opts, now, t)
    requires Key(id, mine) in more && more[Key(id, mine)] == theirs
    ensures Linked(id, Claimed(t, now, opts.workerId, mine, opts.lease), Claimed(u, now, opts.workerId, theirs,
        opts.lease), more)
    ensures Runnable(u, now)
  {
  }

  lemma IssuedKeys(m: map<string, Task>, ids: set<string>, id: string)
    requires forall i <- m :: m[i].id == i
    requires id in m
    ensures KeyOf(m[id]) in Issued(m, ids) <==> id in ids
    ensures forall k <- Issued(m, ids) :: k.id in ids && k.id in m && k == KeyOf(m[k.id])
  {
  }

  lemma ClaimsLinked(p: Pair, opts: ClaimOptions, now: int, m: MemState, ids: set<string>, token: string)
    requires Related(p) && Minted(m) && BatchTook(p.mem, opts, now, m, ids)
    ensures AllLinked(m.tasks, ClaimAmong(p.mongo.docs, ids, opts, now, token), Grown(p.tokens, Issued(m.tasks, ids),
        token))
  {
    hide Linked, Claimed, Related, Runnable, Minted, Wanted;
    SameTasks(p);
    var docs, more := ClaimAmong(p.mongo.docs, ids, opts, now, token), Grown(p.tokens, Issued(m.tasks, ids), token);
    WantedAreThere(p.mem.tasks, opts, now);
    forall id <- m.tasks ensures Linked(id, m.tasks[id], docs[id], more) {
      LinkOf(p, id);
      OwnIds(m);
      IssuedKeys(m.tasks, ids, id);
      if id in ids {
        var n: nat :| TookOne(p.mem, opts, now, m, id, n);
        ClaimedKey(p.mem.tasks[id], now, opts.workerId, LeaseToken(n), opts.lease);
        WantedIsTaken(p.mem.tasks, opts, now, id);
        ClaimLinked(id, p.mem.tasks[id], p.mongo.docs[id], p.tokens, now, opts, LeaseToken(n), token, more);
      } else {
        LinkedGrown(id, m.tasks[id], docs[id], p.tokens, more);
      }
    }
  }

  lemma OwnIds(m: MemState)
    requires Minted(m)
    ensures forall i <- m.tasks :: m.tasks[i].id == i
  {
  }

  lemma WantedIsTaken(m: map<string, Task>, opts: ClaimOptions, now: int, id: string)
    requires id in Wanted(m, opts, now)
    ensures WantedAndRunnable(opts, now, m[id])
  {
  }

  lemma ClaimedKey(t: Task, now: int, worker: string, token: string, lease: int)
    ensures KeyOf(Claimed(t, now, worker, token, lease)) == Key(t.id, token)
  {
  }

  lemma LinkedGrown(id: string, t: Task, u: Task, tokens: map<Key, string>, more: map<Key, string>)
    requires Linked(id, t, u, tokens)
    requires KeyOf(t) in tokens ==> KeyOf(t) in more && more[KeyOf(t)] == tokens[KeyOf(t)]
    ensures Linked(id, t, u, more)
  {
  }

  lemma IssuedTokensAreNew(s: MemState, opts: ClaimOptions, now: int, m: MemState, ids: set<string>, k: Key)
    requires Minted(s) && Minted(m) && BatchTook(s, opts, now, m, ids) && k in Issued(m.tasks, ids)
    ensures k.id in ids && k.id in m.tasks && k == KeyOf(m.tasks[k.id])
    ensures k.token != "" && forall n: nat :: n > m.seqNo ==> k.token != LeaseToken(n)
  {
    hide Minted, Wanted;
    OwnIds(m);
    OwnIds(s);
    WantedAreThere(s.tasks, opts, now);
    var n: nat :| TookOne(s, opts, now, m, k.id, n);
    forall i: nat { IdsAreInjective(n, i); }
  }

  lemma TokensGrow(p: Pair, opts: ClaimOptions, now: int, m: MemState, ids: set<string>, token: string)
    requires Related(p) && Minted(m) && BatchTook(p.mem, opts, now, m, ids) && token !in p.mongo.used
    ensures TokensOK(Grown(p.tokens, Issued(m.tasks, ids), token), m.seqNo, p.mongo.used + {token})
  {
    hide AllLinked, Minted, Issued;
    var keys := Issued(m.tasks, ids);
    forall k <- keys
      ensures k.id in ids && k.id in m.tasks && k == KeyOf(m.tasks[k.id])
      ensures k.token != "" && forall n: nat :: n > m.seqNo ==> k.token != LeaseToken(n)
    {
      IssuedTokensAreNew(p.mem, opts, now, m, ids, k);
    }
    hide BatchTook;
  }

  lemma OrderAgrees(p: Pair, i: string, j: string)
    requires Related(p) && i in p.mem.tasks && j in p.mem.tasks
    ensures i in p.mongo.docs && j in p.mongo.docs
    ensures Earlier(p.mem.tasks[i], p.mem.tasks[j]) <==> Earlier(p.mongo.docs[i], p.mongo.docs[j])
  {
    hide Related;
    LinkOf(p, i);
    LinkOf(p, j);
  }

  lemma PicksAgree(p: Pair, opts: ClaimOptions, fifo: bool, now: int, k: nat, ids: set<string>)
    requires Related(p) && Picks(p.mem.tasks, opts, fifo, now, k, ids)
    ensures Picks(p.mongo.docs, opts, fifo, now, k, ids)
  {
    hide Related, Wanted, Earlier;
    WantedAgree(p, opts, now);
    WantedAreThere(p.mem.tasks, opts, now);
    WantedAreThere(p.mongo.docs, opts, now);
    if fifo {
      forall i <- ids, j <- Wanted(p.mem.tasks, opts, now) - ids ensures Earlier(p.mongo.docs[i], p.mongo.docs[j]) {
        OrderAgrees(p, i, j);
      }
    }
  }

  lemma ClaimAgrees(p: Pair, opts: ClaimOptions, fifo: bool, now: int, k: nat, token: string)
    requires Related(p) && opts.lease >= 0 && token !in p.mongo.used
    ensures var r := ClaimRounds(p.mem, opts, now, k);
            var ids := Ids(r.1);
            && Picks(p.mongo.docs, opts, fifo, now, k, ids)
            && Related(Pair(r.0, Mongo(ClaimAmong(p.mongo.docs, ids, opts, now, token), p.mongo.used + {token}),
                            Grown(p.tokens, Issued(r.0.tasks, ids), token)))
  {
    hide Minted, AllLinked, TokensOK, ClaimRounds, BatchTook, ClaimAmong, Grown;
    BatchTakes(p.mem, opts, fifo, now, k);
    var r := ClaimRounds(p.mem, opts, now, k);
    PicksAgree(p, opts, fifo, now, k, Ids(r.1));
    ClaimsLinked(p, opts, now, r.0, Ids(r.1), token);
    TokensGrow(p, opts, now, r.0, Ids(r.1), token);
  }

  lemma OneRound(s: MemState, opts: ClaimOptions, fifo: bool, now: int)
    ensures var r := ClaimRounds(s, opts, now, 1);
            r.0 == ClaimOne(s, opts, now).0 && Tasks(Ids(r.1)) == MemReply(s, Claim(opts, fifo, now))
  {
    hide First, ClaimIt;
    var t := ClaimOne(s, opts, now).1;
    assert ClaimRounds(s, opts, now, 1).1 == if t.None? then [] else [t.value] + [];
    NoIds();
    if t.Some? {
      IdsOf(t.value, []);
      assert {t.value.id} + {} == {t.value.id};
    }
  }

  // ----- One step -----

  lemma StepAgrees(p: Pair, op: Op, token: string)
    requires Related(p) && Proper(op, p.tokens) && token !in p.mongo.used
    ensures var choice := Matching(p.mem, op, token);
            Legal(p.mongo, op, choice) && MemReply(p.mem, op) == MongoReply(p.mongo, op, p.tokens, choice)
    ensures Related(Next(p, op, token))
  {
    hide Related, Fresh, ClaimRounds, ClaimOne, ClaimAmong, HeldBy, MemFinalizeOne, MemExtendOne, FinalizeOne,
      Hits, DeadIds, ReapableIds, Picks, Issued, Grown, FreshIds, ActiveHolders, Holders;
    NothingGrown(MemDo(p.mem, op).tasks, p.tokens, token);
    match op {
      case Enqueue(ts) =>
        FreshIdsAreFresh(p, |ts|);
        if |ts| == 1 {
          ConflictAgrees(p, ts[0].uniqueKey);
        }
        EnqueueAgrees(p, ts);
      case Claim(opts, fifo, now) =>
        OneRound(p.mem, opts, fifo, now);
        ClaimAgrees(p, opts, fifo, now, 1, token);
      case ClaimBatch(opts, fifo, now, k) =>
        ClaimAgrees(p, opts, fifo, now, k, token);
      case Settle(o, now, mongoNow) =>
        SettleAgrees(p, o, now, mongoNow);
      case SettleBatch(os, nows, mongoNow) =>
        SettleBatchAgrees(p, os, nows, mongoNow);
      case Extend(k, now, lease) =>
        ExtendAgrees(p, k, now, lease);
      case Requeue(id, now) =>
        RequeueAgrees(p, id, now);
      case RequeueDead(kind, now) =>
        RequeueDeadAgrees(p, kind, now);
      case Reap(now) =>
        ReapAgrees(p, now);
    }
  }
}
