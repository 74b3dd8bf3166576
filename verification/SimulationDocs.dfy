/** Whole runs of the in-memory store against the filter and update documents
    the Mongo store sends.
 */
module SimulationDocs {
  import opened Tasks
  import opened Lifecycle
  import opened Strings
  import opened MemSpec
  import opened MongoDocs
  import opened Simulation
  import Cluster
  import FinalizeBatch

  /** The collection, and the tokens minted. */
  datatype Server = Server(docs: Collection, used: set<string>)

  function View(c: Server): Mongo { Mongo(TasksOf(c.docs), c.used) }

  // ----- What the store sends -----

  /** The partial unique index: documents without a key are not in it. */
  predicate IndexFree(c: Collection, d: Doc) {
    d.uniqueKey.None? || forall id <- c.Keys :: c[id].uniqueKey != d.uniqueKey
  }

  /** An unordered insert: every document the index admits goes in. */
  function InsertDocs(c: Collection, ids: seq<string>, ts: seq<Task>): Collection
    requires |ids| == |ts|
    decreases |ts|
  {
    if ts == [] then c
    else
      var d := Encode(ts[0].(id := ids[0]));
      InsertDocs(if IndexFree(c, d) then c[ids[0] := d] else c, ids[1..], ts[1..])
  }

  function InsertedDocs(c: Collection, ids: seq<string>, ts: seq<Task>): nat
    requires |ids| == |ts|
    decreases |ts|
  {
    if ts == [] then 0
    else
      var d := Encode(ts[0].(id := ids[0]));
      if IndexFree(c, d) then 1 + InsertedDocs(c[ids[0] := d], ids[1..], ts[1..])
      else InsertedDocs(c, ids[1..], ts[1..])
  }

  function Finalize(c: Collection, o: Outcome, now: int): Collection {
    UpdateWhere(c, LeaseFilter(o.task.id, o.task.leaseToken), FinalizeUpdate(o, now))
  }

  function FinalizeMany(c: Collection, os: seq<Outcome>, now: int): Collection {
    if os == [] then c else Finalize(FinalizeMany(c, os[..|os| - 1], now), os[|os| - 1], now)
  }

  function MatchedMany(c: Collection, os: seq<Outcome>, now: int): nat {
    if os == [] then 0
    else
      var n := |os| - 1;
      MatchedMany(c, os[..n], now)
      + MatchedCount(FinalizeMany(c, os[..n], now), LeaseFilter(os[n].task.id, os[n].task.leaseToken))
  }

  ghost function ServerDo(c: Server, op: Op, tokens: map<Key, string>, choice: Choice): Server
    requires Proper(op, tokens) && (op.Enqueue? ==> |choice.ids| == |op.tasks|)
  {
    match op
    case Enqueue(ts) => c.(docs := InsertDocs(c.docs, choice.ids, ts))
    case Claim(opts, _, now) =>
      var flt := RunnableFilter(now, opts.kinds, opts.queues);
      Server(UpdateChosen(c.docs, choice.chosen, flt, ClaimUpdate(now, opts.workerId, choice.token, opts.lease)),
             c.used + {choice.token})
    case ClaimBatch(opts, _, now, _) =>
      var guard := RunnableFilter(now, [], []);
      Server(UpdateChosen(c.docs, choice.chosen, guard, ClaimUpdate(now, opts.workerId, choice.token, opts.lease)),
             c.used + {choice.token})
    case Settle(o, _, now) => c.(docs := Finalize(c.docs, Renamed(o, tokens), now))
    case SettleBatch(os, _, now) => c.(docs := FinalizeMany(c.docs, RenamedAll(os, tokens), now))
    case Extend(k, now, lease) =>
      c.(docs := UpdateWhere(c.docs, LeaseFilter(k.id, tokens[k]), ExtendUpdate(now, lease)))
    case Requeue(id, now) => c.(docs := UpdateWhere(c.docs, DeadFilter(id), RequeueUpdate(now)))
    case RequeueDead(kind, now) => c.(docs := UpdateWhere(c.docs, AllDeadFilter(kind), RequeueUpdate(now)))
    case Reap(now) => c.(docs := ReapWhere(c.docs, now))
  }

  ghost function ServerReply(c: Server, op: Op, tokens: map<Key, string>, choice: Choice): Reply
    requires Proper(op, tokens) && (op.Enqueue? ==> |choice.ids| == |op.tasks|)
  {
    match op
    case Enqueue(ts) =>
      Inserted(InsertedDocs(c.docs, choice.ids, ts), if |ts| == 1 then Matched(c.docs, KeyIs(ts[0].uniqueKey)) else {})
    case Claim(_, _, _) => Tasks(choice.chosen)
    case ClaimBatch(_, _, _, _) => Tasks(choice.chosen)
    case Settle(o, _, _) =>
      var q := Renamed(o, tokens);
      Verdict(MatchedCount(c.docs, LeaseFilter(q.task.id, q.task.leaseToken)) == 1)
    case SettleBatch(os, _, now) => Count(|os| - MatchedMany(c.docs, RenamedAll(os, tokens), now))
    case Extend(k, now, lease) =>
      Until(if MatchedCount(c.docs, LeaseFilter(k.id, tokens[k])) == 1 then Some(now + lease) else None)
    case Requeue(id, _) => Verdict(MatchedCount(c.docs, DeadFilter(id)) == 1)
    case RequeueDead(kind, _) => Count(MatchedCount(c.docs, AllDeadFilter(kind)))
    case Reap(now) => Count(MatchedCount(c.docs, ReapFilter(now)))
  }

  /** What the server may answer to the find of a claim: as many of the matching
      documents as the limit allows, the first in the sort order if there is one. */
  ghost predicate Finds(c: Collection, opts: ClaimOptions, fifo: bool, now: int, k: nat, chosen: set<string>) {
    var found := Matched(c, RunnableFilter(now, opts.kinds, opts.queues));
    && chosen <= found && |chosen| == (if k <= |found| then k else |found|)
    && (fifo ==> forall i <- chosen, j <- found - chosen :: Earlier(Decode(c[i]), Decode(c[j])))
  }

  ghost predicate Allowed(c: Server, op: Op, choice: Choice) {
    && choice.token !in c.used
    && match op
       case Enqueue(ts) =>
         && |choice.ids| == |ts| && (forall id <- choice.ids :: id !in c.docs)
         && (forall i, j :: 0 <= i < j < |ts| ==> choice.ids[i] != choice.ids[j])
       case Claim(opts, fifo, now) => Finds(c.docs, opts, fifo, now, 1, choice.chosen)
       case ClaimBatch(opts, fifo, now, k) => Finds(c.docs, opts, fifo, now, k, choice.chosen)
       case _ => true
  }

  /** Due documents of the wanted types and queues, as many as there are up to
      the limit; under the sort none that is left comes before one that is taken. */
  lemma FindsSay(c: Collection, opts: ClaimOptions, fifo: bool, now: int, k: nat, chosen: set<string>)
    requires Stored(c) && Finds(c, opts, fifo, now, k, chosen)
    ensures var open := set id <- c |
                          && DocIsDue(c[id], now)
                          && (opts.kinds == [] || c[id].kind in opts.kinds)
                          && (opts.queues == [] || c[id].queue in opts.queues);
            && chosen <= open && (|chosen| == k || (|chosen| < k && chosen == open))
            && (fifo ==>
                  forall i <- chosen, j <- open - chosen ::
                    && i in c && j in c
                    && (c[i].runAt < c[j].runAt || (c[i].runAt == c[j].runAt && ComesBefore(i, j))))
  {
    hide Eval, RunnableFilter, Earlier;
    ClaimWriteSays(c, chosen, opts, now, "");
    var open := Matched(c, RunnableFilter(now, opts.kinds, opts.queues));
    if |chosen| < k {
      AllOf(chosen, open);
    }
    forall i <- chosen, j <- open - chosen | fifo
      ensures c[i].runAt < c[j].runAt || (c[i].runAt == c[j].runAt && ComesBefore(i, j))
    {
      OrderSays(Decode(c[i]), Decode(c[j]));
    }
  }

  // ----- It comes to the transitions -----

  lemma {:induction false} InsertsMean(c: Collection, ids: seq<string>, ts: seq<Task>)
    requires Stored(c) && |ids| == |ts| && forall t <- ts :: Fresh(t)
    ensures Stored(InsertDocs(c, ids, ts))
    ensures TasksOf(InsertDocs(c, ids, ts)) == InsertMany(TasksOf(c), ids, ts)
    ensures InsertedDocs(c, ids, ts) == InsertedMany(TasksOf(c), ids, ts)
    decreases |ts|
  {
    hide Encode, Decode, WellFormed, IndexFree, Cluster.KeyFree;
    if ts != [] {
      assert Fresh(ts[0]);
      var t := ts[0].(id := ids[0]);
      var d := Encode(t);
      InsertMeans(c, t);
      InsertsMean(if IndexFree(c, d) then c[ids[0] := d] else c, ids[1..], ts[1..]);
    }
  }

  lemma InsertMeans(c: Collection, t: Task)
    requires Stored(c) && Fresh(t)
    ensures IndexFree(c, Encode(t)) <==> Cluster.KeyFree(TasksOf(c), t.uniqueKey)
    ensures Stored(c[t.id := Encode(t)]) && TasksOf(c[t.id := Encode(t)]) == TasksOf(c)[t.id := t]
  {
    EncodeRoundTrip(t);
    SameIds(c);
  }

  lemma {:induction false} FinalizesMean(c: Collection, os: seq<Outcome>, now: int)
    requires Stored(c)
    ensures Stored(FinalizeMany(c, os, now))
    ensures TasksOf(FinalizeMany(c, os, now)) == FinalizeBatch.FinalizeAll(TasksOf(c), os, now)
    ensures MatchedMany(c, os, now) == FinalizeBatch.MatchedInTurn(TasksOf(c), os, now)
  {
    hide Stored, FinalizeOne, UpdateWhere, MatchedCount, Hits;
    if os != [] {
      var n := |os| - 1;
      FinalizesMean(c, os[..n], now);
      FinalizeWriteMeans(FinalizeMany(c, os[..n], now), os[n], now);
      MatchedCountMeans(FinalizeMany(c, os[..n], now), os[n], now);
    }
  }

  lemma HoldersMean(c: Collection, key: string)
    requires Stored(c)
    ensures Matched(c, KeyIs(key)) == Holders(TasksOf(c), key)
  {
  }

  lemma FindsMean(c: Server, opts: ClaimOptions, fifo: bool, now: int, k: nat, token: string, chosen: set<string>)
    requires Stored(c.docs)
    ensures Finds(c.docs, opts, fifo, now, k, chosen) <==> Picks(TasksOf(c.docs), opts, fifo, now, k, chosen)
  {
    hide Eval, RunnableFilter, Runnable, Matches, Decode, Earlier, Stored;
    ClaimOneWriteMeans(c.docs, chosen, opts, now, token);
    assert Matched(c.docs, RunnableFilter(now, opts.kinds, opts.queues)) == Wanted(TasksOf(c.docs), opts, now);
  }

  /** On a well-formed collection an operation does to the tasks what the
      transitions say, and is answered as they say. */
  lemma ServerMeans(c: Server, op: Op, tokens: map<Key, string>, choice: Choice)
    requires Stored(c.docs) && Proper(op, tokens) && Legal(View(c), op, choice)
    ensures Allowed(c, op, choice)
    ensures Stored(ServerDo(c, op, tokens, choice).docs)
    ensures View(ServerDo(c, op, tokens, choice)) == MongoDo(View(c), op, tokens, choice)
    ensures ServerReply(c, op, tokens, choice) == MongoReply(View(c), op, tokens, choice)
  {
    hide Stored, Fresh, UpdateWhere, UpdateChosen, ReapWhere, TasksOf, ClaimAmong, ExtendHeld, RequeueAmong, ReapAmong,
      FinalizeOne, Hits, Matched, DeadIds, ReapableIds, Holders, Finds, Picks, Held;
    match op {
      case Enqueue(ts) =>
        InsertsMean(c.docs, choice.ids, ts);
        if |ts| == 1 {
          HoldersMean(c.docs, ts[0].uniqueKey);
        }
        SameIds(c.docs);
      case Claim(opts, fifo, now) =>
        FindsMean(c, opts, fifo, now, 1, choice.token, choice.chosen);
        FoundMatch(c.docs, opts, fifo, now, 1, choice.chosen);
        ClaimOneWriteMeans(c.docs, choice.chosen, opts, now, choice.token);
      case ClaimBatch(opts, fifo, now, k) =>
        FindsMean(c, opts, fifo, now, k, choice.token, choice.chosen);
        ClaimWriteMeans(c.docs, choice.chosen, opts, now, choice.token);
      case Settle(o, _, now) =>
        FinalizeWriteMeans(c.docs, Renamed(o, tokens), now);
        MatchedCountMeans(c.docs, Renamed(o, tokens), now);
      case SettleBatch(os, _, now) =>
        FinalizesMean(c.docs, RenamedAll(os, tokens), now);
      case Extend(k, now, lease) =>
        ExtendWriteMeans(c.docs, Key(k.id, tokens[k]), now, lease);
        OneOrNone(c.docs, k.id, tokens[k]);
      case Requeue(id, now) =>
        RequeueWritesMean(c.docs, id, "", now);
        DeadOrNone(TasksOf(c.docs), id);
      case RequeueDead(kind, now) =>
        RequeueWritesMean(c.docs, "", kind, now);
      case Reap(now) =>
        ReapWriteMeans(c.docs, now);
    }
  }

  lemma SameIds(c: Collection)
    ensures TasksOf(c).Keys == c.Keys
  {
  }

  lemma FoundMatch(c: Collection, opts: ClaimOptions, fifo: bool, now: int, k: nat, chosen: set<string>)
    requires Finds(c, opts, fifo, now, k, chosen)
    ensures chosen <= Matched(c, RunnableFilter(now, opts.kinds, opts.queues))
  {
  }

  lemma OneOrNone(c: Collection, id: string, token: string)
    ensures HeldBy(TasksOf(c), Key(id, token)) <==> id in c && Held(Decode(c[id]), token)
    ensures |if HeldBy(TasksOf(c), Key(id, token)) then {id} else {}| == 1 <==> HeldBy(TasksOf(c), Key(id, token))
  {
  }

  lemma DeadOrNone(m: map<string, Task>, id: string)
    ensures |DeadIds(m, "") * {id}| == 1 <==> id in m && m[id].status.Dead?
  {
    assert DeadIds(m, "") * {id} == if id in m && m[id].status.Dead? then {id} else {};
  }

  // ----- Whole runs -----

  /** Both stores, and for every claim handed out the token Mongo gave it. */
  datatype Stores = Stores(mem: MemState, server: Server, tokens: map<Key, string>)

  function AsPair(q: Stores): Pair { Pair(q.mem, View(q.server), q.tokens) }

  const Empty := Stores(MemState(0, map[]), Server(map[], {""}), map[])

  ghost function After(q: Stores, op: Op, token: string): Stores
    requires Proper(op, q.tokens)
  {
    var choice := Matching(q.mem, op, token);
    var m := MemDo(q.mem, op);
    Stores(m, ServerDo(q.server, op, q.tokens, choice), Grown(q.tokens, Issued(m.tasks, choice.chosen), token))
  }

  ghost predicate CanRun(q: Stores, ops: seq<Op>, tokens: seq<string>)
    decreases |ops|
  {
    && |ops| == |tokens|
    && (ops == [] ||
        (Proper(ops[0], q.tokens) && tokens[0] !in q.server.used
         && CanRun(After(q, ops[0], tokens[0]), ops[1..], tokens[1..])))
  }

  ghost function AtEnd(q: Stores, ops: seq<Op>, tokens: seq<string>): Stores
    requires CanRun(q, ops, tokens)
    decreases |ops|
  {
    if ops == [] then q else AtEnd(After(q, ops[0], tokens[0]), ops[1..], tokens[1..])
  }

  /** Mongo may choose so that at every step both stores answer alike. */
  ghost predicate SameAnswers(q: Stores, ops: seq<Op>, tokens: seq<string>)
    requires CanRun(q, ops, tokens)
    decreases |ops|
  {
    ops == [] ||
    (var choice := Matching(q.mem, ops[0], tokens[0]);
     && Allowed(q.server, ops[0], choice)
     && MemReply(q.mem, ops[0]) == ServerReply(q.server, ops[0], q.tokens, choice)
     && SameAnswers(After(q, ops[0], tokens[0]), ops[1..], tokens[1..]))
  }

  ghost predicate Agree(q: Stores) {
    Stored(q.server.docs) && Related(AsPair(q))
  }

  lemma StoresStep(q: Stores, op: Op, token: string)
    requires Agree(q) && Proper(op, q.tokens) && token !in q.server.used
    ensures var choice := Matching(q.mem, op, token);
            Allowed(q.server, op, choice) && MemReply(q.mem, op) == ServerReply(q.server, op, q.tokens, choice)
    ensures Agree(After(q, op, token))
  {
    hide Related, Stored, Legal, Allowed, ServerDo, ServerReply, MongoDo, MongoReply, MemDo, MemReply, Grown,
      Issued;
    StepAgrees(AsPair(q), op, token);
    ServerMeans(q.server, op, q.tokens, Matching(q.mem, op, token));
  }

  lemma {:induction false} RunAgrees(q: Stores, ops: seq<Op>, tokens: seq<string>)
    requires Agree(q) && CanRun(q, ops, tokens)
    ensures SameAnswers(q, ops, tokens) && Agree(AtEnd(q, ops, tokens))
    decreases |ops|
  {
    hide Agree, After, Proper, Allowed, Matching, MemReply, ServerReply;
    if ops != [] {
      StoresStep(q, ops[0], tokens[0]);
      RunAgrees(After(q, ops[0], tokens[0]), ops[1..], tokens[1..]);
    }
  }

  /** From two empty stores, any sequence of operations gets the same answers
      and leaves the same tasks behind. */
  lemma StoresAgree(ops: seq<Op>, tokens: seq<string>)
    requires CanRun(Empty, ops, tokens)
    ensures SameAnswers(Empty, ops, tokens)
    ensures var q := AtEnd(Empty, ops, tokens);
            && q.mem.tasks.Keys == q.server.docs.Keys
            && forall id <- q.mem.tasks ::
                 var t, u := q.mem.tasks[id], Decode(q.server.docs[id]);
                 && t.id == u.id == id && t.queue == u.queue && t.kind == u.kind && t.payload == u.payload
                 && t.status == u.status && t.attempts == u.attempts && t.maxAttempts == u.maxAttempts
                 && t.runAt == u.runAt && t.uniqueKey == u.uniqueKey && t.errors == u.errors && t.result == u.result
                 && t.leasedBy == u.leasedBy && t.createdAt == u.createdAt && t.expiresAt == u.expiresAt
                 && (t.status.Running? ==> t.leasedUntil == u.leasedUntil)
  {
    hide CanRun, SameAnswers, AtEnd, Decode;
    EmptyStoresAgree();
    RunAgrees(Empty, ops, tokens);
    var q := AtEnd(Empty, ops, tokens);
    SameTasks(AsPair(q));
    forall id <- q.mem.tasks ensures Linked(id, q.mem.tasks[id], Decode(q.server.docs[id]), q.tokens) {
      LinkOf(AsPair(q), id);
    }
  }

  /** What a client may ask for next: any tasks as the manager makes them, a
      unique key alone; claims under a lease that is not negative; settling or
      extending claims it was given; requeues and reaps as it likes. */
  lemma {:induction false} RunsGoOn(q: Stores, ops: seq<Op>, tokens: seq<string>, op: Op, token: string)
    requires CanRun(q, ops, tokens) && token !in AtEnd(q, ops, tokens).server.used
    requires var given := AtEnd(q, ops, tokens).tokens;
             match op
             case Enqueue(ts) => (forall t <- ts :: Fresh(t)) && (|ts| <= 1 || forall t <- ts :: t.uniqueKey == "")
             case Claim(opts, _, _) => opts.lease >= 0
             case ClaimBatch(opts, _, _, _) => opts.lease >= 0
             case Settle(o, _, _) => KeyOf(o.task) in given
             case SettleBatch(os, nows, _) => |os| == |nows| && forall o <- os :: KeyOf(o.task) in given
             case Extend(k, _, _) => k in given
             case _ => true
    ensures CanRun(q, ops + [op], tokens + [token])
    ensures AtEnd(q, ops + [op], tokens + [token]) == After(AtEnd(q, ops, tokens), op, token)
    decreases |ops|
  {
    hide After, Fresh;
    if ops == [] {
      assert [op][1..] == [] && [token][1..] == [] && [] + [op] == [op] && [] + [token] == [token];
      assert CanRun(After(q, op, token), [], []) && AtEnd(After(q, op, token), [], []) == After(q, op, token);
    } else {
      assert (ops + [op])[1..] == ops[1..] + [op] && (tokens + [token])[1..] == tokens[1..] + [token];
      RunsGoOn(After(q, ops[0], tokens[0]), ops[1..], tokens[1..], op, token);
    }
  }

  /** What that means for each of them: after the operations before it, the two
      stores answer it alike, by a choice Mongo may make. */
  lemma {:induction false} EachAnswerIsTheSame(q: Stores, ops: seq<Op>, tokens: seq<string>, i: nat)
    requires CanRun(q, ops, tokens) && SameAnswers(q, ops, tokens) && i < |ops|
    ensures CanRun(q, ops[..i], tokens[..i])
    ensures var p := AtEnd(q, ops[..i], tokens[..i]);
            && Proper(ops[i], p.tokens)
            && var choice := Matching(p.mem, ops[i], tokens[i]);
               Allowed(p.server, ops[i], choice)
               && MemReply(p.mem, ops[i]) == ServerReply(p.server, ops[i], p.tokens, choice)
    decreases i
  {
    hide After, Proper, Allowed, Matching, MemReply, ServerReply;
    if i > 0 {
      EachAnswerIsTheSame(After(q, ops[0], tokens[0]), ops[1..], tokens[1..], i - 1);
      assert ops[..i][1..] == ops[1..][..i - 1] && tokens[..i][1..] == tokens[1..][..i - 1];
    }
  }

  lemma EmptyStoresAgree()
    ensures Agree(Empty)
  {
  }
}
