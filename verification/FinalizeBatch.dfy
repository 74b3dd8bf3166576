/** FinalizeBatch: many fenced writes as one unordered bulk write.  The server
    may apply the entries in any order it likes; the result is the same. */
module FinalizeBatch {
  import opened Tasks
  import opened Lifecycle
  import opened MongoDocs

  datatype Model = Model(filter: Filter, update: Update)

  function ModelOf(o: Outcome, now: int): Model {
    Model(LeaseFilter(o.task.id, o.task.leaseToken), FinalizeUpdate(o, now))
  }

  /** The batch on tasks, in a given order. */
  function FinalizeAll(m: map<string, Task>, os: seq<Outcome>, now: int): map<string, Task> {
    if os == [] then m else FinalizeOne(FinalizeAll(m, os[..|os| - 1], now), os[|os| - 1], now)
  }

  /** How many entries find their task still theirs when their turn comes. */
  function MatchedInTurn(m: map<string, Task>, os: seq<Outcome>, now: int): (n: nat)
    ensures n <= |os|
  {
    if os == [] then 0
    else
      var n := |os| - 1;
      MatchedInTurn(m, os[..n], now) + if Hits(FinalizeAll(m, os[..n], now), os[n]) then 1 else 0
  }

  /** One outcome per claim. */
  ghost predicate Distinct(os: seq<Outcome>) {
    forall i, j :: 0 <= i < j < |os| ==> KeyOf(os[i].task) != KeyOf(os[j].task)
  }

  ghost function Keys(os: seq<Outcome>): set<Key> { set o <- os :: KeyOf(o.task) }

  /** The tasks that an entry of the batch holds before anything is written. */
  ghost function HitIds(m: map<string, Task>, os: seq<Outcome>): set<string> {
    set id <- m | exists o <- os :: o.task.id == id && Hits(m, o)
  }

  lemma KeysOfMore(os: seq<Outcome>, o: Outcome)
    ensures Keys(os + [o]) == Keys(os) + {KeyOf(o.task)}
  {
    forall p <- os ensures p in os + [o] {}
    assert o in os + [o];
  }

  lemma DistinctMore(os: seq<Outcome>, o: Outcome)
    ensures Distinct(os + [o]) <==> Distinct(os) && KeyOf(o.task) !in Keys(os)
  {
    var more := os + [o];
    if Distinct(more) {
      forall i, j | 0 <= i < j < |os| ensures KeyOf(os[i].task) != KeyOf(os[j].task) {
        assert more[i] == os[i] && more[j] == os[j];
      }
      forall p <- os ensures KeyOf(p.task) != KeyOf(o.task) {
        var i :| 0 <= i < |os| && os[i] == p;
        assert more[i] == p && more[|os|] == o;
      }
    } else {
      var i, j :| 0 <= i < j < |more| && KeyOf(more[i].task) == KeyOf(more[j].task);
      assert more[i] == os[i];
      if j < |os| {
        assert more[j] == os[j];
      } else {
        assert os[i] in os;
      }
    }
  }

  lemma {:induction false} DistinctByCount(os: seq<Outcome>)
    ensures |Keys(os)| <= |os|
    ensures Distinct(os) <==> |Keys(os)| == |os|
  {
    if os == [] {
      assert Keys(os) == {};
    } else {
      hide Distinct, Keys;
      var n := |os| - 1;
      assert os == os[..n] + [os[n]];
      DistinctByCount(os[..n]);
      KeysOfMore(os[..n], os[n]);
      DistinctMore(os[..n], os[n]);
    }
  }

  /** The outcome of the whole batch, read off the start state. */
  ghost predicate Settled(m: map<string, Task>, os: seq<Outcome>, now: int, r: map<string, Task>) {
    && r.Keys == m.Keys
    && (forall o <- os | Hits(m, o) ::
          r[o.task.id] == Finalized(m[o.task.id], o, now) && IsReport(m[o.task.id], r[o.task.id], o, now))
    && (forall id <- m | id !in HitIds(m, os) :: r[id] == m[id])
  }

  /** An entry is matched in its turn exactly if it was matched at the start:
      no other entry of the batch carries its claim, and a task that another
      entry settled was under that entry's token, not this one's. */
  lemma TurnDoesNotMatter(m: map<string, Task>, pre: seq<Outcome>, now: int, r: map<string, Task>, o: Outcome)
    requires Settled(m, pre, now, r) && KeyOf(o.task) !in Keys(pre)
    ensures Hits(r, o) <==> Hits(m, o)
    ensures Hits(m, o) ==> o.task.id !in HitIds(m, pre)
  {
    if o.task.id in HitIds(m, pre) {
      var p :| p in pre && p.task.id == o.task.id && Hits(m, p);
      assert KeyOf(p.task) in Keys(pre);
    }
  }

  lemma HitIdsMore(m: map<string, Task>, pre: seq<Outcome>, o: Outcome)
    ensures HitIds(m, pre + [o]) == HitIds(m, pre) + if Hits(m, o) then {o.task.id} else {}
  {
    forall p <- pre ensures p in pre + [o] {}
    assert o in pre + [o];
  }

  lemma SettleOneMore(m: map<string, Task>, pre: seq<Outcome>, now: int, r: map<string, Task>, o: Outcome)
    requires Settled(m, pre, now, r) && KeyOf(o.task) !in Keys(pre)
    ensures Settled(m, pre + [o], now, FinalizeOne(r, o, now))
  {
    hide Finalized, IsReport;
    var u := FinalizeOne(r, o, now);
    TurnDoesNotMatter(m, pre, now, r, o);
    HitIdsMore(m, pre, o);
    forall p <- pre + [o] | Hits(m, p)
      ensures u[p.task.id] == Finalized(m[p.task.id], p, now) && IsReport(m[p.task.id], u[p.task.id], p, now)
    {
      TransitionsKeepTheirWord(m[p.task.id], p, now, "", "", 0);
      if p in pre {
        assert p.task.id in HitIds(m, pre);
      }
    }
    forall id <- m | id !in HitIds(m, pre + [o]) ensures u[id] == m[id] {}
  }

  lemma {:induction false} BatchSettles(m: map<string, Task>, os: seq<Outcome>, now: int)
    requires Distinct(os)
    ensures Settled(m, os, now, FinalizeAll(m, os, now))
    ensures MatchedInTurn(m, os, now) == |HitIds(m, os)|
  {
    if os == [] {
      assert HitIds(m, os) == {};
    } else {
      hide Finalized, IsReport, Held, Settled, Hits, HitIds;
      var n := |os| - 1;
      var o, pre := os[n], os[..n];
      assert os == pre + [o];
      DistinctMore(pre, o);
      BatchSettles(m, pre, now);
      HitIdsMore(m, pre, o);
      TurnDoesNotMatter(m, pre, now, FinalizeAll(m, pre, now), o);
      SettleOneMore(m, pre, now, FinalizeAll(m, pre, now), o);
    }
  }

  lemma ReorderedBatch(os: seq<Outcome>, qs: seq<Outcome>)
    requires multiset(os) == multiset(qs) && Distinct(os)
    ensures forall o :: o in os <==> o in qs
    ensures Distinct(qs)
  {
    forall o ensures o in os <==> o in qs {
      assert o in os <==> o in multiset(os);
      assert o in qs <==> o in multiset(qs);
    }
    assert |os| == |multiset(os)| == |multiset(qs)| == |qs|;
    assert Keys(os) == Keys(qs);
    hide Distinct, Keys;
    DistinctByCount(os);
    DistinctByCount(qs);
  }

  lemma SettledIsUnique(m: map<string, Task>, os: seq<Outcome>, qs: seq<Outcome>, now: int, r: map<string, Task>,
        q: map<string, Task>)
    requires Settled(m, os, now, r) && Settled(m, qs, now, q)
    requires forall o :: o in os <==> o in qs
    ensures HitIds(m, os) == HitIds(m, qs) && r == q
  {
    hide Finalized, IsReport, Hits;
    assert HitIds(m, os) == HitIds(m, qs);
    forall id <- m ensures r[id] == q[id] {
      if id in HitIds(m, os) {
        var o :| o in os && o.task.id == id && Hits(m, o);
      }
    }
  }

  /** Every order of the same entries leaves the same tasks and matches the same number. */
  lemma OrderDoesNotMatter(m: map<string, Task>, os: seq<Outcome>, qs: seq<Outcome>, now: int)
    requires multiset(os) == multiset(qs) && Distinct(os)
    ensures FinalizeAll(m, os, now) == FinalizeAll(m, qs, now)
    ensures MatchedInTurn(m, os, now) == MatchedInTurn(m, qs, now)
  {
    ReorderedBatch(os, qs);
    hide Settled, Distinct, HitIds, Hits;
    BatchSettles(m, os, now);
    BatchSettles(m, qs, now);
    SettledIsUnique(m, os, qs, now, FinalizeAll(m, os, now), FinalizeAll(m, qs, now));
  }

  /** The store's FinalizeBatch; `served` is the order the server chooses. */
  method Run(c: Collection, outcomes: seq<Outcome>, now: int, served: seq<Outcome>)
    returns (after: Collection, lost: int)
    requires Stored(c) && Distinct(outcomes) && multiset(served) == multiset(outcomes)
    ensures Stored(after) && Settled(TasksOf(c), outcomes, now, TasksOf(after))
    ensures lost == |outcomes| - |HitIds(TasksOf(c), outcomes)|
  {
    after, lost := c, 0;
    if |outcomes| == 0 {
      assert served == [] by { assert |served| == |multiset(served)|; }
      BatchSettles(TasksOf(c), outcomes, now);
      return;
    }
    var models: seq<Model> := [];
    for i := 0 to |served|
      invariant |models| == i && forall j :: 0 <= j < i ==> models[j] == ModelOf(served[j], now)
    {
      models := models + [ModelOf(served[i], now)];
    }
    var matched := 0;
    for i := 0 to |models|
      invariant Stored(after) && TasksOf(after) == FinalizeAll(TasksOf(c), served[..i], now)
      invariant matched == MatchedInTurn(TasksOf(c), served[..i], now)
    {
      FinalizeWriteMeans(after, served[i], now);
      MatchedCountMeans(after, served[i], now);
      assert served[..i + 1][..i] == served[..i];
      matched := matched + MatchedCount(after, models[i].filter);
      after := UpdateWhere(after, models[i].filter, models[i].update);
    }
    assert served[..|served|] == served;
    OrderDoesNotMatter(TasksOf(c), outcomes, served, now);
    BatchSettles(TasksOf(c), outcomes, now);
    lost := |outcomes| - matched;
  }
}
