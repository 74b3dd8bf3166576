/** When a batch of the in-memory store takes a task twice. */
module NegativeLease {
  import opened Tasks
  import opened Lifecycle
  import opened MemSpec

  ghost predicate DistinctTasks(out: seq<Task>) {
    forall i, j :: 0 <= i < j < |out| ==> out[i].id != out[j].id
  }

  /** The wanted tasks that come before this one. */
  ghost function Ahead(m: map<string, Task>, wanted: set<string>, id: string): set<string>
    requires wanted <= m.Keys && id in m
  {
    set j <- wanted | Earlier(m[j], m[id])
  }

  /** The first `k - 1` wanted tasks are on their last attempt. */
  ghost predicate LastAttempts(m: map<string, Task>, wanted: set<string>, k: int)
    requires wanted <= m.Keys
  {
    forall id <- wanted | |Ahead(m, wanted, id)| < k - 1 :: m[id].attempts + 1 >= m[id].maxAttempts
  }

  lemma {:induction false} DistinctByIds(out: seq<Task>)
    ensures |Ids(out)| <= |out|
    ensures |Ids(out)| == |out| ==> DistinctTasks(out)
    decreases |out|
  {
    if out == [] {
      NoIds();
    } else {
      var head, rest := out[0], out[1..];
      DistinctByIds(rest);
      assert out == [head] + rest;
      IdsOf(head, rest);
      hide Ids;
      if |Ids(out)| == |out| {
        assert head.id in Ids(rest) ==> Ids(out) == Ids(rest);
        IdsAreTheirs(rest);
        DistinctCons(head, rest);
      }
    }
  }

  lemma IdsAreTheirs(out: seq<Task>)
    ensures forall i :: 0 <= i < |out| ==> out[i].id in Ids(out)
  {
  }

  lemma DistinctCons(t: Task, rest: seq<Task>)
    requires t.id !in Ids(rest)
    ensures DistinctTasks([t] + rest) <==> DistinctTasks(rest)
  {
    var out := [t] + rest;
    IdsAreTheirs(rest);
    assert forall i :: 0 <= i < |rest| ==> out[i + 1] == rest[i];
    if DistinctTasks(rest) {
      forall i, j | 0 <= i < j < |out| ensures out[i].id != out[j].id {
        assert out[j] == rest[j - 1];
        if i > 0 {
          assert out[i] == rest[i - 1];
        }
      }
    }
    if DistinctTasks(out) {
      forall i, j | 0 <= i < j < |rest| ensures rest[i].id != rest[j].id {
        assert out[i + 1] == rest[i] && out[j + 1] == rest[j];
      }
    }
  }

  /** Under a negative lease a claim leaves the menu as it is, unless it was the last attempt. */
  lemma NegativeClaim(s: MemState, opts: ClaimOptions, now: int, id: string)
    requires Minted(s) && opts.lease < 0 && id in Wanted(s.tasks, opts, now)
    ensures var m, s1 := s.tasks, ClaimIt(s, id, opts, now);
            && Minted(s1) && s1.tasks.Keys == m.Keys
            && Wanted(s1.tasks, opts, now)
               == Wanted(m, opts, now) - (if m[id].attempts + 1 < m[id].maxAttempts then {} else {id})
            && (forall j <- m :: s1.tasks[j].id == m[j].id && s1.tasks[j].runAt == m[j].runAt)
            && (forall j <- m | j != id :: s1.tasks[j] == m[j])
  {
    ClaimKeepsMinted(s, id, opts, now);
    OwnIdsOf(s);
    OwnIdsOf(ClaimIt(s, id, opts, now));
  }

  lemma OwnIdsOf(s: MemState)
    requires Minted(s)
    ensures forall id <- s.tasks :: s.tasks[id].id == id
  {
  }

  /** A batch takes only tasks that were wanted when it began. */
  lemma {:induction false} RoundsTakeWanted(s: MemState, opts: ClaimOptions, now: int, k: nat)
    requires Minted(s) && opts.lease < 0
    ensures Ids(ClaimRounds(s, opts, now, k).1) <= Wanted(s.tasks, opts, now)
    decreases k
  {
    hide Minted, Wanted, First, Claimed, IsFirst, Ids, Earlier;
    NextRound(s, opts, now);
    NoIds();
    if k > 0 && First(s.tasks, opts, now).Some? {
      var id := First(s.tasks, opts, now).value;
      var s1 := ClaimIt(s, id, opts, now);
      NegativeClaim(s, opts, now, id);
      OwnIdsOf(s1);
      RoundsTakeWanted(s1, opts, now, k - 1);
      IdsOf(s1.tasks[id], ClaimRounds(s1, opts, now, k - 1).1);
    }
  }

  lemma AheadOfFirst(m: map<string, Task>, opts: ClaimOptions, now: int, id: string)
    requires (forall j <- m :: m[j].id == j) && IsFirst(m, opts, now, id)
    ensures Wanted(m, opts, now) <= m.Keys && Ahead(m, Wanted(m, opts, now), id) == {}
  {
    forall j <- Wanted(m, opts, now) ensures !Earlier(m[j], m[id]) {
      EarlierIsStrictOrder(m[j], m[id], m[id]);
      EarlierIsStrictOrder(m[id], m[j], m[j]);
    }
  }

  /** With the first wanted task gone, every other one has one fewer ahead of it. */
  lemma AheadWithout(m: map<string, Task>, m1: map<string, Task>, opts: ClaimOptions, now: int, id: string, j: string)
    requires (forall i <- m :: m[i].id == i) && IsFirst(m, opts, now, id) && m1.Keys == m.Keys
    requires forall i <- m | i != id :: m1[i] == m[i]
    requires j in Wanted(m, opts, now) && j != id
    ensures Wanted(m, opts, now) <= m.Keys
    ensures |Ahead(m, Wanted(m, opts, now), j)| == |Ahead(m1, Wanted(m, opts, now) - {id}, j)| + 1
  {
    var wanted := Wanted(m, opts, now);
    hide Earlier;
    assert Ahead(m, wanted, j) == Ahead(m1, wanted - {id}, j) + {id};
  }

  /** Taking the first wanted task off: the next `k - 2` must be on their last attempt, too. */
  lemma LastAttemptsGoOn(m: map<string, Task>, m1: map<string, Task>, opts: ClaimOptions, now: int, id: string, k: nat)
    requires (forall i <- m :: m[i].id == i) && IsFirst(m, opts, now, id) && m1.Keys == m.Keys
    requires (forall i <- m | i != id :: m1[i] == m[i]) && m[id].attempts + 1 >= m[id].maxAttempts && k > 0
    ensures Wanted(m, opts, now) <= m.Keys
    ensures LastAttempts(m, Wanted(m, opts, now), k) <==> LastAttempts(m1, Wanted(m, opts, now) - {id}, k - 1)
  {
    var wanted := Wanted(m, opts, now);
    forall j <- wanted | j != id ensures |Ahead(m, wanted, j)| == |Ahead(m1, wanted - {id}, j)| + 1 {
      AheadWithout(m, m1, opts, now, id, j);
    }
    hide Ahead, IsFirst;
  }

  lemma RoundOf(s: MemState, opts: ClaimOptions, now: int, k: nat, id: string)
    requires k > 0 && id in s.tasks && First(s.tasks, opts, now) == Some(id)
    ensures var s1 := ClaimIt(s, id, opts, now);
            ClaimRounds(s, opts, now, k).1 == [s1.tasks[id]] + ClaimRounds(s1, opts, now, k - 1).1
  {
    hide First, ClaimIt;
  }

  lemma FirstAgain(s: MemState, opts: ClaimOptions, now: int, id: string)
    requires Minted(s) && opts.lease < 0 && IsFirst(s.tasks, opts, now, id)
    requires s.tasks[id].attempts + 1 < s.tasks[id].maxAttempts
    ensures var s1 := ClaimIt(s, id, opts, now);
            Minted(s1) && First(s.tasks, opts, now) == First(s1.tasks, opts, now) == Some(id)
  {
    hide Minted, First, Claimed;
    var s1 := ClaimIt(s, id, opts, now);
    assert id in Wanted(s.tasks, opts, now);
    NegativeClaim(s, opts, now, id);
    OwnIdsOf(s);
    OwnIdsOf(s1);
    hide Earlier, WantedAndRunnable, ClaimIt;
    FirstStaysFirst(s.tasks, s1.tasks, opts, now, id);
    FirstIsFirst(s.tasks, opts, now);
    FirstIsFirst(s1.tasks, opts, now);
  }

  /** A task with attempts to spare is at once taken again. */
  lemma TwoRounds(s: MemState, opts: ClaimOptions, now: int, k: nat, id: string)
    requires Minted(s) && opts.lease < 0 && k >= 2 && IsFirst(s.tasks, opts, now, id)
    requires s.tasks[id].attempts + 1 < s.tasks[id].maxAttempts
    ensures !DistinctTasks(ClaimRounds(s, opts, now, k).1)
    ensures Wanted(s.tasks, opts, now) <= s.tasks.Keys && !LastAttempts(s.tasks, Wanted(s.tasks, opts, now), k)
  {
    hide Minted, First, Claimed, ClaimRounds, Ahead, Earlier;
    var s1 := ClaimIt(s, id, opts, now);
    FirstAgain(s, opts, now, id);
    OwnIdsOf(s);
    AheadOfFirst(s.tasks, opts, now, id);
    RoundOf(s, opts, now, k, id);
    RoundOf(s1, opts, now, k - 1, id);
    ClaimKeepsMinted(s1, id, opts, now);
    OwnIdsOf(s1);
    OwnIdsOf(ClaimIt(s1, id, opts, now));
    var out := ClaimRounds(s, opts, now, k).1;
    assert out[0].id == id && out[1].id == id;
  }

  lemma FirstStaysFirst(m: map<string, Task>, m1: map<string, Task>, opts: ClaimOptions, now: int, id: string)
    requires IsFirst(m, opts, now, id) && m1.Keys == m.Keys && Wanted(m1, opts, now) == Wanted(m, opts, now)
    requires forall j <- m :: m1[j].id == m[j].id && m1[j].runAt == m[j].runAt
    ensures IsFirst(m1, opts, now, id)
  {
    assert forall j <- m :: j in Wanted(m, opts, now) <==> j in Wanted(m1, opts, now);
  }

  lemma {:induction false} NegativeLeaseTakesTwice(s: MemState, opts: ClaimOptions, now: int, k: nat)
    requires Minted(s) && opts.lease < 0
    ensures Wanted(s.tasks, opts, now) <= s.tasks.Keys
    ensures DistinctTasks(ClaimRounds(s, opts, now, k).1) <==> LastAttempts(s.tasks, Wanted(s.tasks, opts, now), k)
    decreases k
  {
    hide Minted, Wanted, First, Claimed, IsFirst, Ids, Earlier, Ahead;
    WantedIsThere(s.tasks, opts, now);
    NextRound(s, opts, now);
    if k > 0 && First(s.tasks, opts, now).Some? {
      var id := First(s.tasks, opts, now).value;
      var s1 := ClaimIt(s, id, opts, now);
      NegativeClaim(s, opts, now, id);
      OwnIdsOf(s);
      OwnIdsOf(s1);
      var rest := ClaimRounds(s1, opts, now, k - 1).1;
      assert ClaimRounds(s, opts, now, k).1 == [s1.tasks[id]] + rest;
      if s.tasks[id].attempts + 1 >= s.tasks[id].maxAttempts {
        RoundsTakeWanted(s1, opts, now, k - 1);
        DistinctCons(s1.tasks[id], rest);
        NegativeLeaseTakesTwice(s1, opts, now, k - 1);
        LastAttemptsGoOn(s.tasks, s1.tasks, opts, now, id, k);
      } else if k >= 2 {
        TwoRounds(s, opts, now, k, id);
      } else {
        assert rest == [];
      }
    }
  }

  lemma WantedIsThere(m: map<string, Task>, opts: ClaimOptions, now: int)
    ensures Wanted(m, opts, now) <= m.Keys
  {
  }

  /** A batch of `k` takes no task twice if and only if its lease is not negative,
      or all but the last of the tasks it may take are on their last attempt. */
  lemma BatchIsDistinctIff(s: MemState, opts: ClaimOptions, now: int, k: nat)
    requires Minted(s)
    ensures Wanted(s.tasks, opts, now) <= s.tasks.Keys
    ensures DistinctTasks(ClaimRounds(s, opts, now, k).1)
            <==> opts.lease >= 0 || LastAttempts(s.tasks, Wanted(s.tasks, opts, now), k)
  {
    hide Minted, Wanted, ClaimRounds, DistinctTasks, LastAttempts, ClaimedOnce, FirstOf;
    WantedIsThere(s.tasks, opts, now);
    if opts.lease >= 0 {
      var out := ClaimRounds(s, opts, now, k).1;
      RoundsTakeTheFirst(s, opts, now, k);
      FirstOfTakesTheEarliest(s.tasks, Wanted(s.tasks, opts, now), k, out);
      DistinctByIds(out);
    } else {
      NegativeLeaseTakesTwice(s, opts, now, k);
    }
  }

  /** So a lone runnable task with attempts to spare is taken twice by a batch
      of two under a negative lease, which the manager never passes. */
  lemma NegativeLeaseClaimsTwice(s: MemState, opts: ClaimOptions, now: int, id: string)
    requires Minted(s) && s.tasks.Keys == {id} && WantedAndRunnable(opts, now, s.tasks[id])
    requires opts.lease < 0 && s.tasks[id].attempts + 1 < s.tasks[id].maxAttempts
    ensures var out := ClaimRounds(s, opts, now, 2).1;
            |out| == 2 && out[0].id == out[1].id == id
  {
    var s1 := ClaimIt(s, id, opts, now);
    assert IsFirst(s.tasks, opts, now, id) && IsFirst(s1.tasks, opts, now, id);
    FirstIsFirst(s.tasks, opts, now);
    FirstIsFirst(s1.tasks, opts, now);
    assert ClaimRounds(s1, opts, now, 1).1[0].id == id;
  }
}
