/** Chains of waiting tasks: what "directly or through a chain" means, and the
    priority rule it leads to. */
module WaitChains {
  import opened Common
  import opened TaskState
  import opened ChangePriority
  import opened QueueOrder
  import opened Inheritance
  import opened PriSemExact

  /** u waits for v through at most k semaphores. */
  predicate ReachesIn(st: State, u: nat, v: nat, k: nat)
    requires Typed(st) && u < |st.tcb|
    decreases k
  {
    u == v || (k > 0 && Next(st, u).Some? && ReachesIn(st, Next(st, u).value, v, k - 1))
  }

  /** u is v, or u waits for v directly or through a chain. */
  ghost predicate Reaches(st: State, u: nat, v: nat)
    requires Typed(st) && u < |st.tcb|
  {
    exists k: nat :: ReachesIn(st, u, v, k)
  }

  lemma ReachesStep(st: State, u: nat, v: nat)
    requires Typed(st) && u < |st.tcb| && Next(st, u).Some? && Reaches(st, Next(st, u).value, v)
    ensures Reaches(st, u, v)
  {
    var k: nat :| ReachesIn(st, Next(st, u).value, v, k);
    assert ReachesIn(st, u, v, k + 1);
  }

  lemma {:induction false} ReachesExtend(st: State, u: nat, v: nat, k: nat)
    requires Typed(st) && u < |st.tcb| && v < |st.tcb| && Next(st, v).Some? && ReachesIn(st, u, v, k)
    ensures ReachesIn(st, u, Next(st, v).value, k + 1)
    decreases k
  {
    if u == v {
      assert ReachesIn(st, Next(st, v).value, Next(st, v).value, k);
    } else {
      ReachesExtend(st, Next(st, u).value, v, k - 1);
    }
  }

  // ---------- joining a queue without closing a cycle ----------

  /** Ranks that put t, and all that waits behind t, after h. */
  ghost function JoinRank(st: State, rank: seq<nat>, h: nat, t: nat): (rank': seq<nat>)
    requires Typed(st) && |rank| == |st.tcb| && h < |st.tcb|
    ensures |rank'| == |rank|
  {
    seq(|rank|, x requires 0 <= x < |st.tcb| && |rank| == |st.tcb| && h < |rank| && Typed(st) =>
      if Reaches(st, x, t) then rank[x] + rank[h] + 1 else rank[x])
  }

  lemma JoinRanked(st: State, rank: seq<nat>, h: nat, t: nat)
    requires Typed(st) && Ranked(st, rank) && h < |st.tcb| && t < |st.tcb| && !Reaches(st, h, t)
    ensures Ranked(st, JoinRank(st, rank, h, t))
    ensures JoinRank(st, rank, h, t)[h] < JoinRank(st, rank, h, t)[t]
  {
    var rank' := JoinRank(st, rank, h, t);
    forall u | 0 <= u < |st.tcb| && Next(st, u).Some? ensures rank'[Next(st, u).value] < rank'[u] {
      if Reaches(st, Next(st, u).value, t) {
        ReachesStep(st, u, t);
      }
    }
    assert ReachesIn(st, t, t, 0);
  }

  /** The rank is a termination witness only: it has no influence on the result. */
  lemma {:induction false} ChangeRank(st: State, t: nat, p: nat, rank1: seq<nat>, rank2: seq<nat>)
    requires Typed(st) && t < |st.tcb| && p < |st.ready|
    requires p < st.tcb[t].priority || (Ranked(st, rank1) && Ranked(st, rank2))
    ensures Change(st, t, p, rank1) == Change(st, t, p, rank2)
    decreases if p < st.tcb[t].priority then 0 else 1,
              if p < st.tcb[t].priority then LessUrgent(st.tcb, p) else rank1[t]
  {
    match Follow(st, t, p)
    case None =>
    case Some((h, v)) =>
      ChangeOwnFacts(st, t, p);
      FollowFalls(st, t, p, rank1);
      FollowFalls(st, t, p, rank2);
      ChangeRank(ChangeOwn(st, t, p), h, v, rank1, rank2);
  }

  // ---------- the rule over whole chains ----------

  /** No task is less urgent than any task that waits for it, directly or through a chain. */
  lemma {:induction false} ChainBound(st: State, w: nat, t: nat, k: nat)
    requires Sound(st, {}) && InheritsAll(st, {}, {}) && w < |st.tcb| && t < |st.tcb|
    requires ReachesIn(st, w, t, k)
    ensures st.tcb[t].priority <= st.tcb[w].priority
    decreases k
  {
    if w != t {
      var u := Next(st, w).value;
      ChainBound(st, u, t, k - 1);
      assert Placed(st.tcb[w]);
      assert WaitsVia(st, w, u, st.tcb[w].wspec.o);
      assert Inherits(st, u, st.tcb[u].priority, {});
    }
  }

  /** The task a priority is inherited from. */
  lemma {:induction false} ChainSource(st: State, t: nat, rank: seq<nat>, top: nat) returns (w: nat, k: nat)
    requires Sound(st, {}) && InheritsAll(st, {}, {}) && Ranked(st, rank) && t < |st.tcb|
    requires forall u :: 0 <= u < |rank| ==> rank[u] <= top
    ensures w < |st.tcb| && ReachesIn(st, w, t, k) && st.tcb[t].priority == st.tcb[w].ipriority
    decreases top - rank[t]
  {
    if st.tcb[t].priority == st.tcb[t].ipriority {
      w, k := t, 0;
    } else {
      assert Inherits(st, t, st.tcb[t].priority, {});
      var x: nat, o: nat :| WaitsVia(st, x, t, o) && st.tcb[t].priority == st.tcb[x].priority;
      WaitsNext(st, x, t, o, {});
      w, k := ChainSource(st, x, rank, top);
      ReachesExtend(st, w, x, k);
      k := k + 1;
    }
  }

  lemma {:induction false} TopRank(rank: seq<nat>) returns (top: nat)
    ensures forall u :: 0 <= u < |rank| ==> rank[u] <= top
  {
    if rank == [] {
      top := 0;
    } else {
      var t := TopRank(rank[1..]);
      top := if t > rank[0] then t else rank[0];
      forall u | 0 <= u < |rank| ensures rank[u] <= top {
        if u > 0 {
          assert rank[u] == rank[1..][u - 1];
        }
      }
    }
  }

  /** p is the most urgent initial priority among t and everything t blocks. */
  ghost predicate MostUrgentBlocked(st: State, t: nat, p: nat)
    requires Typed(st) && t < |st.tcb|
  {
    && (forall w: nat :: w < |st.tcb| && Reaches(st, w, t) ==> p <= st.tcb[w].ipriority)
    && (exists w: nat :: w < |st.tcb| && Reaches(st, w, t) && p == st.tcb[w].ipriority)
  }

  /** When every task has its inherited priority and no chain closes on itself, every task runs at
      the most urgent initial priority of all the tasks it blocks, over chains of any length. */
  lemma PriorityOverChains(st: State, t: nat, rank: seq<nat>)
    requires Sound(st, {}) && InheritsAll(st, {}, {}) && Ranked(st, rank) && t < |st.tcb|
    ensures MostUrgentBlocked(st, t, st.tcb[t].priority)
  {
    forall w: nat | w < |st.tcb| && Reaches(st, w, t) ensures st.tcb[t].priority <= st.tcb[w].ipriority {
      var k: nat :| ReachesIn(st, w, t, k);
      ChainBound(st, w, t, k);
      assert Inherits(st, w, st.tcb[w].priority, {});
    }
    var top := TopRank(rank);
    var w, k := ChainSource(st, t, rank, top);
    assert Reaches(st, w, t);
  }
}
