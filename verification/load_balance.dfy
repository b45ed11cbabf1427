/** Newly idle load balancing over the run queues of all CPUs, with atomic rounds. */
module LoadBalance {
  import opened Common
  import opened RunQueue

  const MAX_TASKS_TO_LOAD_BALANCE := 32

  type System = seq<Rq>

  /** FindBusiestQueue: the first of the longest run queues. */
  method FindBusiestQueue(sys: System) returns (busiest: nat)
    requires sys != []
    ensures busiest < |sys|
    ensures forall i :: 0 <= i < |sys| ==> |sys[i].q| <= |sys[busiest].q|
    ensures forall i :: 0 <= i < busiest ==> |sys[i].q| < |sys[busiest].q|
  {
    var longest := 0;
    busiest := 0;
    for i := 0 to |sys|
      invariant busiest < |sys|
      invariant longest == |sys[busiest].q| || (longest == 0 && busiest == 0 && i == 0)
      invariant longest == 0 ==> busiest == 0
      invariant longest > 0 ==> longest == |sys[busiest].q|
      invariant forall j :: 0 <= j < i ==> |sys[j].q| <= longest
      invariant forall j :: 0 <= j < busiest ==> |sys[j].q| < longest
    {
      if |sys[i].q| > longest {
        longest := |sys[i].q|;
        busiest := i;
      }
    }
  }

  /** CalculateImbalance: up to half of what the source has more, at most 32. */
  function Imbalance(src: nat, dst: nat): nat {
    if src - dst >= 2 then Min(MAX_TASKS_TO_LOAD_BALANCE, (src - dst) / 2) else 0
  }

  /** CfsRq::AttachTasks. */
  function Attach(r: Rq, tasks: seq<Ent>): Rq
    decreases tasks
  {
    if tasks == [] then r else Attach(Enqueue(r, tasks[0]), tasks[1..])
  }

  /** One LoadBalance of CPU dst against CPU src; elig are the tasks that may go to dst. */
  function Round(sys: System, src: nat, dst: nat, elig: set<int>): System
    requires src < |sys| && dst < |sys|
  {
    var n := Imbalance(|sys[src].q|, |sys[dst].q|);
    var (kept, taken) := Detach([], sys[src].q, elig, n);
    sys[src := sys[src].(q := kept)][dst := Attach(sys[dst], taken)]
  }

  predicate InSystem(sys: System, addr: int) {
    exists i :: 0 <= i < |sys| && Holds(sys[i].q, addr)
  }

  /** Every queue is in order, and no task is on two of them. */
  ghost predicate SystemValid(sys: System) {
    && (forall i :: 0 <= i < |sys| ==> Valid(sys[i]))
    && (forall i, j, a :: 0 <= i < j < |sys| && Holds(sys[i].q, a) ==> !Holds(sys[j].q, a))
  }

  lemma {:induction false} AttachSpec(r: Rq, tasks: seq<Ent>)
    requires Valid(r) && Distinct(tasks)
    requires forall a :: Holds(tasks, a) ==> !Holds(r.q, a)
    ensures Valid(Attach(r, tasks)) && Attach(r, tasks).min >= r.min
    ensures |Attach(r, tasks).q| == |r.q| + |tasks|
    ensures forall a :: Holds(Attach(r, tasks).q, a) <==> Holds(r.q, a) || Holds(tasks, a)
    decreases tasks
  {
    if tasks != [] {
      var e := tasks[0];
      assert Holds(tasks, e.addr);
      EnqueueMonotone(r, e);
      EnqueueHolds(r, e);
      var r1 := Enqueue(r, e);
      forall a | Holds(tasks[1..], a) ensures !Holds(r1.q, a) && Holds(tasks, a) {
        var i :| 0 <= i < |tasks[1..]| && tasks[1..][i].addr == a;
        assert tasks[i + 1].addr == a;
      }
      AttachSpec(r1, tasks[1..]);
      forall a | Holds(tasks, a) ensures Holds(tasks[1..], a) || a == e.addr {
        var i :| 0 <= i < |tasks| && tasks[i].addr == a;
        if i > 0 { assert tasks[1..][i - 1].addr == a; }
      }
    }
  }

  lemma {:induction false} EnqueueHolds(r: Rq, e: Ent)
    requires Valid(r) && !Holds(r.q, e.addr)
    ensures |Enqueue(r, e).q| == |r.q| + 1
    ensures forall a :: Holds(Enqueue(r, e).q, a) <==> Holds(r.q, a) || a == e.addr
  {
    var x := e.(v := Max(r.min, e.v));
    AbsentByAddress(r.q, x);
    InsertSorted(r.q, x);
    InsertMultiset(r.q, x);
    var q := Insert(r.q, x);
    assert |q| == |multiset(q)|;
    assert x in q;
    forall a | Holds(r.q, a) ensures Holds(q, a) {
      var i :| 0 <= i < |r.q| && r.q[i].addr == a;
      assert r.q[i] in q;
    }
    forall a | Holds(q, a) ensures Holds(r.q, a) || a == e.addr {
      var i :| 0 <= i < |q| && q[i].addr == a;
      assert q[i] in q;
    }
  }

  /** What Detach leaves and takes share no task, and together are the queue. */
  lemma {:induction false} DetachHolds(r: Rq, elig: set<int>, n: int)
    requires Valid(r)
    ensures var (kept, taken) := Detach([], r.q, elig, n);
      && Distinct(kept) && Distinct(taken)
      && (forall a :: Holds(taken, a) ==> !Holds(kept, a))
      && (forall a :: Holds(r.q, a) <==> Holds(kept, a) || Holds(taken, a))
  {
    DetachSpec(r, elig, n);
    var (kept, taken) := Detach([], r.q, elig, n);
    var all := multiset(kept) + multiset(taken);
    forall i, j | 0 <= i < |taken| && 0 <= j < |kept| ensures taken[i].addr != kept[j].addr {
      SharedAddress(r.q, kept, taken, i, j);
    }
    assert Distinct(taken) by { TakenDistinct(r, elig, n); }
    forall a ensures Holds(r.q, a) <==> Holds(kept, a) || Holds(taken, a) {
      SplitHolds(r.q, kept, taken, a);
    }
  }

  lemma {:induction false} SplitHolds(q: seq<Ent>, kept: seq<Ent>, taken: seq<Ent>, a: int)
    requires multiset(kept) + multiset(taken) == multiset(q)
    ensures Holds(q, a) <==> Holds(kept, a) || Holds(taken, a)
  {
    if i :| 0 <= i < |q| && q[i].addr == a {
      assert q[i] in multiset(q);
      assert q[i] in kept || q[i] in taken;
    }
    if i :| 0 <= i < |kept| && kept[i].addr == a {
      assert kept[i] in multiset(q);
      assert kept[i] in q;
    }
    if i :| 0 <= i < |taken| && taken[i].addr == a {
      assert taken[i] in multiset(q);
      assert taken[i] in q;
    }
  }

  lemma {:induction false} OnceEach(q: seq<Ent>, x: Ent)
    requires Distinct(q)
    ensures multiset(q)[x] <= 1
  {
    if q != [] {
      assert q == [q[0]] + q[1..];
      OnceEach(q[1..], x);
      forall i | 0 <= i < |q[1..]| ensures q[1..][i] != q[0] { assert q[i + 1].addr != q[0].addr; }
    }
  }

  lemma {:induction false} SharedAddress(q: seq<Ent>, kept: seq<Ent>, taken: seq<Ent>, i: nat, j: nat)
    requires Distinct(q) && multiset(kept) + multiset(taken) == multiset(q)
    requires i < |taken| && j < |kept|
    ensures taken[i].addr != kept[j].addr
  {
    var x, y := taken[i], kept[j];
    assert x in multiset(q) && y in multiset(q);
    var k :| 0 <= k < |q| && q[k] == x;
    var l :| 0 <= l < |q| && q[l] == y;
    OnceEach(q, x);
  }

  lemma {:induction false} EligibleDistinct(q: seq<Ent>, elig: set<int>)
    requires Distinct(q)
    ensures Distinct(Eligible(q, elig))
  {
    if q != [] {
      EligibleDistinct(q[1..], elig);
      EligibleShorter(q[1..], elig);
      var r := Eligible(q[1..], elig);
      forall i | 0 <= i < |r| ensures r[i].addr != q[0].addr {
        assert r[i] in q[1..];
        var j :| 0 <= j < |q[1..]| && q[1..][j] == r[i];
        assert q[j + 1] == r[i];
      }
    }
  }

  lemma {:induction false} TakenDistinct(r: Rq, elig: set<int>, n: int)
    requires Valid(r)
    ensures Distinct(Detach([], r.q, elig, n).1)
  {
    DetachSpec(r, elig, n);
    EligibleDistinct(r.q, elig);
  }

  /** How many tasks a round moves. */
  function Moved(sys: System, src: nat, dst: nat, elig: set<int>): nat
    requires src < |sys| && dst < |sys|
  {
    |Detach([], sys[src].q, elig, Imbalance(|sys[src].q|, |sys[dst].q|)).1|
  }

  /**
   A round moves at most half the excess and at most 32 tasks, exactly the first eligible ones in
   vruntime order; afterwards the source is still at least as long as the destination.
   */
  lemma {:induction false} RoundSizes(sys: System, src: nat, dst: nat, elig: set<int>)
    requires SystemValid(sys) && src < |sys| && dst < |sys| && src != dst
    ensures var sys', m := Round(sys, src, dst, elig), Moved(sys, src, dst, elig);
      && m <= MAX_TASKS_TO_LOAD_BALANCE && 2 * m <= Max(0, |sys[src].q| - |sys[dst].q|)
      && |sys'| == |sys| && |sys'[src].q| == |sys[src].q| - m && |sys'[dst].q| == |sys[dst].q| + m
      && (m > 0 ==> |sys'[src].q| >= |sys'[dst].q|)
      && (forall i :: 0 <= i < |sys| && i != src && i != dst ==> sys'[i] == sys[i])
  {
    var a, b := |sys[src].q|, |sys[dst].q|;
    var n := Imbalance(a, b);
    var (kept, taken) := Detach([], sys[src].q, elig, n);
    DetachLengths(sys[src], elig, n);
    AttachGrows(sys, src, dst, elig, n);
    var sys' := Round(sys, src, dst, elig);
    assert sys'[src].q == kept && sys'[dst] == Attach(sys[dst], taken);
  }

  /** The tasks as EnqueueTask places them: none below min. */
  function Raised(tasks: seq<Ent>, min: int): seq<Ent> {
    seq(|tasks|, i requires 0 <= i < |tasks| => tasks[i].(v := Max(min, tasks[i].v)))
  }

  lemma {:induction false} EligibleSorted(q: seq<Ent>, elig: set<int>)
    requires Sorted(q)
    ensures Sorted(Eligible(q, elig))
  {
    if q != [] {
      EligibleSorted(q[1..], elig);
      EligibleShorter(q[1..], elig);
      var r := Eligible(q[1..], elig);
      forall i | 0 <= i < |r| ensures Less(q[0], r[i]) {
        assert r[i] in q[1..];
      }
    }
  }

  /** Attached in vruntime order, each task enters at the larger of its own vruntime and the old minimum. */
  lemma {:induction false} AttachRaises(r: Rq, tasks: seq<Ent>)
    requires Valid(r) && Sorted(tasks) && Distinct(tasks)
    requires forall a :: Holds(tasks, a) ==> !Holds(r.q, a)
    ensures multiset(Attach(r, tasks).q) == multiset(r.q) + multiset(Raised(tasks, r.min))
    decreases tasks
  {
    if tasks != [] {
      var e, rest := tasks[0], tasks[1..];
      assert Holds(tasks, e.addr);
      EnqueueMonotone(r, e);
      EnqueueHolds(r, e);
      var r1 := Enqueue(r, e);
      RestAbsent(r, tasks, r1);
      AttachRaises(r1, rest);
      RaisedAlike(tasks, r.min, r1.min);
      RaisedFirst(tasks, r.min);
    }
  }

  lemma {:induction false} RestAbsent(r: Rq, tasks: seq<Ent>, r1: Rq)
    requires tasks != [] && Distinct(tasks)
    requires forall a :: Holds(tasks, a) ==> !Holds(r.q, a)
    requires forall a :: Holds(r1.q, a) <==> Holds(r.q, a) || a == tasks[0].addr
    ensures forall a :: Holds(tasks[1..], a) ==> !Holds(r1.q, a)
  {
    forall a | Holds(tasks[1..], a) ensures !Holds(r1.q, a) && Holds(tasks, a) {
      var i :| 0 <= i < |tasks[1..]| && tasks[1..][i].addr == a;
      assert tasks[i + 1].addr == a;
    }
  }

  lemma {:induction false} RaisedFirst(tasks: seq<Ent>, min: int)
    requires tasks != []
    ensures Raised(tasks, min) == [tasks[0].(v := Max(min, tasks[0].v))] + Raised(tasks[1..], min)
  {
  }

  lemma {:induction false} RaisedAlike(tasks: seq<Ent>, min: int, min': int)
    requires tasks != [] && Sorted(tasks) && min <= min' <= Max(min, tasks[0].v)
    ensures Raised(tasks[1..], min') == Raised(tasks[1..], min)
  {
    forall i | 0 <= i < |tasks[1..]| ensures Raised(tasks[1..], min')[i] == Raised(tasks[1..], min)[i] {
      assert Less(tasks[0], tasks[i + 1]);
    }
  }

  /** How many tasks go, in numbers: half the excess, but no more than 32, than may go, or than all but one. */
  function Share(a: nat, b: nat, eligible: nat): int {
    if a - b >= 2 then Min(Min(32, (a - b) / 2), Min(eligible, a - 1)) else 0
  }

  /**
   What a round does.  The first eligible tasks leave the source, as many as Share says, and enter the
   destination, none below its minimum; where all may go the lengths then differ by what is left of
   the excess.
   */
  lemma {:induction false} RoundMoves(sys: System, src: nat, dst: nat, elig: set<int>)
    requires SystemValid(sys) && src < |sys| && dst < |sys| && src != dst
    ensures var a, b, first := |sys[src].q|, |sys[dst].q|, Eligible(sys[src].q, elig);
      var sys', m := Round(sys, src, dst, elig), Share(a, b, |first|);
      && 0 <= m <= |first| && |sys'| == |sys|
      && |sys'[src].q| == a - m && |sys'[dst].q| == b + m
      && multiset(sys'[src].q) + multiset(first[..m]) == multiset(sys[src].q)
      && multiset(sys'[dst].q) == multiset(sys[dst].q) + multiset(Raised(first[..m], sys[dst].min))
      && sys'[src].min == sys[src].min
      && (first == sys[src].q && a - b >= 2 ==> |sys'[src].q| - |sys'[dst].q| == a - b - 2 * Min(32, (a - b) / 2))
  {
    var n := Imbalance(|sys[src].q|, |sys[dst].q|);
    var (kept, taken) := Detach([], sys[src].q, elig, n);
    TakenIs(sys, src, dst, elig);
    TakenRaised(sys, src, dst, elig, n);
    RoundSizes(sys, src, dst, elig);
    assert Round(sys, src, dst, elig) == sys[src := sys[src].(q := kept)][dst := Attach(sys[dst], taken)];
  }

  lemma {:induction false} TakenIs(sys: System, src: nat, dst: nat, elig: set<int>)
    requires SystemValid(sys) && src < |sys| && dst < |sys|
    ensures var first := Eligible(sys[src].q, elig);
      var (kept, taken) := Detach([], sys[src].q, elig, Imbalance(|sys[src].q|, |sys[dst].q|));
      var m := Share(|sys[src].q|, |sys[dst].q|, |first|);
      && 0 <= m <= |first| && taken == first[..m]
      && multiset(kept) + multiset(taken) == multiset(sys[src].q)
  {
    DetachSpec(sys[src], elig, Imbalance(|sys[src].q|, |sys[dst].q|));
  }

  lemma {:induction false} TakenRaised(sys: System, src: nat, dst: nat, elig: set<int>, n: int)
    requires SystemValid(sys) && src < |sys| && dst < |sys| && src != dst
    ensures var taken := Detach([], sys[src].q, elig, n).1;
      multiset(Attach(sys[dst], taken).q) == multiset(sys[dst].q) + multiset(Raised(taken, sys[dst].min))
  {
    var taken := Detach([], sys[src].q, elig, n).1;
    assert Sorted(taken) by {
      EligibleSorted(sys[src].q, elig);
      DetachSpec(sys[src], elig, n);
    }
    TakenDistinct(sys[src], elig, n);
    TakenElsewhere(sys, src, dst, elig, n);
    AttachRaises(sys[dst], taken);
  }

  lemma {:induction false} DetachLengths(r: Rq, elig: set<int>, n: nat)
    requires Valid(r)
    ensures var (kept, taken) := Detach([], r.q, elig, n);
      |taken| <= n && |kept| == |r.q| - |taken|
  {
    DetachSpec(r, elig, n);
  }

  /** The tasks a round moves are the first eligible ones in vruntime order. */
  lemma {:induction false} RoundTakesFirstEligible(sys: System, src: nat, dst: nat, elig: set<int>)
    requires SystemValid(sys) && src < |sys| && dst < |sys|
    ensures Moved(sys, src, dst, elig) <= |Eligible(sys[src].q, elig)|
    ensures Detach([], sys[src].q, elig, Imbalance(|sys[src].q|, |sys[dst].q|)).1
         == Eligible(sys[src].q, elig)[..Moved(sys, src, dst, elig)]
  {
    DetachSpec(sys[src], elig, Imbalance(|sys[src].q|, |sys[dst].q|));
  }

  lemma {:induction false} AttachGrows(sys: System, src: nat, dst: nat, elig: set<int>, n: int)
    requires SystemValid(sys) && src < |sys| && dst < |sys| && src != dst
    ensures var taken := Detach([], sys[src].q, elig, n).1;
      |Attach(sys[dst], taken).q| == |sys[dst].q| + |taken|
  {
    TakenDistinct(sys[src], elig, n);
    TakenElsewhere(sys, src, dst, elig, n);
    AttachSpec(sys[dst], Detach([], sys[src].q, elig, n).1);
  }

  lemma {:induction false} TakenElsewhere(sys: System, src: nat, dst: nat, elig: set<int>, n: int)
    requires SystemValid(sys) && src < |sys| && dst < |sys| && src != dst
    ensures forall a :: Holds(Detach([], sys[src].q, elig, n).1, a) ==> !Holds(sys[dst].q, a)
  {
    DetachHolds(sys[src], elig, n);
    forall a | Holds(Detach([], sys[src].q, elig, n).1, a) ensures !Holds(sys[dst].q, a) {
      assert Holds(sys[src].q, a);
    }
  }

  /** A round loses no task, duplicates none, and leaves every queue in order. */
  lemma {:induction false} RoundConserves(sys: System, src: nat, dst: nat, elig: set<int>)
    requires SystemValid(sys) && src < |sys| && dst < |sys| && src != dst
    ensures SystemValid(Round(sys, src, dst, elig))
    ensures forall a :: InSystem(Round(sys, src, dst, elig), a) <==> InSystem(sys, a)
  {
    var n := Imbalance(|sys[src].q|, |sys[dst].q|);
    var (kept, taken) := Detach([], sys[src].q, elig, n);
    var sys' := Round(sys, src, dst, elig);
    var from, to := sys[src].(q := kept), Attach(sys[dst], taken);
    assert sys' == sys[src := from][dst := to];
    PairExchanges(sys, src, dst, elig, n);
    PairConserved(sys, sys', src, dst);
  }

  /** The two queues of a round before and after. */
  lemma {:induction false} PairExchanges(sys: System, src: nat, dst: nat, elig: set<int>, n: int)
    requires SystemValid(sys) && src < |sys| && dst < |sys| && src != dst
    ensures var (kept, taken) := Detach([], sys[src].q, elig, n);
      var from, to := sys[src].(q := kept), Attach(sys[dst], taken);
      && Valid(from) && Valid(to)
      && (forall a :: Holds(from.q, a) || Holds(to.q, a) <==> Holds(sys[src].q, a) || Holds(sys[dst].q, a))
      && (forall a :: Holds(from.q, a) ==> !Holds(to.q, a))
  {
    var (kept, taken) := Detach([], sys[src].q, elig, n);
    assert Valid(sys[src].(q := kept)) by { DetachSpec(sys[src], elig, n); }
    DetachHolds(sys[src], elig, n);
    TakenElsewhere(sys, src, dst, elig, n);
    AttachSpec(sys[dst], taken);
    forall a ensures Holds(sys[src].q, a) ==> !Holds(sys[dst].q, a) {
      OtherQueues(sys, src, dst, a);
    }
  }

  /** Two queues that exchange tasks disturb no other. */
  lemma {:induction false} PairConserved(sys: System, sys': System, src: nat, dst: nat)
    requires SystemValid(sys) && src < |sys| && dst < |sys| && src != dst && |sys'| == |sys|
    requires forall i :: 0 <= i < |sys| && i != src && i != dst ==> sys'[i] == sys[i]
    requires forall i :: 0 <= i < |sys'| ==> Valid(sys'[i])
    requires forall a ::
      Holds(sys'[src].q, a) || Holds(sys'[dst].q, a) <==> Holds(sys[src].q, a) || Holds(sys[dst].q, a)
    requires forall a :: Holds(sys'[src].q, a) ==> !Holds(sys'[dst].q, a)
    ensures SystemValid(sys')
    ensures forall a :: InSystem(sys', a) <==> InSystem(sys, a)
  {
    forall i, j, a | 0 <= i < j < |sys'| && Holds(sys'[i].q, a) ensures !Holds(sys'[j].q, a) {
      OtherQueues(sys, src, dst, a);
      assert Holds(sys[i].q, a) ==> !Holds(sys[j].q, a);
    }
    forall a ensures InSystem(sys', a) <==> InSystem(sys, a) {
      if i :| 0 <= i < |sys'| && Holds(sys'[i].q, a) {
        assert Holds(sys[i].q, a) || Holds(sys[src].q, a) || Holds(sys[dst].q, a);
      }
      if i :| 0 <= i < |sys| && Holds(sys[i].q, a) {
        assert Holds(sys'[i].q, a) || Holds(sys'[src].q, a) || Holds(sys'[dst].q, a);
      }
    }
  }

  lemma {:induction false} OtherQueues(sys: System, src: nat, dst: nat, a: int)
    requires SystemValid(sys) && src < |sys| && dst < |sys|
    ensures forall k :: 0 <= k < |sys| && k != src && Holds(sys[k].q, a) ==> !Holds(sys[src].q, a)
    ensures forall k :: 0 <= k < |sys| && k != dst && Holds(sys[k].q, a) ==> !Holds(sys[dst].q, a)
  {
    forall k | 0 <= k < |sys| && Holds(sys[k].q, a)
      ensures k != src ==> !Holds(sys[src].q, a)
      ensures k != dst ==> !Holds(sys[dst].q, a)
    {
      if k < src { assert !Holds(sys[src].q, a); }
      if k < dst { assert !Holds(sys[dst].q, a); }
    }
  }

  //---------------------------------------------------------------------------
  // Convergence
  //---------------------------------------------------------------------------

  function Square(n: nat): nat { n * n }

  function SumSquares(sys: System): nat {
    if sys == [] then 0 else Square(|sys[0].q|) + SumSquares(sys[1..])
  }

  lemma {:induction false} SumSquaresUpdate(sys: System, i: nat, r: Rq)
    requires i < |sys|
    ensures SumSquares(sys[i := r]) == SumSquares(sys) - Square(|sys[i].q|) + Square(|r.q|)
  {
    if i == 0 {
      assert sys[0 := r][1..] == sys[1..];
    } else {
      SumSquaresUpdate(sys[1..], i - 1, r);
      assert sys[i := r][1..] == sys[1..][i - 1 := r];
    }
  }

  lemma {:induction false} MoveLowersSquares(a: nat, b: nat, m: nat)
    requires 0 < m <= a && a - m >= b + m
    ensures Square(a - m) + Square(b + m) < Square(a) + Square(b)
  {
    assert (a - m) * (a - m) + (b + m) * (b + m) == a * a + b * b - 2 * m * (a - b - m);
    assert m * (a - b - m) >= 1 * 1;
  }

  /** A round that moves anything lowers the sum of squared queue lengths. */
  lemma {:induction false} RoundLowersSquares(sys: System, src: nat, dst: nat, elig: set<int>)
    requires SystemValid(sys) && src < |sys| && dst < |sys| && src != dst
    requires Moved(sys, src, dst, elig) > 0
    ensures SumSquares(Round(sys, src, dst, elig)) < SumSquares(sys)
  {
    RoundSizes(sys, src, dst, elig);
    var sys' := Round(sys, src, dst, elig);
    var sys1 := sys[src := sys'[src]];
    assert sys' == sys1[dst := sys'[dst]];
    SumSquaresUpdate(sys, src, sys'[src]);
    SumSquaresUpdate(sys1, dst, sys'[dst]);
    MoveLowersSquares(|sys[src].q|, |sys[dst].q|, Moved(sys, src, dst, elig));
  }

  datatype Step = Step(src: nat, dst: nat, elig: set<int>)

  /** A history of rounds, each of which moved at least one task. */
  ghost predicate MovingHistory(sys: System, steps: seq<Step>)
    decreases steps
  {
    steps == [] ||
    (steps[0].src < |sys| && steps[0].dst < |sys| && steps[0].src != steps[0].dst
     && Moved(sys, steps[0].src, steps[0].dst, steps[0].elig) > 0
     && MovingHistory(Round(sys, steps[0].src, steps[0].dst, steps[0].elig), steps[1..]))
  }

  /** Balancing a fixed set of tasks comes to rest, whatever rounds are made in whatever order. */
  lemma {:induction false} BalancingTerminates(sys: System, steps: seq<Step>)
    requires SystemValid(sys) && MovingHistory(sys, steps)
    ensures |steps| <= SumSquares(sys)
    decreases steps
  {
    if steps != [] {
      var s := steps[0];
      RoundConserves(sys, s.src, s.dst, s.elig);
      RoundLowersSquares(sys, s.src, s.dst, s.elig);
      BalancingTerminates(Round(sys, s.src, s.dst, s.elig), steps[1..]);
    }
  }

  /** When every task may run everywhere, a round moves a task exactly if the lengths differ by two or more. */
  lemma {:induction false} RoundMovesIff(sys: System, src: nat, dst: nat, elig: set<int>)
    requires SystemValid(sys) && src < |sys| && dst < |sys| && src != dst
    requires forall i :: 0 <= i < |sys[src].q| ==> sys[src].q[i].addr in elig
    ensures Moved(sys, src, dst, elig) > 0 <==> |sys[src].q| >= |sys[dst].q| + 2
  {
    DetachSpec(sys[src], elig, Imbalance(|sys[src].q|, |sys[dst].q|));
    AllEligible(sys[src].q, elig);
  }

  /** The queue FindBusiestQueue chooses. */
  predicate Longest(sys: System, b: nat) {
    && b < |sys|
    && (forall i :: 0 <= i < |sys| ==> |sys[i].q| <= |sys[b].q|)
    && (forall i :: 0 <= i < b ==> |sys[i].q| < |sys[b].q|)
  }

  lemma {:induction false} LongestUnique(sys: System, b: nat, c: nat)
    requires Longest(sys, b) && Longest(sys, c)
    ensures b == c
  {
    assert |sys[b].q| == |sys[c].q|;
  }

  /** What NewIdleBalance of CPU me can find: a longest queue with a task to spare that may move. */
  ghost predicate CanSteal(sys: System, me: nat, elig: set<int>) {
    && me < |sys| && sys[me].q == []
    && exists b: nat :: Longest(sys, b) && |sys[b].q| >= 2 && Eligible(sys[b].q, elig) != []
  }

  /** The same tasks are queued, except that `task` was taken out. */
  ghost predicate TakenOut(sys: System, after: System, task: Option<Ent>) {
    && (task.Some? ==> !InSystem(after, task.value.addr))
    && (forall a :: InSystem(sys, a) <==> InSystem(after, a) || (task.Some? && a == task.value.addr))
  }

  /** The first eligible tasks of queue b, up to half of it and up to 32, went to CPU me, which picked the least. */
  ghost predicate StolenFrom(sys: System, after: System, me: nat, elig: set<int>, b: nat, task: Ent)
    requires me < |sys| && b < |sys|
  {
    var first := Eligible(sys[b].q, elig);
    var m := Min(Min(32, |sys[b].q| / 2), |first|);
    var got := multiset(Raised(first[..m], sys[me].min));
    && |after| == |sys| && multiset(after[b].q) + multiset(first[..m]) == multiset(sys[b].q)
    && multiset(after[me].q) + multiset{task} == got && (forall x :: x in got ==> x == task || Less(task, x))
    && (forall i :: 0 <= i < |sys| && i != b && i != me ==> after[i] == sys[i])
  }

  /**
   NewIdleBalance of CPU me, with elig the tasks that may go there: the system afterwards and
   the task picked.  It finds a task exactly when a longest queue can spare one.
   */
  method NewIdleBalance(sys: System, me: nat, elig: set<int>) returns (after: System, task: Option<Ent>)
    requires SystemValid(sys) && me < |sys|
    ensures SystemValid(after) && TakenOut(sys, after, task)
    ensures task == None ==> after == sys
    ensures task.Some? <==> CanSteal(sys, me, elig)
    ensures task.Some? ==> task.value.addr in elig
    ensures task.Some? ==> exists b: nat :: Longest(sys, b) && StolenFrom(sys, after, me, elig, b, task.value)
  {
    after, task := sys, None;
    var busiest := FindBusiestQueue(sys);
    assert forall b: nat :: Longest(sys, b) ==> b == busiest by {
      forall b: nat | Longest(sys, b) ensures b == busiest { LongestUnique(sys, b, busiest); }
    }
    if sys[me].q != [] || busiest == me || Imbalance(|sys[busiest].q|, |sys[me].q|) == 0 {
      assert !CanSteal(sys, me, elig);
      return;
    }
    StealsIff(sys, busiest, me, elig);
    if Moved(sys, busiest, me, elig) == 0 {
      return;
    }
    after := Round(sys, busiest, me, elig);
    StealAndPick(sys, busiest, me, elig);
    var (r, picked) := Pick(after[me], None);
    after, task := after[me := r], picked;
    assert Longest(sys, busiest);
  }

  lemma {:induction false} StealsIff(sys: System, src: nat, me: nat, elig: set<int>)
    requires SystemValid(sys) && src < |sys| && me < |sys| && sys[me].q == [] && |sys[src].q| >= 2
    ensures Moved(sys, src, me, elig) > 0 <==> Eligible(sys[src].q, elig) != []
  {
    RoundTakesFirstEligible(sys, src, me, elig);
    DetachSpec(sys[src], elig, Imbalance(|sys[src].q|, 0));
  }

  lemma {:induction false} StealAndPick(sys: System, src: nat, me: nat, elig: set<int>)
    requires SystemValid(sys) && src < |sys| && me < |sys| && src != me && sys[me].q == []
    requires Moved(sys, src, me, elig) > 0
    ensures var mid := Round(sys, src, me, elig);
      var (r, task) := Pick(mid[me], None);
      && task.Some? && SystemValid(mid[me := r]) && TakenOut(sys, mid[me := r], task) && task.value.addr in elig
      && StolenFrom(sys, mid[me := r], me, elig, src, task.value)
  {
    RoundSizes(sys, src, me, elig);
    RoundConserves(sys, src, me, elig);
    StolenAreEligible(sys, src, me, elig);
    PickFromQueue(Round(sys, src, me, elig), me);
    StolenIs(sys, src, me, elig);
  }

  /** A pick from a queue that holds just these tasks takes the least of them. */
  lemma {:induction false} LeastIsPicked(r: Rq, got: multiset<Ent>)
    requires Valid(r) && r.q != [] && multiset(r.q) == got
    ensures var (r', task) := Pick(r, None);
      && task.Some? && multiset(r'.q) + multiset{task.value} == got
      && forall x :: x in got ==> x == task.value || Less(task.value, x)
  {
    PickSpec(r, None);
    assert r.q[0] in got;
  }

  lemma {:induction false} StolenIs(sys: System, src: nat, me: nat, elig: set<int>)
    requires SystemValid(sys) && src < |sys| && me < |sys| && src != me && sys[me].q == []
    requires Moved(sys, src, me, elig) > 0
    ensures var mid := Round(sys, src, me, elig);
      var (r, task) := Pick(mid[me], None);
      |mid| == |sys| && task.Some? && StolenFrom(sys, mid[me := r], me, elig, src, task.value)
  {
    var first := Eligible(sys[src].q, elig);
    var m := Share(|sys[src].q|, 0, |first|);
    RoundMoves(sys, src, me, elig);
    RoundSizes(sys, src, me, elig);
    var mid := Round(sys, src, me, elig);
    assert m == Min(Min(32, |sys[src].q| / 2), |first|);
    assert multiset(mid[me].q) == multiset(Raised(first[..m], sys[me].min));
    assert Valid(mid[me]) by { RoundConserves(sys, src, me, elig); }
    LeastIsPicked(mid[me], multiset(Raised(first[..m], sys[me].min)));
  }

  lemma {:induction false} StolenAreEligible(sys: System, src: nat, dst: nat, elig: set<int>)
    requires SystemValid(sys) && src < |sys| && dst < |sys| && src != dst && sys[dst].q == []
    ensures forall x :: x in Round(sys, src, dst, elig)[dst].q ==> x.addr in elig
  {
    var n := Imbalance(|sys[src].q|, |sys[dst].q|);
    var taken := Detach([], sys[src].q, elig, n).1;
    var q := Attach(sys[dst], taken).q;
    assert Round(sys, src, dst, elig)[dst].q == q;
    assert forall a :: Holds(q, a) <==> Holds(taken, a) by {
      TakenDistinct(sys[src], elig, n);
      TakenElsewhere(sys, src, dst, elig, n);
      AttachSpec(sys[dst], taken);
    }
    forall x | x in q ensures x.addr in elig {
      var i :| 0 <= i < |q| && q[i] == x;
      assert Holds(q, x.addr);
      var j :| 0 <= j < |taken| && taken[j].addr == x.addr;
      assert taken[j] in taken by { }
      DetachSpec(sys[src], elig, n);
    }
  }

  /** Picking from a queue with nothing to put back takes its first task out of the system. */
  lemma {:induction false} PickFromQueue(sys: System, me: nat)
    requires SystemValid(sys) && me < |sys| && sys[me].q != []
    ensures var (r, picked) := Pick(sys[me], None);
      && picked == Some(sys[me].q[0])
      && SystemValid(sys[me := r]) && TakenOut(sys, sys[me := r], picked)
  {
    PickSpec(sys[me], None);
    var (r, picked) := Pick(sys[me], None);
    var q, e := sys[me].q, picked.value;
    var after := sys[me := r];
    forall a ensures Holds(q, a) <==> Holds(r.q, a) || a == e.addr { TailHolds(q, a); }
    assert !Holds(r.q, e.addr);
    FewerTasks(sys, after);
    assert Holds(q, e.addr);
    OtherQueues(sys, me, me, e.addr);
    forall a ensures InSystem(sys, a) <==> InSystem(after, a) || a == e.addr {
      if i :| 0 <= i < |sys| && Holds(sys[i].q, a) {
        assert Holds(after[i].q, a) || a == e.addr;
      }
      if i :| 0 <= i < |after| && Holds(after[i].q, a) {
        assert Holds(sys[i].q, a);
      }
    }
  }

  lemma {:induction false} FewerTasks(sys: System, after: System)
    requires SystemValid(sys) && |after| == |sys|
    requires forall i :: 0 <= i < |sys| ==> Valid(after[i])
    requires forall i, a :: 0 <= i < |sys| && Holds(after[i].q, a) ==> Holds(sys[i].q, a)
    ensures SystemValid(after)
  {
  }

  lemma {:induction false} TailHolds(q: seq<Ent>, a: int)
    requires q != []
    ensures Holds(q, a) <==> Holds(q[1..], a) || a == q[0].addr
  {
    if i :| 0 <= i < |q| && q[i].addr == a {
      if i > 0 { assert q[1..][i - 1].addr == a; }
    }
    if i :| 0 <= i < |q[1..]| && q[1..][i].addr == a {
      assert q[i + 1].addr == a;
    }
  }

  lemma {:induction false} AllEligible(q: seq<Ent>, elig: set<int>)
    requires forall i :: 0 <= i < |q| ==> q[i].addr in elig
    ensures Eligible(q, elig) == q
  {
    if q != [] {
      AllEligible(q[1..], elig);
    }
  }
}
