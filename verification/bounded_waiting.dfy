/** Bounded waiting on one CPU with a fixed set of runnable tasks. */
module BoundedWaiting {
  /*
   Each task that is picked runs, is charged some vruntime, and is put back by the next PickNextTask.
   */

  import opened Common
  import opened CfsTaskState
  import opened RunQueue

  /** The previous task after it ran, ready to be put back. */
  function Charged(e: Ent, delta: int): Option<Prev> { Some(Prev(e.(v := e.v + delta), Running)) }

  /** The tasks PickNextTask picks, one for each amount charged. */
  function Picks(r: Rq, prev: Option<Prev>, deltas: seq<int>): seq<Ent>
    decreases deltas
  {
    if deltas == [] then []
    else
      var (r', task) := Pick(r, prev);
      if task == None then [] else [task.value] + Picks(r', Charged(task.value, deltas[0]), deltas[1..])
  }

  /** How many picks task x can have before t, when each costs it at least d. */
  function Turns(x: Ent, t: Ent, d: int): nat
    requires d > 0
  {
    if x != t && x.v <= t.v then (t.v - x.v) / d + 1 else 0
  }

  function QueueTurns(q: seq<Ent>, t: Ent, d: int): nat
    requires d > 0
  {
    if q == [] then 0 else Turns(q[0], t, d) + QueueTurns(q[1..], t, d)
  }

  /** The bound: all tasks that may be picked, the one to be put back included. */
  function Wait(r: Rq, prev: Option<Prev>, t: Ent, d: int): nat
    requires d > 0
  {
    QueueTurns(r.q, t, d) + if CurrentV(prev).Some? then Turns(prev.value.e, t, d) else 0
  }

  lemma {:induction false} InsertTurns(q: seq<Ent>, e: Ent, t: Ent, d: int)
    requires d > 0 && e !in q
    ensures QueueTurns(Insert(q, e), t, d) == QueueTurns(q, t, d) + Turns(e, t, d)
  {
    if q != [] && !Less(e, q[0]) {
      InsertTurns(q[1..], e, t, d);
    }
  }

  lemma {:induction false} QuotientDrops(d: int, q: int, r: int, q': int, r': int)
    requires d > 0 && 0 <= r < d && 0 <= r' < d
    requires d * q' + r' + d <= d * q + r
    ensures q' + 1 <= q
  {
    assert q <= q' ==> d * (q' - q) >= 0;
    assert d * (q' - q) == d * q' - d * q;
  }

  lemma {:induction false} DivDrops(x: int, y: int, d: int)
    requires d > 0 && 0 <= y <= x - d
    ensures y / d + 1 <= x / d
  {
    QuotientDrops(d, x / d, x % d, y / d, y % d);
  }

  lemma {:induction false} ChargeLowersTurns(e: Ent, t: Ent, d: int, delta: int)
    requires d > 0 && delta >= d && Less(e, t)
    ensures Turns(e.(v := e.v + delta), t, d) < Turns(e, t, d)
  {
    if e.v + delta <= t.v {
      DivDrops(t.v - e.v, t.v - e.v - delta, d);
    }
  }

  /** What holds before each pick while t waits. */
  predicate Waiting(r: Rq, prev: Option<Prev>, t: Ent) {
    && Valid(r) && t in r.q
    && (prev.Some? ==> !Holds(r.q, prev.value.e.addr))
  }

  /** A pick either takes t, or lowers the bound and leaves t waiting. */
  lemma {:induction false} PickLowersWait(r: Rq, prev: Option<Prev>, t: Ent, d: int, delta: int)
    requires d > 0 && delta >= d && Waiting(r, prev, t)
    ensures Pick(r, prev).1.Some?
    ensures var (r', task) := Pick(r, prev);
      task.value == t ||
      (Waiting(r', Charged(task.value, delta), t) && Wait(r', Charged(task.value, delta), t, d) < Wait(r, prev, t, d))
  {
    var r1 := PutBack(r, prev);
    PutBackForWait(r, prev, t, d);
    var e := r1.q[0];
    var (r', task) := Pick(r, prev);
    assert task == Some(e) && r'.q == r1.q[1..];
    if e != t {
      LeastFirst(r1.q, t);
      ChargeLowersTurns(e, t, d, delta);
      NotInTail(r1.q);
      assert Valid(r') by { PickKeepsValid(r, prev); }
    }
  }

  lemma {:induction false} PickKeepsValid(r: Rq, prev: Option<Prev>)
    requires Valid(r) && (prev.Some? ==> !Holds(r.q, prev.value.e.addr))
    ensures Valid(Pick(r, prev).0)
  {
    PickSpec(r, prev);
  }

  lemma {:induction false} PutBackForWait(r: Rq, prev: Option<Prev>, t: Ent, d: int)
    requires d > 0 && Waiting(r, prev, t)
    ensures var r1 := PutBack(r, prev);
      Sorted(r1.q) && Distinct(r1.q) && t in r1.q && QueueTurns(r1.q, t, d) == Wait(r, prev, t, d)
  {
    assert Valid(PutBack(r, prev)) by { PutBackValid(r, prev); }
    if prev.Some? {
      var e := prev.value.e;
      AbsentByAddress(r.q, e);
      EraseAbsent(r.q, e);
      InsertTurns(r.q, e, t, d);
      assert t in Insert(r.q, e) by { InsertSorted(r.q, e); }
    }
  }

  lemma {:induction false} NotInTail(q: seq<Ent>)
    requires q != [] && Distinct(q)
    ensures !Holds(q[1..], q[0].addr)
  {
    forall i | 0 <= i < |q[1..]| ensures q[1..][i].addr != q[0].addr { assert q[i + 1].addr != q[0].addr; }
  }

  /**
   When every pick charges at least d, a queued task is picked after at most Wait other picks,
   whatever the amounts charged.
   */
  lemma {:induction false} WaitingIsBounded(r: Rq, prev: Option<Prev>, t: Ent, d: int, deltas: seq<int>)
    requires d > 0 && Waiting(r, prev, t)
    requires forall i :: 0 <= i < |deltas| ==> deltas[i] >= d
    requires |deltas| > Wait(r, prev, t, d)
    ensures exists k :: 0 <= k <= Wait(r, prev, t, d) && k < |Picks(r, prev, deltas)| && Picks(r, prev, deltas)[k] == t
    decreases deltas
  {
    PickLowersWait(r, prev, t, d, deltas[0]);
    var (r', task) := Pick(r, prev);
    var picks := Picks(r, prev, deltas);
    if task.value == t {
      assert picks[0] == t;
    } else {
      var prev' := Charged(task.value, deltas[0]);
      WaitingIsBounded(r', prev', t, d, deltas[1..]);
      var rest := Picks(r', prev', deltas[1..]);
      var k :| 0 <= k <= Wait(r', prev', t, d) && k < |rest| && rest[k] == t;
      assert picks[k + 1] == t;
    }
  }

  //---------------------------------------------------------------------------
  // The bound is met
  //---------------------------------------------------------------------------

  /** Every pick costs d. */
  function Costs(d: int, n: nat): (deltas: seq<int>)
    ensures |deltas| == n
  {
    if n == 0 then [] else [d] + Costs(d, n - 1)
  }

  /** The other task when it is still to be picked k times: k - 1 charges behind t, ahead of it at equal vruntime. */
  function Behind(t: Ent, addr: int, d: int, k: nat): Ent
    requires k > 0
  {
    Ent(t.v - (k - 1) * d, addr)
  }

  /** The other task k times, and then t. */
  function TurnsThen(t: Ent, addr: int, d: int, k: nat): (picks: seq<Ent>)
    ensures |picks| == k + 1 && picks[k] == t
  {
    if k == 0 then [t] else [Behind(t, addr, d, k)] + TurnsThen(t, addr, d, k - 1)
  }

  /** The previous task before its next pick, or after the last of its turns. */
  function AfterTurn(t: Ent, addr: int, d: int, k: nat): Option<Prev> {
    Some(Prev(if k == 0 then Ent(t.v + d, addr) else Behind(t, addr, d, k), Running))
  }

  lemma {:induction false} ChargedOnce(t: Ent, addr: int, d: int, k: nat)
    requires k > 0
    ensures Charged(Behind(t, addr, d, k), d) == AfterTurn(t, addr, d, k - 1)
  {
    assert (k - 1) * d == if k == 1 then 0 else (k - 2) * d + d;
  }

  lemma {:induction false} BehindComesFirst(t: Ent, addr: int, d: int, k: nat)
    requires k > 0 && d > 0 && addr < t.addr
    ensures Less(Behind(t, addr, d, k), t)
  {
    assert (k - 1) * d >= 0;
  }

  lemma {:induction false} PicksInTurn(r: Rq, t: Ent, addr: int, d: int, k: nat)
    requires r.q == [t] && d > 0 && addr < t.addr
    ensures Picks(r, AfterTurn(t, addr, d, k), Costs(d, k + 1)) == TurnsThen(t, addr, d, k)
    decreases k
  {
    var prev := AfterTurn(t, addr, d, k);
    var x := prev.value.e;
    var (r', task) := Pick(r, prev);
    assert Costs(d, k + 1)[1..] == Costs(d, k);
    if k == 0 {
      assert Insert(r.q, x) == [t, x];
      assert task == Some(t);
    } else {
      BehindComesFirst(t, addr, d, k);
      assert Insert(r.q, x) == [x, t];
      assert task == Some(x) && r'.q == [t];
      ChargedOnce(t, addr, d, k);
      PicksInTurn(r', t, addr, d, k - 1);
    }
  }

  lemma {:induction false} TurnsOfBehind(t: Ent, addr: int, d: int, k: nat)
    requires k > 0 && d > 0 && addr < t.addr
    ensures Turns(Behind(t, addr, d, k), t, d) == k
  {
    var q := k - 1;
    assert q * d >= 0;
    QuotientIs(q, d);
  }

  lemma {:induction false} QuotientIs(q: nat, d: int)
    requires d > 0
    ensures q * d / d == q
  {
    var x := q * d;
    QuotientLe(d, q, 0, x / d, x % d);
    QuotientLe(d, x / d, x % d, q, 0);
  }

  /**
   The bound is met, for every least charge d and every number n of turns: a task that is n - 1 charges
   behind t and precedes it at equal vruntime is picked exactly n times before t, and n is the bound.
   */
  lemma {:induction false} BoundIsMet(t: Ent, addr: int, d: int, n: nat)
    requires n > 0 && d > 0 && addr < t.addr
    ensures var x := Behind(t, addr, d, n);
      var r := Rq([x, t], x.v);
      && Waiting(r, None, t) && Wait(r, None, t, d) == n
      && Picks(r, None, Costs(d, n + 1)) == TurnsThen(t, addr, d, n)
  {
    var x := Behind(t, addr, d, n);
    var r := Rq([x, t], x.v);
    BehindComesFirst(t, addr, d, n);
    assert Wait(r, None, t, d) == n by {
      TurnsOfBehind(t, addr, d, n);
      assert [x, t][1..] == [t] && [t][1..] == [];
      assert QueueTurns([t], t, d) == 0;
    }
    var (r', task) := Pick(r, None);
    assert task == Some(x) && r'.q == [t];
    ChargedOnce(t, addr, d, n);
    PicksInTurn(r', t, addr, d, n - 1);
    assert Costs(d, n + 1)[1..] == Costs(d, n);
  }
}
