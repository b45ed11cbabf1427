/** The run queue of one CPU as a value. */
module RunQueue {
  /*
   What the methods of CfsRq do to the ordered set of (vruntime, address) keys and to min_vruntime_.
   Durations are unbounded integers.
   */

  import opened Common
  import opened CfsTaskState

  datatype Ent = Ent(v: int, addr: int)

  datatype Rq = Rq(q: seq<Ent>, min: int)

  /** CfsTask::Less. */
  predicate Less(a: Ent, b: Ent) {
    if a.v == b.v then a.addr < b.addr else a.v < b.v
  }

  predicate Sorted(q: seq<Ent>) {
    forall i, j :: 0 <= i < j < |q| ==> Less(q[i], q[j])
  }

  /** No task twice. */
  predicate Distinct(q: seq<Ent>) {
    forall i, j :: 0 <= i < j < |q| ==> q[i].addr != q[j].addr
  }

  predicate Valid(r: Rq) {
    Sorted(r.q) && Distinct(r.q) && (r.q != [] ==> r.min <= r.q[0].v)
  }

  predicate Holds(q: seq<Ent>, addr: int) {
    exists i :: 0 <= i < |q| && q[i].addr == addr
  }

  //---------------------------------------------------------------------------
  // The ordered set
  //---------------------------------------------------------------------------

  /** std::set::insert: nothing happens if an equivalent key is there. */
  function Insert(q: seq<Ent>, e: Ent): seq<Ent> {
    if q == [] then [e]
    else if q[0] == e then q
    else if Less(e, q[0]) then [e] + q
    else [q[0]] + Insert(q[1..], e)
  }

  /** std::set::erase by key. */
  function Erase(q: seq<Ent>, e: Ent): seq<Ent> {
    if q == [] then [] else if q[0] == e then q[1..] else [q[0]] + Erase(q[1..], e)
  }

  /** Insertion keeps the order and adds exactly this key. */
  lemma {:induction false} InsertSorted(q: seq<Ent>, e: Ent)
    requires Sorted(q)
    ensures Sorted(Insert(q, e))
    ensures forall x :: x in Insert(q, e) <==> x in q || x == e
  {
    if q != [] && q[0] != e && !Less(e, q[0]) {
      InsertSorted(q[1..], e);
      var r := Insert(q[1..], e);
      forall i | 0 <= i < |r| ensures Less(q[0], r[i]) { assert r[i] in r; }
    }
  }

  lemma {:induction false} InsertMultiset(q: seq<Ent>, e: Ent)
    requires Sorted(q)
    ensures multiset(Insert(q, e)) == if e in q then multiset(q) else multiset(q) + multiset{e}
  {
    if q != [] {
      assert q == [q[0]] + q[1..];
      if q[0] != e && !Less(e, q[0]) {
        InsertMultiset(q[1..], e);
      }
    }
  }

  lemma {:induction false} InsertPresent(q: seq<Ent>, e: Ent)
    requires Sorted(q) && e in q
    ensures Insert(q, e) == q
  {
    if q[0] != e {
      assert e in q[1..];
      InsertPresent(q[1..], e);
    }
  }

  lemma {:induction false} LeastFirst(q: seq<Ent>, x: Ent)
    requires Sorted(q) && x in q
    ensures x == q[0] || Less(q[0], x)
  {
  }

  /** Insertion also puts the least key first. */
  lemma {:induction false} InsertSpec(q: seq<Ent>, e: Ent)
    requires Sorted(q)
    ensures Sorted(Insert(q, e))
    ensures multiset(Insert(q, e)) == if e in q then multiset(q) else multiset(q) + multiset{e}
    ensures Insert(q, e) != [] && forall x :: x in q || x == e ==> x == Insert(q, e)[0] || Less(Insert(q, e)[0], x)
  {
    InsertSorted(q, e);
    InsertMultiset(q, e);
    forall x | x in q || x == e ensures x == Insert(q, e)[0] || Less(Insert(q, e)[0], x) {
      LeastFirst(Insert(q, e), x);
    }
  }

  lemma {:induction false} InsertDistinct(q: seq<Ent>, e: Ent)
    requires Sorted(q) && Distinct(q) && (e in q || !Holds(q, e.addr))
    ensures Distinct(Insert(q, e))
  {
    if e in q {
      InsertPresent(q, e);
    } else if q != [] && !Less(e, q[0]) {
      forall i | 0 <= i < |q| - 1 ensures q[1..][i].addr != e.addr { assert q[i + 1].addr != e.addr; }
      InsertDistinct(q[1..], e);
      InsertSorted(q[1..], e);
      var r := Insert(q[1..], e);
      assert q[0].addr != e.addr;
      forall i | 0 <= i < |r| ensures q[0].addr != r[i].addr { assert r[i] in r; }
    }
  }

  lemma {:induction false} EraseIsSplit(q: seq<Ent>, k: nat)
    requires Sorted(q) && k < |q|
    ensures Erase(q, q[k]) == q[..k] + q[k + 1..]
  {
    if k > 0 {
      EraseIsSplit(q[1..], k - 1);
      assert q[..k] + q[k + 1..] == [q[0]] + (q[1..][..k - 1] + q[1..][k..]);
    }
  }

  lemma {:induction false} EraseAbsent(q: seq<Ent>, e: Ent)
    requires e !in q
    ensures Erase(q, e) == q
  {
    if q != [] {
      EraseAbsent(q[1..], e);
    }
  }

  /** Inserting a task and erasing it again leaves the queue as it was. */
  lemma {:induction false} EraseUndoesInsert(q: seq<Ent>, e: Ent)
    requires e !in q
    ensures Erase(Insert(q, e), e) == q
  {
    if q != [] && !Less(e, q[0]) {
      EraseUndoesInsert(q[1..], e);
    }
  }

  //---------------------------------------------------------------------------
  // CfsRq
  //---------------------------------------------------------------------------

  function InsertTask(r: Rq, e: Ent): Rq {
    var q := Insert(r.q, e);
    Rq(q, q[0].v)
  }

  function Enqueue(r: Rq, e: Ent): Rq {
    InsertTask(r, e.(v := Max(r.min, e.v)))
  }

  function Dequeue(r: Rq, e: Ent): Rq { r.(q := Erase(r.q, e)) }

  /** UpdateMinVruntime; cur is the vruntime of cs->current if that task can run. */
  function UpdateMin(r: Rq, cur: Option<int>): Rq {
    var vruntime :=
      match cur
      case Some(c) => if r.q == [] then c else Min(c, r.q[0].v)
      case None => if r.q == [] then r.min else r.q[0].v;
    r.(min := Max(r.min, vruntime))
  }

  /** The previous task of PickNextTask and its run state. */
  datatype Prev = Prev(e: Ent, run: RunState)

  function PutBack(r: Rq, prev: Option<Prev>): Rq {
    match prev
    case None => r
    case Some(p) =>
      match p.run
      case Blocked => r
      case Done => Dequeue(r, p.e)
      case Runnable => InsertTask(r, p.e)
      case Running => InsertTask(r, p.e)
  }

  /** The vruntime UpdateMinVruntime sees of cs->current when that is the previous task. */
  function CurrentV(prev: Option<Prev>): Option<int> {
    match prev
    case None => None
    case Some(p) => if p.run == Runnable || p.run == Running then Some(p.e.v) else None
  }

  /** PickNextTask once it does not keep prev: the queue afterwards and the task picked. */
  function Pick(r: Rq, prev: Option<Prev>): (Rq, Option<Ent>) {
    var r1 := PutBack(r, prev);
    if r1.q == [] then (UpdateMin(r1, CurrentV(prev)), None)
    else (UpdateMin(r1.(q := r1.q[1..]), CurrentV(prev)), Some(r1.q[0]))
  }

  lemma {:induction false} InsertTaskValid(r: Rq, e: Ent)
    requires Valid(r) && (e in r.q || !Holds(r.q, e.addr))
    ensures Valid(InsertTask(r, e)) && InsertTask(r, e).min <= e.v
    ensures exists x :: x in InsertTask(r, e).q && x.v == InsertTask(r, e).min
  {
    InsertSpec(r.q, e);
    InsertDistinct(r.q, e);
  }

  lemma {:induction false} DropAt(q: seq<Ent>, k: nat)
    requires Sorted(q) && Distinct(q) && k < |q|
    ensures var r := q[..k] + q[k + 1..];
      Sorted(r) && Distinct(r) && !Holds(r, q[k].addr) && (r != [] ==> r[0].v >= q[0].v)
  {
    var r := q[..k] + q[k + 1..];
    forall i | 0 <= i < |r| ensures r[i] == q[if i < k then i else i + 1] { }
    assert r != [] && k == 0 ==> Less(q[0], q[1]);
  }

  lemma {:induction false} SplitMultiset(q: seq<Ent>, k: nat)
    requires k < |q|
    ensures multiset(q[..k] + q[k + 1..]) + multiset{q[k]} == multiset(q)
  {
    assert q == q[..k] + [q[k]] + q[k + 1..];
  }

  /** DequeueTask takes out exactly this key, if it is there, and leaves min_vruntime_ alone. */
  lemma {:induction false} DequeueValid(r: Rq, e: Ent)
    requires Valid(r)
    ensures Valid(Dequeue(r, e)) && Dequeue(r, e).min == r.min
    ensures e in r.q ==> multiset(Dequeue(r, e).q) + multiset{e} == multiset(r.q) && !Holds(Dequeue(r, e).q, e.addr)
    ensures e !in r.q ==> Dequeue(r, e).q == r.q
  {
    if k :| 0 <= k < |r.q| && r.q[k] == e {
      EraseIsSplit(r.q, k);
      DropAt(r.q, k);
      SplitMultiset(r.q, k);
    } else {
      EraseAbsent(r.q, e);
    }
  }

  /** EnqueueTask lowers neither the queue's minimum nor the task's own vruntime. */
  lemma {:induction false} EnqueueMonotone(r: Rq, e: Ent)
    requires Valid(r) && (e in r.q || !Holds(r.q, e.addr))
    ensures Valid(Enqueue(r, e)) && Enqueue(r, e).min >= r.min
    ensures exists x :: x in Enqueue(r, e).q && x.addr == e.addr && x.v == Max(r.min, e.v)
    ensures e.v >= r.min ==> e in Enqueue(r, e).q
    ensures !Holds(r.q, e.addr) ==>
      multiset(Enqueue(r, e).q) == multiset(r.q) + multiset{e.(v := Max(r.min, e.v))}
    ensures Enqueue(r, e).min <= Max(r.min, e.v)
  {
    var x := e.(v := Max(r.min, e.v));
    if e in r.q {
      assert Less(r.q[0], e) || r.q[0] == e;
      assert x == e;
    }
    if !Holds(r.q, e.addr) { AbsentByAddress(r.q, x); }
    InsertTaskValid(r, x);
    InsertSpec(r.q, x);
    assert x in multiset(Insert(r.q, x));
    var y := Insert(r.q, x)[0];
    assert y in multiset(Insert(r.q, x));
    if y != x {
      assert y in r.q;
      LeastFirst(r.q, y);
    }
  }

  lemma {:induction false} UpdateMinMonotone(r: Rq, cur: Option<int>)
    requires Valid(r)
    ensures Valid(UpdateMin(r, cur)) && UpdateMin(r, cur).min >= r.min
    ensures cur.Some? && r.min <= cur.value ==> UpdateMin(r, cur).min <= cur.value
  {
  }

  /** A vruntime that counts for min_vruntime_: that of a queued task, or of a current one that can run. */
  predicate Contends(r: Rq, cur: Option<int>, v: int) {
    cur == Some(v) || exists i :: 0 <= i < |r.q| && r.q[i].v == v
  }

  /** UpdateMinVruntime raises min_vruntime_ to the least vruntime in contention, if there is one above it. */
  lemma {:induction false} UpdateMinExact(r: Rq, cur: Option<int>)
    requires Valid(r)
    ensures UpdateMin(r, cur).q == r.q
    ensures r.q == [] && cur == None ==> UpdateMin(r, cur).min == r.min
    ensures r.q != [] || cur.Some? ==>
      exists m :: Contends(r, cur, m) && (forall v :: Contends(r, cur, v) ==> m <= v)
                  && UpdateMin(r, cur).min == Max(r.min, m)
  {
    var m := match cur
      case Some(c) => if r.q == [] then c else Min(c, r.q[0].v)
      case None => if r.q == [] then r.min else r.q[0].v;
    if r.q != [] || cur.Some? {
      assert Contends(r, cur, m);
      forall v | Contends(r, cur, v) ensures m <= v {
        if i :| 0 <= i < |r.q| && r.q[i].v == v {
          LeastFirst(r.q, r.q[i]);
        }
      }
    }
  }

  lemma {:induction false} TailValid(q: seq<Ent>, min: int)
    requires Valid(Rq(q, min)) && q != []
    ensures Valid(Rq(q[1..], min))
  {
    assert |q| > 1 ==> Less(q[0], q[1]);
  }

  /** The tasks PickNextTask chooses from: the queue, and prev if it can still run. */
  function Pool(r: Rq, prev: Option<Prev>): multiset<Ent> {
    if CurrentV(prev).Some? then multiset(r.q) + multiset{prev.value.e} else multiset(r.q)
  }

  lemma {:induction false} AbsentByAddress(q: seq<Ent>, e: Ent)
    requires !Holds(q, e.addr)
    ensures e !in q
  {
  }

  lemma {:induction false} PutBackMultiset(r: Rq, prev: Option<Prev>)
    requires Sorted(r.q) && (prev.Some? ==> prev.value.e !in r.q)
    ensures multiset(PutBack(r, prev).q) == Pool(r, prev)
  {
    if prev.Some? {
      var e := prev.value.e;
      if CurrentV(prev).Some? {
        InsertMultiset(r.q, e);
      } else {
        EraseAbsent(r.q, e);
      }
    }
  }

  lemma {:induction false} PutBackValid(r: Rq, prev: Option<Prev>)
    requires Valid(r) && (prev.Some? ==> !Holds(r.q, prev.value.e.addr))
    ensures Valid(PutBack(r, prev))
  {
    if prev.Some? {
      if prev.value.run == Done {
        AbsentByAddress(r.q, prev.value.e);
        EraseAbsent(r.q, prev.value.e);
      } else if prev.value.run != Blocked {
        InsertTaskValid(r, prev.value.e);
      }
    }
  }

  /**
   The task picked is the least of the queue together with a previous task that can still run;
   nothing else enters or leaves the queue, and what remains is in order above the new minimum.
   */
  lemma {:induction false} PickSpec(r: Rq, prev: Option<Prev>)
    requires Valid(r) && (prev.Some? ==> !Holds(r.q, prev.value.e.addr))
    ensures Valid(Pick(r, prev).0)
    ensures Pick(r, prev).1 == None <==> Pool(r, prev) == multiset{}
    ensures Pick(r, prev).1 == None ==> Pick(r, prev).0.q == []
    ensures Pick(r, prev).1.Some? ==> var e := Pick(r, prev).1.value;
      && multiset(Pick(r, prev).0.q) + multiset{e} == Pool(r, prev)
      && forall x :: x in Pool(r, prev) ==> e.v < x.v || (e.v == x.v && e.addr <= x.addr)
  {
    if prev.Some? { AbsentByAddress(r.q, prev.value.e); }
    PutBackMultiset(r, prev);
    PutBackValid(r, prev);
    var r1 := PutBack(r, prev);
    if r1.q == [] {
      UpdateMinMonotone(r1, CurrentV(prev));
    } else {
      TakeFirst(r1);
      UpdateMinMonotone(r1.(q := r1.q[1..]), CurrentV(prev));
    }
  }

  ghost predicate IsLeastV(pool: multiset<Ent>, v: int) {
    (forall x :: x in pool ==> v <= x.v) && exists x :: x in pool && x.v == v
  }

  ghost predicate IsLeastContending(r: Rq, cur: Option<int>, m: int) {
    Contends(r, cur, m) && forall v :: Contends(r, cur, v) ==> m <= v
  }

  /** min_vruntime_ once a previous task that can run is back in the queue. */
  ghost predicate IsBase(r: Rq, prev: Option<Prev>, base: int) {
    if CurrentV(prev).Some? then IsLeastV(Pool(r, prev), base) else base == r.min
  }

  lemma {:induction false} PutBackMin(r: Rq, prev: Option<Prev>)
    requires Valid(r) && (prev.Some? ==> !Holds(r.q, prev.value.e.addr))
    ensures IsBase(r, prev, PutBack(r, prev).min)
  {
    if prev.Some? {
      var e := prev.value.e;
      AbsentByAddress(r.q, e);
      PutBackMultiset(r, prev);
      if CurrentV(prev).Some? {
        InsertSpec(r.q, e);
        var r1 := InsertTask(r, e);
        assert r1.q[0] in multiset(r1.q);
        forall x | x in Pool(r, prev) ensures r1.min <= x.v { assert x in r.q || x == e; }
      }
    }
  }

  /**
   PickNextTask sets min_vruntime_ to the least vruntime in contention among what it leaves, unless it is
   higher already; where prev goes back it first drops to the least of all tasks it chooses from.
   */
  lemma {:induction false} PickMin(r: Rq, prev: Option<Prev>)
    requires Valid(r) && (prev.Some? ==> !Holds(r.q, prev.value.e.addr))
    ensures var r', cur := Pick(r, prev).0, CurrentV(prev);
      exists base :: IsBase(r, prev, base) &&
        if r'.q == [] && cur == None then r'.min == base
        else exists m :: IsLeastContending(r', cur, m) && r'.min == Max(base, m)
  {
    PutBackMin(r, prev);
    PutBackValid(r, prev);
    var r1 := PutBack(r, prev);
    var r2 := if r1.q == [] then r1 else r1.(q := r1.q[1..]);
    if r1.q != [] { TakeFirst(r1); }
    UpdateMinExact(r2, CurrentV(prev));
    var r' := Pick(r, prev).0;
    assert r' == UpdateMin(r2, CurrentV(prev));
    if r'.q != [] || CurrentV(prev).Some? {
      var m :| Contends(r2, CurrentV(prev), m) && (forall v :: Contends(r2, CurrentV(prev), v) ==> m <= v)
               && r'.min == Max(r2.min, m);
      assert forall v :: Contends(r', CurrentV(prev), v) <==> Contends(r2, CurrentV(prev), v);
      assert IsLeastContending(r', CurrentV(prev), m);
    }
    assert IsBase(r, prev, r1.min);
  }

  lemma {:induction false} TakeFirst(r: Rq)
    requires Valid(r) && r.q != []
    ensures Valid(r.(q := r.q[1..]))
    ensures multiset(r.q[1..]) + multiset{r.q[0]} == multiset(r.q) && multiset(r.q) != multiset{}
    ensures forall x :: x in multiset(r.q) ==> x == r.q[0] || Less(r.q[0], x)
  {
    assert r.q == [r.q[0]] + r.q[1..];
    TailValid(r.q, r.min);
    forall x | x in multiset(r.q) ensures x == r.q[0] || Less(r.q[0], x) { LeastFirst(r.q, x); }
  }

  //---------------------------------------------------------------------------
  // When min_vruntime_ goes back
  //---------------------------------------------------------------------------

  /** Putting the previous task back lowers min_vruntime_ exactly if it can run and its vruntime is below. */
  lemma {:induction false} PutBackLowersMinIff(r: Rq, prev: Option<Prev>)
    requires Valid(r) && (prev.Some? ==> !Holds(r.q, prev.value.e.addr))
    ensures PutBack(r, prev).min < r.min <==> CurrentV(prev).Some? && prev.value.e.v < r.min
  {
    if CurrentV(prev).Some? {
      var e := prev.value.e;
      InsertTaskValid(r, e);
      InsertSorted(r.q, e);
      var x := Insert(r.q, e)[0];
      assert x in Insert(r.q, e);
      if x != e { LeastFirst(r.q, x); }
    }
  }

  /** Of several tasks to choose from, one that is not prev has a smaller vruntime than all the others. */
  ghost predicate QueuedTaskLeads(r: Rq, prev: Option<Prev>) {
    exists e :: e in Pool(r, prev) && Leads(r, prev, e)
  }

  ghost predicate Leads(r: Rq, prev: Option<Prev>, e: Ent) {
    && (CurrentV(prev).Some? ==> e != prev.value.e)
    && |Pool(r, prev)| > 1
    && forall x :: x in Pool(r, prev) && x != e ==> e.v < x.v
  }

  /**
   Why it can be below: UpdateMinVruntime looks at cs->current, which is still the previous task, and
   at the queue, from which the new one has been taken.  So PickNextTask leaves min_vruntime_ above
   the task it picks exactly if that is not prev and has a smaller vruntime than all the others.
   */
  lemma {:induction false} PickLeavesMinAboveIff(r: Rq, prev: Option<Prev>)
    requires Valid(r) && (prev.Some? ==> !Holds(r.q, prev.value.e.addr))
    requires Pick(r, prev).1.Some?
    ensures Pick(r, prev).0.min > Pick(r, prev).1.value.v <==> QueuedTaskLeads(r, prev)
  {
    if prev.Some? { AbsentByAddress(r.q, prev.value.e); }
    PutBackMultiset(r, prev);
    PutBackValid(r, prev);
    var q, e := PutBack(r, prev).q, Pick(r, prev).1.value;
    MinAfterPick(r, prev);
    var pool := Pool(r, prev);
    LeadsInOrder(q, pool, e);
    assert e in pool by { assert e in multiset(q); }
    if x :| x in pool && Leads(r, prev, x) {
      OnlyFirstLeads(q, pool, x);
      assert x == e;
    }
  }

  lemma {:induction false} OnlyFirstLeads(q: seq<Ent>, pool: multiset<Ent>, x: Ent)
    requires Sorted(q) && q != [] && multiset(q) == pool && x in pool
    requires forall y :: y in pool && y != x ==> x.v < y.v
    ensures x == q[0]
  {
    assert q[0] in pool && x in q;
    LeastFirst(q, x);
  }

  /** In an ordered queue the first entry leads if the second has a larger vruntime. */
  lemma {:induction false} LeadsInOrder(q: seq<Ent>, pool: multiset<Ent>, e: Ent)
    requires Sorted(q) && q != [] && e == q[0] && multiset(q) == pool
    ensures |pool| == |q|
    ensures |q| > 1 ==> ((forall x :: x in pool && x != e ==> e.v < x.v) <==> q[1].v > e.v)
  {
    if |q| > 1 {
      assert Less(q[0], q[1]) && q[1] in pool;
      forall x | x in pool && x != e && q[1].v > e.v ensures e.v < x.v {
        var i :| 0 <= i < |q| && q[i] == x;
        assert i > 1 ==> Less(q[1], q[i]);
      }
    }
  }

  lemma {:induction false} MinAfterPick(r: Rq, prev: Option<Prev>)
    requires Valid(r) && (prev.Some? ==> !Holds(r.q, prev.value.e.addr))
    requires Pick(r, prev).1.Some?
    ensures var q, e := PutBack(r, prev).q, Pick(r, prev).1.value;
      && q != [] && e == q[0]
      && (Pick(r, prev).0.min > e.v <==>
          |q| > 1 && q[1].v > e.v && (CurrentV(prev).Some? ==> e != prev.value.e))
  {
    PutBackValid(r, prev);
    var r1 := PutBack(r, prev);
    assert r1.min <= r1.q[0].v;
    if CurrentV(prev).Some? {
      InsertSorted(r.q, prev.value.e);
      assert prev.value.e in r1.q;
      if |r1.q| > 1 && prev.value.e != r1.q[0] {
        assert r1.q == [r1.q[0]] + r1.q[1..];
        assert Less(r1.q[0], r1.q[1]);
        TailLeast(r1.q, prev.value.e);
      }
    }
  }

  lemma {:induction false} TailLeast(q: seq<Ent>, x: Ent)
    requires Sorted(q) && |q| > 1 && x in q && x != q[0]
    ensures q[1].v <= x.v
  {
    var i :| 0 <= i < |q| && q[i] == x;
    assert i > 1 ==> Less(q[1], q[i]);
  }

  /** What the preempted task then does to min_vruntime_, however long it ran. */
  lemma {:induction false} PreemptionLowersMinIff(r: Rq, prev: Option<Prev>, delta: nat)
    requires Valid(r) && (prev.Some? ==> !Holds(r.q, prev.value.e.addr))
    requires Pick(r, prev).1.Some?
    ensures var (r', task) := Pick(r, prev);
      PutBack(r', Some(Prev(task.value.(v := task.value.v + delta), Running))).min < r'.min
      <==> delta < r'.min - task.value.v
  {
    var (r', task) := Pick(r, prev);
    var e := task.value;
    assert Valid(r') by { PickSpec(r, prev); }
    assert !Holds(r'.q, e.addr) by { PickedIsGone(r, prev); }
    PutBackLowersMinIff(r', Some(Prev(e.(v := e.v + delta), Running)));
  }

  lemma {:induction false} PickedIsGone(r: Rq, prev: Option<Prev>)
    requires Valid(r) && (prev.Some? ==> !Holds(r.q, prev.value.e.addr))
    requires Pick(r, prev).1.Some?
    ensures !Holds(Pick(r, prev).0.q, Pick(r, prev).1.value.addr)
  {
    PutBackValid(r, prev);
    var q := PutBack(r, prev).q;
    forall i | 0 <= i < |q[1..]| ensures q[1..][i].addr != q[0].addr {
      assert q[1..][i] == q[i + 1];
    }
  }

  /** From an empty queue: two tasks arrive, the first is picked, preempted and put back. */
  lemma {:induction false} MinGoesBack()
    ensures var r1 := Enqueue(Rq([], 0), Ent(5, 1));
      var r2 := Enqueue(r1, Ent(9, 2));
      var (r3, task) := Pick(r2, None);
      var r4 := PutBack(r3, Some(Prev(Ent(6, 1), Running)));
      task == Some(Ent(5, 1)) && r3.min == 9 && r4.min == 6
  {
    assert Insert([Ent(5, 1)], Ent(9, 2)) == [Ent(5, 1), Ent(9, 2)];
    assert Insert([Ent(9, 2)], Ent(6, 1)) == [Ent(6, 1), Ent(9, 2)];
  }

  //---------------------------------------------------------------------------
  // DetachTasks
  //---------------------------------------------------------------------------

  /**
   The loop of CfsRq::DetachTasks: `kept` has been passed over, `rest` is still to come, `elig`
   are the addresses of the tasks CanMigrateTask accepts.  Result: what stays, what is taken.
   */
  function Detach(kept: seq<Ent>, rest: seq<Ent>, elig: set<int>, n: int): (seq<Ent>, seq<Ent>)
    decreases rest
  {
    if rest == [] || |kept| + |rest| <= 1 || n <= 0 then (kept + rest, [])
    else if rest[0].addr in elig then
      var (k, t) := Detach(kept, rest[1..], elig, n - 1);
      (k, [rest[0]] + t)
    else Detach(kept + [rest[0]], rest[1..], elig, n)
  }

  function Eligible(q: seq<Ent>, elig: set<int>): seq<Ent> {
    if q == [] then [] else (if q[0].addr in elig then [q[0]] else []) + Eligible(q[1..], elig)
  }

  /** q without its first m eligible entries. */
  function Without(q: seq<Ent>, elig: set<int>, m: nat): seq<Ent> {
    if q == [] || m == 0 then q
    else if q[0].addr in elig then Without(q[1..], elig, m - 1)
    else [q[0]] + Without(q[1..], elig, m)
  }

  /** How many tasks DetachTasks takes: as asked, as many as may go, and never the last one. */
  function DetachCount(size: nat, eligible: nat, n: int): nat {
    Max(0, Min(n, Min(eligible, size - 1)))
  }

  lemma {:induction false} DetachIs(kept: seq<Ent>, rest: seq<Ent>, elig: set<int>, n: int)
    ensures |Eligible(rest, elig)| <= |rest|
    ensures var m := DetachCount(|kept| + |rest|, |Eligible(rest, elig)|, n);
      Detach(kept, rest, elig, n) == (kept + Without(rest, elig, m), Eligible(rest, elig)[..m])
    decreases rest
  {
    if rest == [] || |kept| + |rest| <= 1 || n <= 0 {
      EligibleShorter(rest, elig);
      assert Without(rest, elig, 0) == rest;
    } else if rest[0].addr in elig {
      DetachIs(kept, rest[1..], elig, n - 1);
      var m := DetachCount(|kept| + |rest|, |Eligible(rest, elig)|, n);
      assert m == 1 + DetachCount(|kept| + |rest| - 1, |Eligible(rest[1..], elig)|, n - 1);
      assert Eligible(rest, elig)[..m] == [rest[0]] + Eligible(rest[1..], elig)[..m - 1];
    } else {
      DetachIs(kept + [rest[0]], rest[1..], elig, n);
      var m := DetachCount(|kept| + |rest|, |Eligible(rest, elig)|, n);
      assert Eligible(rest, elig) == Eligible(rest[1..], elig);
      if m == 0 {
        assert kept + [rest[0]] + rest[1..] == kept + rest;
      } else {
        assert kept + [rest[0]] + Without(rest[1..], elig, m) == kept + ([rest[0]] + Without(rest[1..], elig, m));
      }
    }
  }

  lemma {:induction false} EligibleShorter(q: seq<Ent>, elig: set<int>)
    ensures |Eligible(q, elig)| <= |q|
    ensures forall x :: x in Eligible(q, elig) <==> x in q && x.addr in elig
  {
    if q != [] {
      EligibleShorter(q[1..], elig);
      assert q == [q[0]] + q[1..];
    }
  }

  lemma {:induction false} ConsSplits(x: Ent, w: seq<Ent>, e: seq<Ent>, rest: seq<Ent>)
    requires multiset(w) + multiset(e) == multiset(rest)
    ensures multiset([x] + w) + multiset(e) == multiset([x] + rest)
    ensures multiset(w) + multiset([x] + e) == multiset([x] + rest)
  {
  }

  /** The first m eligible entries, one by one. */
  function First(q: seq<Ent>, elig: set<int>, m: nat): seq<Ent> {
    if q == [] || m == 0 then []
    else if q[0].addr in elig then [q[0]] + First(q[1..], elig, m - 1)
    else First(q[1..], elig, m)
  }

  lemma {:induction false} FirstIsPrefix(q: seq<Ent>, elig: set<int>, m: nat)
    requires m <= |Eligible(q, elig)|
    ensures First(q, elig, m) == Eligible(q, elig)[..m]
  {
    if q != [] && m > 0 {
      FirstIsPrefix(q[1..], elig, if q[0].addr in elig then m - 1 else m);
    }
  }

  lemma {:induction false} WithoutSplits(q: seq<Ent>, elig: set<int>, m: nat)
    ensures multiset(Without(q, elig, m)) + multiset(First(q, elig, m)) == multiset(q)
  {
    if q != [] && m > 0 {
      var rest := q[1..];
      var l := if q[0].addr in elig then m - 1 else m;
      WithoutSplits(rest, elig, l);
      ConsSplits(q[0], Without(rest, elig, l), First(rest, elig, l), rest);
      assert q == [q[0]] + rest;
    }
  }

  lemma {:induction false} WithoutSorted(q: seq<Ent>, elig: set<int>, m: nat)
    requires Sorted(q) && Distinct(q)
    ensures Sorted(Without(q, elig, m)) && Distinct(Without(q, elig, m))
    ensures forall x :: x in Without(q, elig, m) ==> x in q
  {
    if q != [] && m > 0 {
      if q[0].addr in elig {
        WithoutSorted(q[1..], elig, m - 1);
      } else {
        WithoutSorted(q[1..], elig, m);
        var r := Without(q[1..], elig, m);
        forall i | 0 <= i < |r| ensures Less(q[0], r[i]) && q[0].addr != r[i].addr {
          assert r[i] in r;
          var j :| 0 <= j < |q[1..]| && q[1..][j] == r[i];
          assert q[j + 1] == r[i];
        }
      }
    }
  }

  /**
   DetachTasks takes the first eligible tasks in vruntime order, as many as asked and possible,
   never empties a non-empty queue, and leaves a valid queue of exactly the other tasks.
   */
  lemma {:induction false} DetachSpec(r: Rq, elig: set<int>, n: int)
    requires Valid(r)
    ensures |Eligible(r.q, elig)| <= |r.q|
    ensures var (kept, taken) := Detach([], r.q, elig, n);
      var m := DetachCount(|r.q|, |Eligible(r.q, elig)|, n);
      && taken == Eligible(r.q, elig)[..m]
      && multiset(kept) + multiset(taken) == multiset(r.q)
      && |kept| + |taken| == |r.q|
      && (r.q != [] ==> kept != [])
      && (forall x :: x in taken ==> x.addr in elig)
      && Valid(Rq(kept, r.min))
  {
    var (kept, taken) := Detach([], r.q, elig, n);
    var m := DetachCount(|r.q|, |Eligible(r.q, elig)|, n);
    DetachResult(r.q, elig, n);
    assert multiset(kept) + multiset(taken) == multiset(r.q) && |kept| + |taken| == |r.q| by {
      SplitAt(r.q, elig, m);
    }
    assert Valid(Rq(kept, r.min)) by { WithoutValid(r, elig, m); }
    assert forall x :: x in taken ==> x.addr in elig by { EligibleShorter(r.q, elig); }
  }

  lemma {:induction false} DetachResult(q: seq<Ent>, elig: set<int>, n: int)
    ensures |Eligible(q, elig)| <= |q|
    ensures var m := DetachCount(|q|, |Eligible(q, elig)|, n);
      Detach([], q, elig, n) == (Without(q, elig, m), Eligible(q, elig)[..m])
  {
    DetachIs([], q, elig, n);
    var m := DetachCount(|q|, |Eligible(q, elig)|, n);
    assert [] + Without(q, elig, m) == Without(q, elig, m);
  }

  lemma {:induction false} SplitAt(q: seq<Ent>, elig: set<int>, m: nat)
    requires m <= |Eligible(q, elig)|
    ensures multiset(Without(q, elig, m)) + multiset(Eligible(q, elig)[..m]) == multiset(q)
    ensures |Without(q, elig, m)| + m == |q|
  {
    WithoutSplits(q, elig, m);
    FirstIsPrefix(q, elig, m);
    assert |multiset(Without(q, elig, m))| + |multiset(First(q, elig, m))| == |multiset(q)|;
  }

  lemma {:induction false} WithoutValid(r: Rq, elig: set<int>, m: nat)
    requires Valid(r)
    ensures Valid(Rq(Without(r.q, elig, m), r.min))
  {
    WithoutSorted(r.q, elig, m);
    var kept := Without(r.q, elig, m);
    if kept != [] {
      assert kept[0] in r.q;
      LeastFirst(r.q, kept[0]);
    }
  }
}
