/**
 CfsRq as an object.  The ordered set rq_ is a sequence of tasks that the methods keep in order;
 each method is tied to the function of module RunQueue (or LoadBalance) that specifies it.
 Locks are held throughout, so every method is one atomic step.
 */
module CfsRunQueueObject {
  import opened Common
  import opened CfsTaskState
  import opened RunQueue
  import LoadBalance

  class CfsTask {
    const addr: int
    var vruntime: int
    var cpu: Cpu
    var run: RunState
    var onRq: OnRq

    constructor (addr: int, cpu: Cpu)
      ensures this.addr == addr && this.cpu == cpu && vruntime == 0 && run == Blocked && onRq == Dequeued
    {
      this.addr, this.cpu := addr, cpu;
      vruntime, run, onRq := 0, Blocked, Dequeued;
    }

    function Key(): Ent
      reads this`vruntime
    {
      Ent(vruntime, addr)
    }
  }

  class CpuState {
    const id: Cpu
    var current: CfsTask?
    var preemptCurr: bool

    constructor (id: Cpu)
      ensures this.id == id && current == null && !preemptCurr
    {
      this.id := id;
      current, preemptCurr := null, false;
    }
  }

  function Keys(tasks: seq<CfsTask>): (keys: seq<Ent>)
    reads tasks`vruntime
    ensures |keys| == |tasks|
    ensures forall i :: 0 <= i < |tasks| ==> keys[i] == tasks[i].Key()
  {
    if tasks == [] then [] else [tasks[0].Key()] + Keys(tasks[1..])
  }

  function AsPrev(prev: CfsTask?): Option<Prev>
    reads prev
  {
    if prev == null then None else Some(Prev(prev.Key(), prev.run))
  }

  /** A key that goes between two parts of a sorted queue. */
  lemma {:induction false} InsertBetween(a: seq<Ent>, e: Ent, b: seq<Ent>)
    requires forall i :: 0 <= i < |a| ==> a[i] != e && !Less(e, a[i])
    requires b != [] ==> b[0] != e && Less(e, b[0])
    ensures Insert(a + b, e) == a + [e] + b
  {
    if a == [] {
      assert a + b == b && a + [e] + b == [e] + b;
    } else {
      InsertBetween(a[1..], e, b);
      assert (a + b)[1..] == a[1..] + b;
    }
  }

  /** Where rq_.insert puts a task that is not there. */
  method FindSlot(rq: seq<CfsTask>, task: CfsTask) returns (k: nat)
    requires !Holds(Keys(rq), task.addr)
    ensures k <= |rq|
    ensures Insert(Keys(rq), task.Key()) == Keys(rq)[..k] + [task.Key()] + Keys(rq)[k..]
  {
    ghost var q, e := Keys(rq), task.Key();
    k := 0;
    while k < |rq| && Less(rq[k].Key(), task.Key())
      invariant k <= |rq|
      invariant forall i :: 0 <= i < k ==> Less(q[i], e)
    {
      k := k + 1;
    }
    SlotIs(q, e, k);
  }

  lemma {:induction false} SlotIs(q: seq<Ent>, e: Ent, k: nat)
    requires k <= |q| && !Holds(q, e.addr)
    requires forall i :: 0 <= i < k ==> Less(q[i], e)
    requires k < |q| ==> !Less(q[k], e)
    ensures Insert(q, e) == q[..k] + [e] + q[k..]
  {
    if k < |q| { assert q[k].addr != e.addr; }
    InsertBetween(q[..k], e, q[k..]);
    assert q == q[..k] + q[k..];
  }

  /** Where rq_.erase finds a task; the length if it is not there. */
  method FindTask(rq: seq<CfsTask>, task: CfsTask) returns (k: nat)
    requires Sorted(Keys(rq)) && ByAddress(rq, task)
    ensures k <= |rq| && (k < |rq| <==> task in rq) && (k < |rq| ==> rq[k] == task)
    ensures Erase(Keys(rq), task.Key()) == if k < |rq| then Keys(rq)[..k] + Keys(rq)[k + 1..] else Keys(rq)
  {
    ghost var q, e := Keys(rq), task.Key();
    k := 0;
    while k < |rq| && rq[k].Key() != task.Key()
      invariant k <= |rq|
      invariant forall i :: 0 <= i < k ==> q[i] != e
    {
      k := k + 1;
    }
    if k < |rq| {
      EraseIsSplit(q, k);
    } else {
      EraseAbsent(q, e);
      assert forall i :: 0 <= i < |rq| ==> q[i] == rq[i].Key();
    }
  }

  /** Objects are told apart by their addresses. */
  predicate ByAddress(rq: seq<CfsTask>, task: CfsTask) {
    forall i :: 0 <= i < |rq| && rq[i].addr == task.addr ==> rq[i] == task
  }

  class CfsRq {
    var rq: seq<CfsTask>
    var rqSize: nat
    var minVruntime: int

    ghost function Abs(): Rq
      reads this, rq`vruntime
    {
      Rq(Keys(rq), minVruntime)
    }

    ghost predicate Valid()
      reads this, rq
    {
      && RunQueue.Valid(Abs())
      && rqSize == |rq|
      && forall t :: t in rq ==> t.onRq == Queued
    }

    constructor ()
      ensures Valid() && Abs() == Rq([], 0)
    {
      rq, rqSize, minVruntime := [], 0, 0;
    }

    /** rq_.insert. */
    method SetInsert(task: CfsTask)
      requires !Holds(Keys(rq), task.addr)
      modifies this`rq
      ensures Keys(rq) == Insert(old(Keys(rq)), task.Key()) && Keys(rq)[0].v == rq[0].vruntime
      ensures multiset(rq) == old(multiset(rq)) + multiset{task}
      ensures forall t :: t in rq ==> t == task || t in old(rq)
    {
      var k := FindSlot(rq, task);
      Spliced(rq, rq[..k] + [task] + rq[k..], task, k);
      rq := rq[..k] + [task] + rq[k..];
    }

    method InsertTaskIntoRq(task: CfsTask)
      requires Valid() && !Holds(Keys(rq), task.addr)
      requires task.onRq in FromOnRq(Queued)
      modifies this, task`onRq
      ensures Valid() && Abs() == InsertTask(old(Abs()), task.Key())
      ensures multiset(rq) == old(multiset(rq)) + multiset{task}
      ensures forall t :: t in rq ==> t == task || t in old(rq)
    {
      ghost var was := Abs();
      SetInsert(task);
      ghost var keys := Keys(rq);
      task.onRq, rqSize, minVruntime := Queued, |rq|, rq[0].vruntime;
      KeysAre(rq, keys);
      assert Abs() == InsertTask(was, task.Key());
      InsertTaskValid(was, task.Key());
    }
  
    method EnqueueTask(task: CfsTask)
      requires Valid() && !Holds(Keys(rq), task.addr)
      requires task.onRq in FromOnRq(Queued)
      modifies this, task`onRq, task`vruntime
      ensures Valid() && Abs() == Enqueue(old(Abs()), old(task.Key()))
      ensures multiset(rq) == old(multiset(rq)) + multiset{task}
      ensures task.vruntime == Max(old(minVruntime), old(task.vruntime)) && minVruntime >= old(minVruntime)
    {
      NotQueued(rq, task);
      EnqueueMonotone(Abs(), task.Key());
      ghost var keys := Keys(rq);
      task.vruntime := Max(minVruntime, task.vruntime);
      KeysAre(rq, keys);
      InsertTaskIntoRq(task);
    }

    /** rq_.erase of the task at position i, with what goes with it. */
    method EraseAt(i: nat, task: CfsTask)
      requires Valid() && i < |rq| && task == rq[i]
      modifies this, task`onRq
      ensures Valid() && task.onRq == Dequeued
      ensures Abs() == old(Abs()).(q := old(Abs()).q[..i] + old(Abs()).q[i + 1..])
      ensures forall t :: t in rq ==> t in old(rq) && t != task
    {
      Dropped(rq, minVruntime, i);
      ghost var was := Abs();
      var rest := rq[..i] + rq[i + 1..];
      ghost var keys := Keys(rest);
      rq, rqSize, task.onRq := rest, |rq| - 1, Dequeued;
      KeysAre(rq, keys);
      assert Abs() == was.(q := keys);
    }

    method DequeueTask(task: CfsTask)
      requires Valid() && ByAddress(rq, task)
      modifies this, task`onRq
      ensures Valid() && Abs() == Dequeue(old(Abs()), task.Key())
      ensures task in old(rq) ==> task.onRq == Dequeued && task !in rq
      ensures task !in old(rq) ==> task.onRq == old(task.onRq) && rq == old(rq)
      ensures forall t :: t in rq ==> t in old(rq)
    {
      ghost var was, e := Abs(), task.Key();
      var k := FindTask(rq, task);
      if k < |rq| {
        EraseAt(k, task);
      }
    }

    method UpdateMinVruntime(cs: CpuState)
      requires Valid()
      modifies this`minVruntime
      ensures Valid() && Abs() == UpdateMin(old(Abs()), Contender(cs)) && minVruntime >= old(minVruntime)
    {
      ghost var was := Abs();
      assert rq != [] ==> Keys(rq)[0] == rq[0].Key();
      var curr := cs.current;
      var vruntime := minVruntime;
      if curr != null {
        if curr.run == Runnable || curr.run == Running {
          vruntime := curr.vruntime;
        } else {
          curr := null;
        }
      }
      if rq != [] {
        vruntime := if curr == null then rq[0].vruntime else Min(vruntime, rq[0].vruntime);
      }
      minVruntime := Max(minVruntime, vruntime);
      assert Abs() == UpdateMin(was, Contender(cs));
      UpdateMinMonotone(was, Contender(cs));
    }

    /** What PickNextTask does with prev before it picks. */
    method Reconcile(prev: CfsTask)
      requires Valid() && !Holds(Keys(rq), prev.addr) && prev.onRq == Dequeued
      modifies this, prev`onRq, prev`run
      ensures Valid() && Abs() == PutBack(old(Abs()), old(AsPrev(prev)))
      ensures prev.run == if old(prev.run) == Running then Runnable else old(prev.run)
      ensures forall t :: t in rq ==> t == prev || t in old(rq)
      ensures prev in rq ==> prev.run == Runnable
    {
      NotQueued(rq, prev);
      if prev.run == Done {
        ByAddressIfAbsent(rq, prev);
        DequeueTask(prev);
      } else if prev.run == Runnable {
        InsertTaskIntoRq(prev);
      } else if prev.run == Running {
        InsertTaskIntoRq(prev);
        ghost var keys := Keys(rq);
        prev.run := Runnable;
        KeysAre(rq, keys);
      }
    }

    /** The leftmost task becomes the running one. */
    method RunLeftmost(next: CfsTask)
      requires Valid() && rq != [] && next == rq[0]
      modifies this, next`onRq, next`run
      ensures Valid() && next.Key() == old(Abs()).q[0] && Abs() == old(Abs()).(q := old(Abs()).q[1..])
      ensures next.run == Running && next.onRq == Dequeued
    {
      assert Keys(rq)[0] == next.Key();
      ByAddressIfPresent(rq, next);
      DequeueTask(next);
      ghost var keys := Keys(rq);
      next.run := Running;
      KeysAre(rq, keys);
    }

    /** The end of PickNextTask. */
    method PickLeftmost(cs: CpuState) returns (next: CfsTask?)
      requires Valid()
      modifies this, if rq == [] then {} else {rq[0]}
      ensures Valid()
      ensures Contender(cs) == old(if rq != [] && cs.current == rq[0] then Some(rq[0].vruntime) else Contender(cs))
      ensures old(rq) == [] ==> next == null && Abs() == UpdateMin(old(Abs()), Contender(cs))
      ensures old(rq) != [] ==> next == old(rq[0]) && next.Key() == old(Abs()).q[0]
      ensures old(rq) != [] ==> Abs() == UpdateMin(old(Abs()).(q := old(Abs()).q[1..]), Contender(cs))
      ensures next != null ==> next.run == Running && next.onRq == Dequeued
    {
      if rq == [] {
        UpdateMinVruntime(cs);
        return null;
      }
      next := rq[0];
      RunLeftmost(next);
      UpdateMinVruntime(cs);
    }

    /** PickNextTask when prev does not simply go on. */
    method PickOther(prev: CfsTask?, cs: CpuState) returns (next: CfsTask?)
      requires Valid() && (prev != null ==> cs.current == prev)
      requires cs.current != null && cs.current != prev ==>
        cs.current.run != Runnable && cs.current.run != Running && cs.current.onRq == Dequeued
      requires prev != null ==> !Holds(Keys(rq), prev.addr) && prev.onRq == Dequeued
      modifies this, cs`preemptCurr, rq, prev
      ensures Valid() && !cs.preemptCurr
      ensures Abs() == Pick(old(Abs()), old(AsPrev(prev))).0
      ensures (if next == null then None else Some(next.Key())) == Pick(old(Abs()), old(AsPrev(prev))).1
      ensures next != null ==> next.run == Running && next.onRq == Dequeued
      ensures next != null && next != prev ==> next in old(rq)
      ensures prev != null && next != prev ==> prev.run == if old(prev.run) == Running then Runnable else old(prev.run)
    {
      ghost var p := AsPrev(prev);
      cs.preemptCurr := false;
      if prev != null {
        Reconcile(prev);
      }
      assert rq != [] ==> rq[0] == prev || rq[0] in old(rq);
      assert rq != [] && cs.current == rq[0] ==> CurrentV(p) == Some(rq[0].vruntime);
      assert rq == [] || cs.current != rq[0] ==> CurrentV(p) == Contender(cs);
      next := PickLeftmost(cs);
    }

    /**
     PickNextTask.  prev is cs->current as it was left by the messages handled so far, or null when
     NewIdleBalance asks again: cs->current may then still be a previous task that cannot run.  A prev
     that is done is freed by the caller.
     */
    method PickNextTask(prev: CfsTask?, cs: CpuState) returns (next: CfsTask?)
      requires Valid() && (prev != null ==> cs.current == prev)
      requires cs.current != null && cs.current != prev ==>
        cs.current.run != Runnable && cs.current.run != Running && cs.current.onRq == Dequeued
      requires prev != null ==> !Holds(Keys(rq), prev.addr) && prev.onRq == Dequeued
      modifies this, cs`preemptCurr, rq, prev
      ensures Valid()
      ensures old(prev != null && prev.run == Running && !cs.preemptCurr) ==>
        next == prev && Abs() == old(Abs()) && rq == old(rq) && unchanged(prev)
      ensures !old(prev != null && prev.run == Running && !cs.preemptCurr) ==>
        && Abs() == Pick(old(Abs()), old(AsPrev(prev))).0
        && (if next == null then None else Some(next.Key())) == Pick(old(Abs()), old(AsPrev(prev))).1
        && !cs.preemptCurr
      ensures next != null ==> next.run == Running && next.onRq == Dequeued
      ensures next != null && next != prev ==> next in old(rq)
      ensures prev != null && next != prev ==> prev.run == if old(prev.run) == Running then Runnable else old(prev.run)
    {
      if prev != null && prev.run == Running && !cs.preemptCurr {
        return prev;
      }
      next := PickOther(prev, cs);
    }

    /** One step of the loop in DetachTasks: the task at position i goes to CPU dst. */
    method DetachOne(i: nat, task: CfsTask, dst: Cpu)
      requires Valid() && i < |rq| && task == rq[i]
      modifies this, task`cpu, task`onRq
      ensures Valid() && task.cpu == dst && task.onRq == Dequeued
      ensures Abs() == old(Abs()).(q := old(Abs()).q[..i] + old(Abs()).q[i + 1..])
      ensures forall t :: t in rq ==> t in old(rq) && t != task
    {
      ghost var keys := Keys(rq);
      task.cpu := dst;
      KeysAre(rq, keys);
      EraseAt(i, task);
    }

    /** The same, and the task is added to those already taken. */
    method TakeOne(i: nat, dst: Cpu, tasks: seq<CfsTask>, ghost was: seq<CfsTask>, ghost cpus: seq<Cpu>)
      returns (more: seq<CfsTask>)
      requires Valid() && i < |rq| && rq[i] in was
      requires Outgoing(tasks, was, dst) && OthersStay(tasks, was, cpus)
      modifies this, rq[i]
      ensures Valid() && Abs() == old(Abs()).(q := old(Abs()).q[..i] + old(Abs()).q[i + 1..])
      ensures forall t :: t in rq ==> t in old(rq)
      ensures Outgoing(more, was, dst) && OthersStay(more, was, cpus)
      ensures Keys(more) == old(Keys(tasks)) + [old(Abs()).q[i]]
    {
      var task := rq[i];
      assert Keys(rq)[i] == task.Key();
      SnocKeys(tasks, task);
      DetachOne(i, task, dst);
      more := tasks + [task];
    }

    /**
     DetachTasks; elig are the addresses of the tasks that CanMigrateTask accepts, because their
     affinity allows dst and the association with its channel succeeds.
     */
    method DetachTasks(dst: Cpu, n: int, elig: set<int>) returns (tasks: seq<CfsTask>)
      requires Valid()
      modifies this, rq
      ensures Valid() && minVruntime == old(minVruntime)
      ensures (Keys(rq), Keys(tasks)) == Detach([], old(Keys(rq)), elig, n)
      ensures Outgoing(tasks, old(rq), dst)
      ensures OthersStay(tasks, old(rq), old(Cpus(rq)))
    {
      ghost var all, kept, rest, taken := Keys(rq), [], Keys(rq), [];
      ghost var was, cpus := rq, Cpus(rq);
      tasks := [];
      var i := 0;
      while i < |rq| && |rq| > 1 && |tasks| < n
        invariant Valid() && minVruntime == old(minVruntime)
        invariant Keys(rq) == kept + rest && |kept| == i && Keys(tasks) == taken
        invariant Resume(kept, rest, taken, elig, n) == Resume([], all, [], elig, n)
        invariant Outgoing(tasks, was, dst) && OthersStay(tasks, was, cpus)
        invariant forall t :: t in rq ==> t in was
        decreases |rq| - i
      {
        assert Keys(rq)[i] == rq[i].Key() && rest[0] == Keys(rq)[i];
        ResumeStep(kept, rest, taken, elig, n);
        if rq[i].addr in elig {
          assert rq[i] in rq;
          tasks := TakeOne(i, dst, tasks, was, cpus);
          assert Keys(rq) == kept + rest[1..] by { MoveOne(kept, rest); }
          rest, taken := rest[1..], taken + [rest[0]];
        } else {
          assert (kept + [rest[0]]) + rest[1..] == kept + rest by { MoveOne(kept, rest); }
          i := i + 1;
          kept, rest := kept + [rest[0]], rest[1..];
        }
      }
      ResumeStop(kept, rest, taken, elig, n);
      ResumeStart(all, elig, n);
    }

    /** From position i on, the tasks still have the given keys and none of them is queued. */
    ghost predicate Pending(tasks: seq<CfsTask>, keys: seq<Ent>, i: nat)
      reads this, rq, tasks
    {
      && |keys| == |tasks| && Distinct(keys)
      && forall j :: i <= j < |tasks| ==>
        tasks[j].Key() == keys[j] && tasks[j].onRq in FromOnRq(Queued) && !Holds(Keys(rq), keys[j].addr)
    }

    method AttachOne(tasks: seq<CfsTask>, ghost keys: seq<Ent>, i: nat)
      requires Valid() && Pending(tasks, keys, i) && i < |tasks|
      modifies this, tasks[i]
      ensures Valid() && Pending(tasks, keys, i + 1) && Abs() == Enqueue(old(Abs()), keys[i])
      ensures multiset(rq) == old(multiset(rq)) + multiset{tasks[i]}
    {
      LoadBalance.EnqueueHolds(Abs(), keys[i]);
      EnqueueTask(tasks[i]);
    }

    method AttachTasks(tasks: seq<CfsTask>)
      requires Valid() && Pending(tasks, Keys(tasks), 0)
      modifies this, tasks
      ensures Valid() && Abs() == LoadBalance.Attach(old(Abs()), old(Keys(tasks)))
      ensures multiset(rq) == old(multiset(rq)) + multiset(tasks)
    {
      ghost var was, keys := Abs(), Keys(tasks);
      for i := 0 to |tasks|
        invariant Valid() && Pending(tasks, keys, i)
        invariant LoadBalance.Attach(Abs(), keys[i..]) == LoadBalance.Attach(was, keys)
        invariant multiset(rq) == old(multiset(rq)) + multiset(tasks[..i])
      {
        AttachNext(Abs(), keys, i);
        PrefixSnoc(tasks, i);
        AttachOne(tasks, keys, i);
      }
      assert tasks[..|tasks|] == tasks;
    }
  }

  function Cpus(tasks: seq<CfsTask>): (cpus: seq<Cpu>)
    reads tasks`cpu
    ensures |cpus| == |tasks| && forall i :: 0 <= i < |tasks| ==> cpus[i] == tasks[i].cpu
  {
    if tasks == [] then [] else [tasks[0].cpu] + Cpus(tasks[1..])
  }

  /** Tasks from a queue that are on their way to CPU dst. */
  ghost predicate Outgoing(tasks: seq<CfsTask>, queue: seq<CfsTask>, dst: Cpu)
    reads tasks
  {
    forall t :: t in tasks ==> t in queue && t.cpu == dst && t.onRq == Dequeued
  }

  /** All other tasks of the queue keep their CPU. */
  ghost predicate OthersStay(tasks: seq<CfsTask>, queue: seq<CfsTask>, cpus: seq<Cpu>)
    reads queue
  {
    |cpus| == |queue| && forall i :: 0 <= i < |queue| ==> queue[i] in tasks || queue[i].cpu == cpus[i]
  }

  lemma {:induction false} Dropped(rq: seq<CfsTask>, min: int, i: nat)
    requires RunQueue.Valid(Rq(Keys(rq), min)) && i < |rq|
    ensures var rest := rq[..i] + rq[i + 1..];
      && Keys(rest) == Keys(rq)[..i] + Keys(rq)[i + 1..]
      && RunQueue.Valid(Rq(Keys(rest), min))
      && rq[i] !in rest && forall t :: t in rest ==> t in rq
  {
    DropKey(rq, i);
    EraseIsSplit(Keys(rq), i);
    DequeueValid(Rq(Keys(rq), min), rq[i].Key());
    assert Keys(rq)[i] == rq[i].Key();
    NotQueued(rq[..i] + rq[i + 1..], rq[i]);
  }

  lemma {:induction false} MoveOne(kept: seq<Ent>, rest: seq<Ent>)
    requires rest != []
    ensures (kept + rest)[..|kept|] + (kept + rest)[|kept| + 1..] == kept + rest[1..]
    ensures (kept + [rest[0]]) + rest[1..] == kept + rest
  {
  }

  lemma {:induction false} PrefixSnoc(tasks: seq<CfsTask>, i: nat)
    requires i < |tasks|
    ensures multiset(tasks[..i + 1]) == multiset(tasks[..i]) + multiset{tasks[i]}
  {
    assert tasks[..i + 1] == tasks[..i] + [tasks[i]];
  }

  lemma {:induction false} AttachNext(r: Rq, keys: seq<Ent>, i: nat)
    requires i < |keys|
    ensures LoadBalance.Attach(r, keys[i..]) == LoadBalance.Attach(Enqueue(r, keys[i]), keys[i + 1..])
  {
    assert keys[i..] == [keys[i]] + keys[i + 1..];
  }

  lemma {:induction false} SnocKeys(tasks: seq<CfsTask>, task: CfsTask)
    ensures Keys(tasks + [task]) == Keys(tasks) + [task.Key()]
  {
  }

  /** What DetachTasks will end with, from the middle of its loop. */
  function Resume(kept: seq<Ent>, rest: seq<Ent>, taken: seq<Ent>, elig: set<int>, n: int): (seq<Ent>, seq<Ent>) {
    var (k, t) := Detach(kept, rest, elig, n - |taken|);
    (k, taken + t)
  }

  lemma {:induction false} ResumeStart(all: seq<Ent>, elig: set<int>, n: int)
    ensures Resume([], all, [], elig, n) == Detach([], all, elig, n)
  {
    var t := Detach([], all, elig, n).1;
    assert [] + t == t;
  }

  lemma {:induction false} ResumeStep(kept: seq<Ent>, rest: seq<Ent>, taken: seq<Ent>, elig: set<int>, n: int)
    requires rest != [] && |kept| + |rest| > 1 && |taken| < n
    ensures Resume(kept, rest, taken, elig, n) ==
      if rest[0].addr in elig then Resume(kept, rest[1..], taken + [rest[0]], elig, n)
      else Resume(kept + [rest[0]], rest[1..], taken, elig, n)
  {
    if rest[0].addr in elig {
      var t := Detach(kept, rest[1..], elig, n - |taken| - 1).1;
      assert taken + ([rest[0]] + t) == taken + [rest[0]] + t;
    }
  }

  lemma {:induction false} ResumeStop(kept: seq<Ent>, rest: seq<Ent>, taken: seq<Ent>, elig: set<int>, n: int)
    requires rest == [] || |kept| + |rest| <= 1 || |taken| >= n
    ensures Resume(kept, rest, taken, elig, n) == (kept + rest, taken)
  {
    assert taken + [] == taken;
  }

  /** The vruntime that cs->current puts in contention for min_vruntime_. */
  function Contender(cs: CpuState): Option<int>
    reads cs, cs.current
  {
    CurrentV(AsPrev(cs.current))
  }

  lemma {:induction false} ByAddressIfPresent(rq: seq<CfsTask>, task: CfsTask)
    requires Distinct(Keys(rq)) && task in rq
    ensures ByAddress(rq, task)
  {
    var k :| 0 <= k < |rq| && rq[k] == task;
    forall i | 0 <= i < |rq| && rq[i].addr == task.addr ensures rq[i] == task {
      assert Keys(rq)[i].addr == Keys(rq)[k].addr;
    }
  }

  lemma {:induction false} ByAddressIfAbsent(rq: seq<CfsTask>, task: CfsTask)
    requires !Holds(Keys(rq), task.addr)
    ensures ByAddress(rq, task)
  {
    forall k | 0 <= k < |rq| ensures rq[k].addr != task.addr {
      assert Keys(rq)[k].addr == rq[k].addr;
    }
  }

  /** Keys are read off the tasks one by one, so they survive changes of other fields. */
  lemma {:induction false} KeysAre(tasks: seq<CfsTask>, keys: seq<Ent>)
    requires |keys| == |tasks| && forall i :: 0 <= i < |tasks| ==> keys[i] == tasks[i].Key()
    ensures Keys(tasks) == keys
  {
  }

  lemma {:induction false} NotQueued(rq: seq<CfsTask>, task: CfsTask)
    requires !Holds(Keys(rq), task.addr)
    ensures task !in rq
  {
    forall k | 0 <= k < |rq| ensures rq[k] != task {
      assert Keys(rq)[k].addr == rq[k].addr;
    }
  }

  lemma {:induction false} Spliced(rq: seq<CfsTask>, rq': seq<CfsTask>, task: CfsTask, k: nat)
    requires k <= |rq| && rq' == rq[..k] + [task] + rq[k..]
    ensures Keys(rq') == Keys(rq)[..k] + [task.Key()] + Keys(rq)[k..]
    ensures Keys(rq')[0].v == rq'[0].vruntime
    ensures multiset(rq') == multiset(rq) + multiset{task}
    ensures forall i :: 0 <= i < |rq'| ==> rq'[i] == task || rq'[i] in rq
  {
    SpliceKeys(rq, task, k);
    SpliceBag(rq, task, k);
    forall i | 0 <= i < |rq'| ensures rq'[i] == task || rq'[i] in rq {
      assert rq'[i] == if i < k then rq[i] else if i == k then task else rq[i - 1];
    }
  }

  lemma {:induction false} SpliceBag(rq: seq<CfsTask>, task: CfsTask, k: nat)
    requires k <= |rq|
    ensures multiset(rq[..k] + [task] + rq[k..]) == multiset(rq) + multiset{task}
  {
    assert rq == rq[..k] + rq[k..];
  }

  lemma {:induction false} SpliceKeys(rq: seq<CfsTask>, task: CfsTask, k: nat)
    requires k <= |rq|
    ensures Keys(rq[..k] + [task] + rq[k..]) == Keys(rq)[..k] + [task.Key()] + Keys(rq)[k..]
  {
  }

  lemma {:induction false} DropKey(rq: seq<CfsTask>, k: nat)
    requires k < |rq|
    ensures Keys(rq[..k] + rq[k + 1..]) == Keys(rq)[..k] + Keys(rq)[k + 1..]
  {
  }
}
