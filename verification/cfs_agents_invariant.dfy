/**
 Every step of CfsAgents keeps its invariant, which has four parts.

 TaskInv, for each thread: its undelivered messages are in one channel and lead from the state the
 agents know to the one the kernel has; its place on every CPU (run queue, migration queue,
 current, in flight) fits its state, and so does any association window open for it.

 LockInv, for each run queue: the holder of the lock is where its program has it.

 PcInv, for each agent: what its program counter promises, as that a stocked agent has a task
 queued and a stolen task is still where it was found.

 OnCpuInv, for each thread on a CPU: that CPU's agent is asleep.

 Most steps concern one thread, so the lemmas say what happens to its trace on each CPU, and
 that the traces of the others stay.
 */
module CfsAgentsInvariant {
  import opened Common
  import opened CfsTaskState
  import opened CfsAgents

  //---------------------------------------------------------------------------
  // Frames
  //---------------------------------------------------------------------------

  lemma Frame(s: State, s': State, t: Tid)
    requires TaskInv(s, t)
    requires |s'.cpus| == |s.cpus|
    requires t in s.kernel <==> t in s'.kernel
    requires t in s.kernel ==> s.kernel[t] == s'.kernel[t]
    requires t in s.tasks <==> t in s'.tasks
    requires t in s.tasks ==> s.tasks[t] == s'.tasks[t]
    requires forall d :: 0 <= d < |s.cpus| ==> TraceOf(s.cpus[d], t) == TraceOf(s'.cpus[d], t)
    ensures TaskInv(s', t)
  {
    if t in s.kernel {
      assert TraceOf(s.cpus[s.kernel[t].channel], t) == TraceOf(s'.cpus[s.kernel[t].channel], t);
      if t in s.tasks {
        assert TraceOf(s.cpus[s.tasks[t].cpu], t) == TraceOf(s'.cpus[s.tasks[t].cpu], t);
      }
    }
  }

  predicate SameHoldings(cs: CpuState, cs': CpuState) {
    cs'.rq == cs.rq && cs'.mq == cs.mq && cs'.cur == cs.cur && cs'.chan == cs.chan && Got(cs'.pc) == Got(cs.pc)
  }

  /** Steps that only move an agent, or take or release a lock, leave every task as it is. */
  lemma FrameAll(s: State, s': State)
    requires forall t :: TaskInv(s, t)
    requires |s'.cpus| == |s.cpus| && s'.kernel == s.kernel && s'.tasks == s.tasks
    requires forall d :: 0 <= d < |s.cpus| ==> SameHoldings(s.cpus[d], s'.cpus[d])
    requires forall d, t :: 0 <= d < |s.cpus| ==> WindowOf(s'.cpus[d].pc, t) == WindowOf(s.cpus[d].pc, t)
    ensures forall t :: TaskInv(s', t)
  {
    forall t ensures TaskInv(s', t) {
      assert TaskInv(s, t);
      forall d | 0 <= d < |s.cpus| ensures TraceOf(s.cpus[d], t) == TraceOf(s'.cpus[d], t) {
        assert SameHoldings(s.cpus[d], s'.cpus[d]);
      }
      Frame(s, s', t);
    }
  }

  /** A handler leaves every other task as it is. */
  lemma UpdateOthers(s: State, c: Cpu, t: Tid, v: View)
    requires c < |s.cpus|
    requires forall u :: u != t ==> TaskInv(s, u)
    requires v.isCur ==> s.cpus[c].cur == None || s.cpus[c].cur == Some(t)
    ensures forall u :: u != t ==> TaskInv(Update(s, c, t, v), u)
  {
    var s' := Update(s, c, t, v);
    forall u | u != t ensures TaskInv(s', u) {
      assert TaskInv(s, u);
      Frame(s, s', u);
    }
  }

  lemma OfHead(q: seq<Msg>, t: Tid)
    requires q != []
    ensures t != q[0].tid ==> Of(q[1..], t) == Of(q, t)
    ensures t == q[0].tid ==> Of(q, t) != [] && Of(q, t)[0] == q[0] && Of(q, t)[1..] == Of(q[1..], t)
  {
  }

  lemma {:induction false} OfSnoc(q: seq<Msg>, m: Msg, t: Tid)
    ensures Of(q + [m], t) == if m.tid == t then Of(q, t) + [m] else Of(q, t)
  {
    if q == [] {
      assert [m][1..] == [];
      assert q + [m] == [m];
    } else {
      assert (q + [m])[1..] == q[1..] + [m];
      OfSnoc(q[1..], m, t);
    }
  }

  //---------------------------------------------------------------------------
  // Kernel steps
  //---------------------------------------------------------------------------

  /** A message the kernel may post extends the pending ones by one expected message. */
  lemma {:induction false} AgreeSnoc(
    run: Option<RunState>, num: nat, msgs: seq<Msg>, k: KernelTask, cpu: Cpu, t: Tid, kind: Kind)
    requires Agree(run, num, msgs, k, cpu)
    requires MayPost(k.run, kind)
    ensures Agree(run, num, msgs + [Msg(t, k.barrier + 1, kind)],
                  k.(barrier := k.barrier + 1, run := AfterPost(k.run, kind)), cpu)
    decreases msgs
  {
    var m := Msg(t, k.barrier + 1, kind);
    if msgs == [] {
      assert msgs + [m] == [m];
      assert [m][1..] == [];
    } else {
      assert (msgs + [m])[0] == msgs[0];
      assert (msgs + [m])[1..] == msgs[1..] + [m];
      AgreeSnoc(After(run, msgs[0].kind), num + 1, msgs[1..], k, cpu, t, kind);
    }
  }

  lemma PostOthers(s: State, t: Tid, k: KernelTask, kind: Kind)
    requires forall u :: TaskInv(s, u)
    requires k.channel < |s.cpus|
    ensures forall u :: u != t ==> TaskInv(Post(s, t, k, kind), u)
  {
    var s' := Post(s, t, k, kind);
    var m := Msg(t, k.barrier + 1, kind);
    forall u | u != t ensures TaskInv(s', u) {
      assert TaskInv(s, u);
      OfSnoc(s.cpus[k.channel].chan, m, u);
      Frame(s, s', u);
    }
  }

  /** No pending message makes a task run: who runs on a CPU is running for its agent too. */
  lemma {:induction false} OnCpuIsRunning(run: Option<RunState>, num: nat, msgs: seq<Msg>, k: KernelTask, cpu: Cpu)
    requires Agree(run, num, msgs, k, cpu) && k.run.KOnCpu?
    ensures run == Some(Running) && k.run.cpu == cpu
    decreases msgs
  {
    if msgs != [] {
      OnCpuIsRunning(After(run, msgs[0].kind), num + 1, msgs[1..], k, cpu);
    }
  }

  lemma PostedToOwnCpu(s: State, t: Tid)
    requires TaskInv(s, t) && t in s.kernel && s.kernel[t].run.KOnCpu?
    ensures s.kernel[t].channel == s.kernel[t].run.cpu
  {
    var k := s.kernel[t];
    var q := Of(s.cpus[k.channel].chan, t);
    if t in s.tasks {
      OnCpuIsRunning(Some(s.tasks[t].run), s.tasks[t].seqnum, q, k, s.tasks[t].cpu);
      assert Fits(TraceOf(s.cpus[k.channel], t), k.channel, s.tasks[t], k);
      assert Fits(TraceOf(s.cpus[s.tasks[t].cpu], t), s.tasks[t].cpu, s.tasks[t], k);
    } else {
      OnCpuIsRunning(None, 0, q, k, k.channel);
    }
  }

  lemma PostSkeleton(s: State, t: Tid, k: KernelTask, kind: Kind)
    requires Inv(s) && k.channel < |s.cpus|
    requires if kind.New? then true else MayPost(k.run, kind) && t in s.kernel && s.kernel[t] == k
    ensures Skeleton(Post(s, t, k, kind))
  {
    var s' := Post(s, t, k, kind);
    forall d | 0 <= d < |s.cpus| ensures LockInv(s', d) { assert LockInv(s, d); }
    forall d | 0 <= d < |s.cpus| ensures PcInv(s', d) {
      assert PcInv(s, d);
      if FromCpu(kind) {
        assert OnCpuInv(s, t);
        PostedToOwnCpu(s, t);
      }
    }
    forall u | u in s'.kernel ensures OnCpuInv(s', u) {
      if u in s.kernel { assert OnCpuInv(s, u); }
    }
  }

  lemma KernelNewKeeps(s: State, t: Tid, runnable: bool)
    requires Inv(s) && CanKernelNew(s, t)
    ensures Inv(DoKernelNew(s, t, runnable))
  {
    var s' := DoKernelNew(s, t, runnable);
    var k := KernelTask(0, DEFAULT_CHANNEL, KGone);
    PostOthers(s, t, k, New(runnable));
    PostSkeleton(s, t, k, New(runnable));
    assert TaskInv(s', t) by {
      assert TaskInv(s, t);
      assert Unseen(s, t) by { OutsideUnseen(s, t); }
      OfSnoc(s.cpus[0].chan, Msg(t, 1, New(runnable)), t);
      assert [Msg(t, 1, New(runnable))][1..] == [];
      forall d | 0 <= d < |s.cpus| ensures Unplaced(TraceOf(s'.cpus[d], t), d, s'.kernel[t]) {
        assert TraceOf(s.cpus[d], t) == Trace(false, false, false, false, [], Closed);
      }
    }
  }

  /** No CPU holds anything of task t. */
  predicate Unseen(s: State, t: Tid) {
    forall d :: 0 <= d < |s.cpus| ==> TraceOf(s.cpus[d], t) == Trace(false, false, false, false, [], Closed)
  }

  lemma OutsideUnseen(s: State, t: Tid)
    requires TaskInv(s, t) && CanKernelNew(s, t)
    ensures Unseen(s, t)
  {
    if t in s.kernel {
      forall d | 0 <= d < |s.cpus|
        ensures TraceOf(s.cpus[d], t) == Trace(false, false, false, false, [], Closed)
      {
        assert Unplaced(TraceOf(s.cpus[d], t), d, s.kernel[t]);
      }
    }
  }

  lemma KernelPostKeeps(s: State, t: Tid, kind: Kind)
    requires Inv(s) && CanKernelPost(s, t, kind)
    ensures Inv(DoKernelPost(s, t, kind))
  {
    var s' := DoKernelPost(s, t, kind);
    var k := s.kernel[t];
    PostOthers(s, t, k, kind);
    PostSkeleton(s, t, k, kind);
    assert TaskInv(s', t) by {
      assert TaskInv(s, t);
      var q := s.cpus[k.channel].chan;
      OfSnoc(q, Msg(t, k.barrier + 1, kind), t);
      if t in s.tasks {
        AgreeSnoc(Some(s.tasks[t].run), s.tasks[t].seqnum, Of(q, t), k, s.tasks[t].cpu, t, kind);
        forall d | 0 <= d < |s.cpus| ensures Fits(TraceOf(s'.cpus[d], t), d, s.tasks[t], s'.kernel[t]) {
          assert Fits(TraceOf(s.cpus[d], t), d, s.tasks[t], k);
        }
      } else {
        AgreeSnoc(None, 0, Of(q, t), k, k.channel, t, kind);
        forall d | 0 <= d < |s.cpus| ensures Unplaced(TraceOf(s'.cpus[d], t), d, s'.kernel[t]) {
          assert Unplaced(TraceOf(s.cpus[d], t), d, k);
        }
      }
    }
  }

  //---------------------------------------------------------------------------
  // Draining
  //---------------------------------------------------------------------------

  lemma {:induction false} AgreeOffCpu(run: Option<RunState>, num: nat, msgs: seq<Msg>, k: KernelTask, cpu: Cpu, c: Cpu)
    requires Agree(run, num, msgs, k, cpu)
    ensures Agree(run, num, msgs, OffCpu(k, c), cpu)
    decreases msgs
  {
    if msgs != [] {
      AgreeOffCpu(After(run, msgs[0].kind), num + 1, msgs[1..], k, cpu, c);
    }
  }

  lemma WakeKeeps(s: State, c: Cpu)
    requires Inv(s) && CanWake(s, c)
    ensures Inv(DoWake(s, c))
  {
    var s' := DoWake(s, c);
    forall t ensures TaskInv(s', t) {
      assert TaskInv(s, t);
      forall d | 0 <= d < |s.cpus| ensures TraceOf(s'.cpus[d], t) == TraceOf(s.cpus[d], t) {}
      if t in s.kernel {
        var k := s.kernel[t];
        var q := Of(s.cpus[k.channel].chan, t);
        assert TraceOf(s'.cpus[k.channel], t) == TraceOf(s.cpus[k.channel], t);
        if t in s.tasks {
          AgreeOffCpu(Some(s.tasks[t].run), s.tasks[t].seqnum, q, k, s.tasks[t].cpu, c);
          assert TraceOf(s'.cpus[s.tasks[t].cpu], t) == TraceOf(s.cpus[s.tasks[t].cpu], t);
          forall d | 0 <= d < |s.cpus| ensures Fits(TraceOf(s'.cpus[d], t), d, s.tasks[t], s'.kernel[t]) {
            assert Fits(TraceOf(s.cpus[d], t), d, s.tasks[t], k);
          }
        } else {
          AgreeOffCpu(None, 0, q, k, k.channel, c);
          forall d | 0 <= d < |s.cpus| ensures Unplaced(TraceOf(s'.cpus[d], t), d, s'.kernel[t]) {
            assert Unplaced(TraceOf(s.cpus[d], t), d, k);
          }
        }
      }
    }
    forall d | 0 <= d < |s.cpus| ensures LockInv(s', d) { assert LockInv(s, d); }
    forall d | 0 <= d < |s.cpus| ensures PcInv(s', d) { assert PcInv(s, d); }
    forall t | t in s'.kernel ensures OnCpuInv(s', t) { assert OnCpuInv(s, t); }
  }

  lemma EndDrainKeeps(s: State, c: Cpu)
    requires Inv(s) && CanEndDrain(s, c)
    ensures Inv(DoEndDrain(s, c))
  {
    var s' := DoEndDrain(s, c);
    FrameAll(s, s');
    forall d | 0 <= d < |s.cpus| ensures LockInv(s', d) { assert LockInv(s, d); assert LockInv(s, c); }
    forall d | 0 <= d < |s.cpus| ensures PcInv(s', d) { assert PcInv(s, d); }
    forall t | t in s'.kernel ensures OnCpuInv(s', t) { assert OnCpuInv(s, t); }
  }

  //---------------------------------------------------------------------------
  // Moving on
  //---------------------------------------------------------------------------

  lemma EndMigrateKeeps(s: State, c: Cpu)
    requires Inv(s) && CanEndMigrate(s, c)
    ensures Inv(DoEndMigrate(s, c))
  {
    var s' := DoEndMigrate(s, c);
    FrameAll(s, s');
    forall d | 0 <= d < |s.cpus| ensures LockInv(s', d) { assert LockInv(s, d); }
    forall d | 0 <= d < |s.cpus| ensures PcInv(s', d) { assert PcInv(s, d); }
    forall t | t in s'.kernel ensures OnCpuInv(s', t) { assert OnCpuInv(s, t); }
  }

  lemma KeepCurrentKeeps(s: State, c: Cpu)
    requires Inv(s) && CanKeepCurrent(s, c)
    ensures Inv(DoKeepCurrent(s, c))
  {
    var s' := DoKeepCurrent(s, c);
    FrameAll(s, s');
    forall d | 0 <= d < |s.cpus| ensures LockInv(s', d) { assert LockInv(s, d); }
    forall d | 0 <= d < |s.cpus| ensures PcInv(s', d) { assert PcInv(s, d); }
    forall t | t in s'.kernel ensures OnCpuInv(s', t) { assert OnCpuInv(s, t); }
  }

  lemma SkipBalanceKeeps(s: State, c: Cpu)
    requires Inv(s) && CanSkipBalance(s, c)
    ensures Inv(DoSkipBalance(s, c))
  {
    var s' := DoSkipBalance(s, c);
    FrameAll(s, s');
    forall d | 0 <= d < |s.cpus| ensures LockInv(s', d) { assert LockInv(s, d); }
    forall d | 0 <= d < |s.cpus| ensures PcInv(s', d) { assert PcInv(s, d); }
    forall t | t in s'.kernel ensures OnCpuInv(s', t) { assert OnCpuInv(s, t); }
  }

  lemma StartDetachKeeps(s: State, c: Cpu, src: Cpu, n: nat)
    requires Inv(s) && CanStartDetach(s, c, src, n)
    ensures Inv(DoStartDetach(s, c, src, n))
  {
    var s' := DoStartDetach(s, c, src, n);
    FrameAll(s, s');
    forall d | 0 <= d < |s.cpus| ensures LockInv(s', d) { assert LockInv(s, d); }
    forall d | 0 <= d < |s.cpus| ensures PcInv(s', d) { assert PcInv(s, d); assert LockInv(s, src); }
    forall t | t in s'.kernel ensures OnCpuInv(s', t) { assert OnCpuInv(s, t); }
  }

  lemma EndDetachKeeps(s: State, c: Cpu)
    requires Inv(s) && CanEndDetach(s, c)
    ensures Inv(DoEndDetach(s, c))
  {
    var s' := DoEndDetach(s, c);
    assert PcInv(s, c);
    FrameAll(s, s');
    forall d | 0 <= d < |s.cpus| ensures LockInv(s', d) { assert LockInv(s, d); assert LockInv(s, s.cpus[c].pc.src); }
    forall d | 0 <= d < |s.cpus| ensures PcInv(s', d) { assert PcInv(s, d); }
    forall t | t in s'.kernel ensures OnCpuInv(s', t) { assert OnCpuInv(s, t); }
  }

  //---------------------------------------------------------------------------
  // A task at home: its messages, its cpu and its place all on CPU c
  //---------------------------------------------------------------------------

  const NOTHING := Trace(false, false, false, false, [], Closed)

  ghost predicate AtHome(s: State, c: Cpu, t: Tid) {
    && c < |s.cpus| && t in s.kernel && s.kernel[t].channel == c
    && t !in Got(s.cpus[c].pc) && WindowOf(s.cpus[c].pc, t) == Closed
    && (forall d :: 0 <= d < |s.cpus| && d != c ==> TraceOf(s.cpus[d], t) == NOTHING)
  }

  /** What holds of a task on its own CPU between two handlers. */
  predicate Settled(v: View, c: Cpu) {
    if v.live then
      && v.task.cpu == c && LegalPair(v.task) && !(v.task.run == Runnable && v.task.onRq == Dequeued)
      && (v.inRq <==> v.task.run == Runnable && v.task.onRq == Queued)
      && (v.inMq <==> v.task.run == Runnable && v.task.onRq == Migrating)
      && (v.isCur ==> v.task.run != Runnable)
      && (v.task.run == Running || v.task.run == Done ==> v.isCur)
    else
      !v.inRq && !v.inMq && !v.isCur
  }

  lemma AtHomeWhenClosed(s: State, t: Tid)
    requires TaskInv(s, t) && t in s.tasks && t in s.kernel
    requires s.kernel[t].channel == s.tasks[t].cpu
    requires s.tasks[t].cpu < |s.cpus| && t !in Got(s.cpus[s.tasks[t].cpu].pc)
    ensures AtHome(s, s.tasks[t].cpu, t)
    ensures Settled(ViewOf(s, s.tasks[t].cpu, t), s.tasks[t].cpu)
  {
    var c := s.tasks[t].cpu;
    assert Fits(TraceOf(s.cpus[c], t), c, s.tasks[t], s.kernel[t]);
    forall d | 0 <= d < |s.cpus| && d != c ensures TraceOf(s.cpus[d], t) == NOTHING {
      assert Fits(TraceOf(s.cpus[d], t), d, s.tasks[t], s.kernel[t]);
    }
  }

  lemma UpdateHome(s: State, c: Cpu, t: Tid, v: View)
    requires AtHome(s, c, t) && Settled(v, c)
    requires v.live ==> Agree(Some(v.task.run), v.task.seqnum, Of(s.cpus[c].chan, t), s.kernel[t], c)
    requires !v.live ==> Agree(None, 0, Of(s.cpus[c].chan, t), s.kernel[t], c)
    ensures TaskInv(Update(s, c, t, v), t)
  {
    var s' := Update(s, c, t, v);
    var k := s.kernel[t];
    forall d | 0 <= d < |s.cpus| ensures d != c ==> TraceOf(s'.cpus[d], t) == NOTHING {}
    assert TraceOf(s'.cpus[c], t) == Trace(v.inRq, v.inMq, false, v.isCur, Of(s.cpus[c].chan, t), Closed);
  }

  /** Every handler keeps every CHECK and brings the task where its message says. */
  lemma HandleSettled(v: View, kind: Kind, num: nat, c: Cpu, affinity: set<Cpu>)
    requires v.live && v.ok && Settled(v, c)
    requires Expected(Some(v.task.run), kind, c) && num > v.task.seqnum
    ensures var v' := v.Handle(kind, num, c, affinity);
      && v'.ok && Settled(v', c)
      && (v'.live ==> Some(v'.task.run) == After(Some(v.task.run), kind))
      && (v'.isCur ==> v.isCur)
      && (v'.live && v'.task.run != Done ==> v'.task.seqnum == num)
      && (!v'.live || v'.task.run == Done ==> kind == Dead || kind == Departed)
  {
  }

  lemma NewSettled(runnable: bool, num: nat, c: Cpu, affinity: set<Cpu>)
    ensures var v := NewView(runnable, num, c, affinity);
      v.ok && v.live && Settled(v, c) && !v.isCur && v.task.seqnum == num
      && Some(v.task.run) == After(None, New(runnable))
  {
  }

  /** The agent that drains a message of t is the one t belongs to. */
  lemma DrainerOwns(s: State, c: Cpu)
    requires Inv(s) && CanDispatch(s, c)
    ensures var m := s.cpus[c].chan[0];
      && m.tid in s.kernel && s.kernel[m.tid].channel == c
      && (m.tid in s.tasks ==> s.tasks[m.tid].cpu == c && m.tid !in Got(s.cpus[c].pc))
      && Of(s.cpus[c].chan, m.tid) != [] && Of(s.cpus[c].chan, m.tid)[0] == m
      && (m.kind.New? <==> m.tid !in s.tasks)
  {
    var t := s.cpus[c].chan[0].tid;
    OfHead(s.cpus[c].chan, t);
    assert TaskInv(s, t);
    assert TraceOf(s.cpus[c], t).msgs != [];
    if t in s.tasks {
      assert Fits(TraceOf(s.cpus[c], t), c, s.tasks[t], s.kernel[t]);
      assert LockInv(s, c);
    } else {
      assert Unplaced(TraceOf(s.cpus[c], t), c, s.kernel[t]);
    }
  }

  /** Nothing follows the last message of a task. */
  lemma DoneIsLast(num: nat, msgs: seq<Msg>, k: KernelTask, cpu: Cpu)
    requires Agree(Some(Done), num, msgs, k, cpu)
    ensures msgs == [] && k.run == KGone
  {
  }

  lemma ConsumeOthers(s: State, c: Cpu)
    requires Inv(s) && CanDispatch(s, c)
    ensures forall u :: u != s.cpus[c].chan[0].tid ==> TaskInv(Consume(s, c), u)
  {
    var s1 := Consume(s, c);
    forall u | u != s.cpus[c].chan[0].tid ensures TaskInv(s1, u) {
      assert TaskInv(s, u);
      OfHead(s.cpus[c].chan, u);
      Frame(s, s1, u);
    }
  }

  lemma DispatchTask(s: State, c: Cpu, affinity: set<Cpu>)
    requires Inv(s) && CanDispatch(s, c)
    ensures forall u :: TaskInv(DoDispatch(s, c, affinity), u)
    ensures !DoDispatch(s, c, affinity).failed
  {
    var m := s.cpus[c].chan[0];
    var t := m.tid;
    var s1 := Consume(s, c);
    DrainerOwns(s, c);
    ConsumeOthers(s, c);
    OfHead(s.cpus[c].chan, t);
    assert TaskInv(s, t);
    var k := s.kernel[t];
    assert TraceOf(s.cpus[c], t).msgs != [];
    if t !in s.tasks {
      forall d | 0 <= d < |s.cpus| && d != c ensures TraceOf(s1.cpus[d], t) == NOTHING {
        assert Unplaced(TraceOf(s.cpus[d], t), d, k);
      }
      assert Unplaced(TraceOf(s.cpus[c], t), c, k);
      var v := NewView(m.kind.runnable, m.num, c, affinity);
      NewSettled(m.kind.runnable, m.num, c, affinity);
      UpdateHome(s1, c, t, v);
      UpdateOthers(s1, c, t, v);
    } else {
      AtHomeWhenClosed(s, t);
      assert AtHome(s1, c, t);
      var v := ViewOf(s1, c, t).Handle(m.kind, m.num, c, affinity);
      HandleSettled(ViewOf(s, c, t), m.kind, m.num, c, affinity);
      if m.kind == Dead || m.kind == Departed {
        DoneIsLast(s.tasks[t].seqnum + 1, Of(s.cpus[c].chan[1..], t), k, c);
      }
      UpdateHome(s1, c, t, v);
      UpdateOthers(s1, c, t, v);
    }
  }

  /** A handler on a task at home disturbs no lock, and no other agent. */
  lemma UpdateSkeleton(s: State, c: Cpu, t: Tid, v: View)
    requires Skeleton(s) && c < |s.cpus|
    requires s.cpus[c].pc == Draining || s.cpus[c].lock == None
    requires s.cpus[c].pc == Draining || s.cpus[c].pc == MigratingTasks || s.cpus[c].pc == Scheduling
    requires forall d :: 0 <= d < |s.cpus| && d != c ==>
      s.cpus[d].cur != Some(t) && WindowOf(s.cpus[d].pc, t) == Closed
    ensures Skeleton(Update(s, c, t, v))
  {
    var s' := Update(s, c, t, v);
    forall d | 0 <= d < |s.cpus| ensures LockInv(s', d) { assert LockInv(s, d); }
    forall d | 0 <= d < |s.cpus| ensures PcInv(s', d) { assert PcInv(s, d); assert LockInv(s, c); }
    forall u | u in s'.kernel ensures OnCpuInv(s', u) { assert OnCpuInv(s, u); }
  }

  lemma HomeAlone(s: State, c: Cpu, t: Tid)
    requires AtHome(s, c, t)
    ensures forall d :: 0 <= d < |s.cpus| && d != c ==>
      s.cpus[d].cur != Some(t) && WindowOf(s.cpus[d].pc, t) == Closed && t !in s.cpus[d].rq
  {
    forall d | 0 <= d < |s.cpus| && d != c
      ensures s.cpus[d].cur != Some(t) && WindowOf(s.cpus[d].pc, t) == Closed && t !in s.cpus[d].rq
    {
      assert TraceOf(s.cpus[d], t) == NOTHING;
    }
  }

  lemma ConsumeSkeleton(s: State, c: Cpu)
    requires Inv(s) && CanDispatch(s, c)
    ensures Skeleton(Consume(s, c))
  {
    var s' := Consume(s, c);
    forall d | 0 <= d < |s.cpus| ensures LockInv(s', d) { assert LockInv(s, d); }
    forall d | 0 <= d < |s.cpus| ensures PcInv(s', d) { assert PcInv(s, d); }
    forall u | u in s'.kernel ensures OnCpuInv(s', u) { assert OnCpuInv(s, u); }
  }

  lemma DispatchKeeps(s: State, c: Cpu, affinity: set<Cpu>)
    requires Inv(s) && CanDispatch(s, c)
    ensures Inv(DoDispatch(s, c, affinity))
  {
    var m := s.cpus[c].chan[0];
    var t := m.tid;
    DispatchTask(s, c, affinity);
    DrainerOwns(s, c);
    ConsumeSkeleton(s, c);
    var s1 := Consume(s, c);
    assert TaskInv(s, t);
    forall d | 0 <= d < |s.cpus| && d != c
      ensures s1.cpus[d].cur != Some(t) && WindowOf(s1.cpus[d].pc, t) == Closed
    {
      if t in s.tasks {
        assert Fits(TraceOf(s.cpus[d], t), d, s.tasks[t], s.kernel[t]);
      } else {
        assert Unplaced(TraceOf(s.cpus[d], t), d, s.kernel[t]);
      }
    }
    var v := if m.kind.New? then NewView(m.kind.runnable, m.num, c, affinity)
             else ViewOf(s1, c, t).Handle(m.kind, m.num, c, affinity);
    UpdateSkeleton(s1, c, t, v);
  }

  //---------------------------------------------------------------------------
  // Migration
  //---------------------------------------------------------------------------

  /** A task on the migration queue of an agent that has no migration open. */
  lemma QueuedForMigration(s: State, c: Cpu, t: Tid)
    requires Inv(s) && Runs(s, c, MigratingTasks) && t in s.cpus[c].mq
    ensures t in s.tasks && t in s.kernel && s.tasks[t].cpu == c && s.kernel[t].channel == c
    ensures s.tasks[t].run == Runnable && s.tasks[t].onRq == Migrating
    ensures AtHome(s, c, t) && Settled(ViewOf(s, c, t), c)
  {
    assert TaskInv(s, t);
    assert TraceOf(s.cpus[c], t).inMq;
    if t in s.kernel && t in s.tasks {
      assert Fits(TraceOf(s.cpus[c], t), c, s.tasks[t], s.kernel[t]);
      AtHomeWhenClosed(s, t);
    }
  }

  lemma MigrateHereKeeps(s: State, c: Cpu, t: Tid)
    requires Inv(s) && CanMigrateHere(s, c, t)
    ensures Inv(DoMigrateHere(s, c, t))
  {
    QueuedForMigration(s, c, t);
    var v := ViewOf(s, c, t).FinishMigrate(c);
    assert TaskInv(s, t);
    UpdateHome(s, c, t, v);
    UpdateOthers(s, c, t, v);
    HomeAlone(s, c, t);
    UpdateSkeleton(s, c, t, v);
  }

  lemma AssociateKeeps(s: State, c: Cpu, t: Tid, d: Cpu)
    requires Inv(s) && CanAssociate(s, c, t, d)
    ensures Inv(DoAssociate(s, c, t, d))
  {
    var s' := DoAssociate(s, c, t, d);
    QueuedForMigration(s, c, t);
    forall u ensures TaskInv(s', u) {
      assert TaskInv(s, u);
      if u == t {
        AssociatedTask(s, c, t, d);
      } else {
        Frame(s, s', u);
      }
    }
    AssociateSkeleton(s, c, t, d);
  }

  lemma AssociateSkeleton(s: State, c: Cpu, t: Tid, d: Cpu)
    requires Skeleton(s) && CanAssociate(s, c, t, d) && s.tasks[t].cpu == c
    ensures Skeleton(DoAssociate(s, c, t, d))
  {
    var s' := DoAssociate(s, c, t, d);
    forall x | 0 <= x < |s.cpus| ensures LockInv(s', x) { assert LockInv(s, x); }
    forall x | 0 <= x < |s.cpus| ensures PcInv(s', x) { assert PcInv(s, x); assert LockInv(s, d); }
    forall u | u in s'.kernel ensures OnCpuInv(s', u) { assert OnCpuInv(s, u); }
  }

  /** The barrier check leaves no message behind in the old channel. */
  lemma FreshMeansDrained(s: State, t: Tid)
    requires TaskInv(s, t) && t in s.tasks && BarrierFresh(s, t)
    requires s.kernel[t].channel < |s.cpus|
    ensures Of(s.cpus[s.kernel[t].channel].chan, t) == []
  {
    var k := s.kernel[t];
    var q := Of(s.cpus[k.channel].chan, t);
    Numbered(Some(s.tasks[t].run), s.tasks[t].seqnum, q, k, s.tasks[t].cpu);
  }

  /** Pending messages carry the numbers after the task's sequence number, up to the barrier. */
  lemma {:induction false} Numbered(run: Option<RunState>, num: nat, msgs: seq<Msg>, k: KernelTask, cpu: Cpu)
    requires Agree(run, num, msgs, k, cpu) && k.run != KGone
    ensures num + |msgs| == k.barrier
    decreases msgs
  {
    if msgs != [] {
      Numbered(After(run, msgs[0].kind), num + 1, msgs[1..], k, cpu);
    }
  }

  lemma AssociatedTask(s: State, c: Cpu, t: Tid, d: Cpu)
    requires Inv(s) && CanAssociate(s, c, t, d) && AtHome(s, c, t)
    requires s.tasks[t].cpu == c && s.tasks[t].run == Runnable && s.tasks[t].onRq == Migrating
    ensures TaskInv(DoAssociate(s, c, t, d), t)
  {
    var s' := DoAssociate(s, c, t, d);
    assert TaskInv(s, t);
    FreshMeansDrained(s, t);
    assert TraceOf(s.cpus[d], t) == NOTHING;
    var k' := s'.kernel[t];
    forall x | 0 <= x < |s.cpus| ensures Fits(TraceOf(s'.cpus[x], t), x, s'.tasks[t], k') {
      assert Fits(TraceOf(s.cpus[x], t), x, s.tasks[t], s.kernel[t]);
      assert x != c ==> TraceOf(s.cpus[x], t) == NOTHING;
    }
  }

  /** What an open migration window says of its task. */
  lemma InMigrateWindow(s: State, c: Cpu)
    requires Inv(s) && c < |s.cpus| && s.cpus[c].pc.Associated?
    ensures var t, d := s.cpus[c].pc.tid, s.cpus[c].pc.dst;
      && d < |s.cpus| && d != c && s.cpus[d].lock == Some(c)
      && t in s.tasks && t in s.kernel && s.tasks[t].cpu == c && s.kernel[t].channel == d
      && s.tasks[t].run == Runnable && s.tasks[t].onRq == Migrating
      && (forall x :: 0 <= x < |s.cpus| ==>
            TraceOf(s.cpus[x], t) ==
              Trace(false, x == c, false, false, if x == d then Of(s.cpus[x].chan, t) else [],
                    if x == c then ByMigrate(d) else Closed))
  {
    var t, d := s.cpus[c].pc.tid, s.cpus[c].pc.dst;
    assert PcInv(s, c);
    assert LockInv(s, d);
    assert TaskInv(s, t);
    assert TraceOf(s.cpus[c], t).window == ByMigrate(d);
    assert Fits(TraceOf(s.cpus[c], t), c, s.tasks[t], s.kernel[t]);
    forall x | 0 <= x < |s.cpus|
      ensures TraceOf(s.cpus[x], t) ==
              Trace(false, x == c, false, false, if x == d then Of(s.cpus[x].chan, t) else [],
                    if x == c then ByMigrate(d) else Closed)
    {
      assert Fits(TraceOf(s.cpus[x], t), x, s.tasks[t], s.kernel[t]);
    }
  }

  lemma FinishMigrateTask(s: State, c: Cpu)
    requires Inv(s) && CanFinishMigrate(s, c)
    ensures TaskInv(DoFinishMigrate(s, c), s.cpus[c].pc.tid)
    ensures !DoFinishMigrate(s, c).failed
  {
    InMigrateWindow(s, c);
    var s' := DoFinishMigrate(s, c);
    var t, d := s.cpus[c].pc.tid, s.cpus[c].pc.dst;
    assert TaskInv(s, t);
    var q := Of(s.cpus[d].chan, t);
    AgreeSameCpu(Some(Runnable), s.tasks[t].seqnum, q, s.kernel[t], c, d);
    forall x | 0 <= x < |s.cpus| ensures Fits(TraceOf(s'.cpus[x], t), x, s'.tasks[t], s'.kernel[t]) {
      assert TraceOf(s'.cpus[x], t) ==
        Trace(x == d, false, false, false, if x == d then q else [], Closed);
    }
  }

  /** A runnable task's pending messages do not speak of a CPU. */
  lemma {:induction false} AgreeSameCpu(run: Option<RunState>, num: nat, msgs: seq<Msg>, k: KernelTask, c: Cpu, d: Cpu)
    requires Agree(run, num, msgs, k, c) && run != Some(Running)
    ensures Agree(run, num, msgs, k, d)
    decreases msgs
  {
    if msgs != [] {
      AgreeSameCpu(After(run, msgs[0].kind), num + 1, msgs[1..], k, c, d);
    }
  }

  lemma FinishMigrateKeeps(s: State, c: Cpu)
    requires Inv(s) && CanFinishMigrate(s, c)
    ensures Inv(DoFinishMigrate(s, c))
  {
    InMigrateWindow(s, c);
    FinishMigrateTask(s, c);
    var s' := DoFinishMigrate(s, c);
    var t := s.cpus[c].pc.tid;
    forall u ensures TaskInv(s', u) {
      if u != t {
        assert TaskInv(s, u);
        Frame(s, s', u);
      }
    }
    FinishMigrateSkeleton(s, c);
  }

  lemma FinishMigrateSkeleton(s: State, c: Cpu)
    requires Inv(s) && CanFinishMigrate(s, c)
    ensures Skeleton(DoFinishMigrate(s, c))
  {
    InMigrateWindow(s, c);
    var s' := DoFinishMigrate(s, c);
    var t, d := s.cpus[c].pc.tid, s.cpus[c].pc.dst;
    forall x | 0 <= x < |s.cpus| ensures LockInv(s', x) { assert LockInv(s, x); assert LockInv(s, d); }
    forall x | 0 <= x < |s.cpus| ensures PcInv(s', x) {
      assert PcInv(s, x);
      assert LockInv(s, d);
      assert TraceOf(s.cpus[x], t).isCur == false;
    }
    forall u | u in s'.kernel ensures OnCpuInv(s', u) { assert OnCpuInv(s, u); }
  }

  //---------------------------------------------------------------------------
  // Picking
  //---------------------------------------------------------------------------

  /** With the lock of c free, what is queued or current there has no window open. */
  lemma QueuedAtHome(s: State, c: Cpu, t: Tid)
    requires Inv(s) && c < |s.cpus| && s.cpus[c].lock == None && Got(s.cpus[c].pc) == {}
    requires t in s.cpus[c].rq || s.cpus[c].cur == Some(t)
    ensures t in s.kernel && t in s.tasks && s.tasks[t].cpu == c && s.kernel[t].channel == c
    ensures AtHome(s, c, t) && Settled(ViewOf(s, c, t), c)
  {
    assert TaskInv(s, t);
    assert TraceOf(s.cpus[c], t).inRq || TraceOf(s.cpus[c], t).isCur;
    assert t in s.kernel && t in s.tasks;
    var k := s.kernel[t];
    assert Fits(TraceOf(s.cpus[c], t), c, s.tasks[t], k);
    assert Fits(TraceOf(s.cpus[k.channel], t), k.channel, s.tasks[t], k);
    assert LockInv(s, c);
    AtHomeWhenClosed(s, t);
  }

  lemma PutBackTask(s: State, c: Cpu)
    requires Inv(s) && CanPick(s, c)
    ensures Inv(PutBackCurrent(s, c)) && PutBackCurrent(s, c).cpus[c].cur == None
    ensures CanPick(PutBackCurrent(s, c), c)
  {
    if s.cpus[c].cur.Some? {
      var p := s.cpus[c].cur.value;
      QueuedAtHome(s, c, p);
      assert TaskInv(s, p);
      var v := ViewOf(s, c, p).PutBack();
      var q := Of(s.cpus[c].chan, p);
      if s.tasks[p].run == Done {
        DoneIsLast(s.tasks[p].seqnum, q, s.kernel[p], c);
      } else if s.tasks[p].run == Running {
        assert OnCpuInv(s, p);
        assert PcInv(s, c);
        OfNoneFromCpu(s.cpus[c].chan, p);
        Preempted(s.tasks[p].seqnum, q, s.kernel[p], c);
      }
      UpdateHome(s, c, p, v);
      UpdateOthers(s, c, p, v);
      HomeAlone(s, c, p);
      UpdateSkeleton(s, c, p, v);
    }
  }

  lemma {:induction false} OfNoneFromCpu(q: seq<Msg>, t: Tid)
    requires NoneFromCpu(q)
    ensures NoneFromCpu(Of(q, t))
  {
    if q != [] {
      OfNoneFromCpu(q[1..], t);
    }
  }

  /** An agent that takes its running task off the CPU by itself agrees with the kernel. */
  lemma {:induction false} Preempted(num: nat, msgs: seq<Msg>, k: KernelTask, cpu: Cpu)
    requires Agree(Some(Running), num, msgs, k, cpu)
    requires k.run != KOnCpu(cpu) && NoneFromCpu(msgs)
    ensures Agree(Some(Runnable), num, msgs, k, cpu)
    decreases msgs
  {
    if msgs != [] {
      var kind := msgs[0].kind;
      assert !FromCpu(kind);
      if kind == AffinityChanged || kind == PriorityChanged {
        Preempted(num + 1, msgs[1..], k, cpu);
      }
    }
  }

  lemma {:induction false} Picked(num: nat, msgs: seq<Msg>, k: KernelTask, cpu: Cpu)
    requires Agree(Some(Runnable), num, msgs, k, cpu)
    ensures Agree(Some(Running), num, msgs, k, cpu)
    decreases msgs
  {
    if msgs != [] {
      var kind := msgs[0].kind;
      if kind == AffinityChanged || kind == PriorityChanged {
        Picked(num + 1, msgs[1..], k, cpu);
      }
    }
  }

  lemma SetPcKeeps(s: State, c: Cpu, pc: Pc)
    requires Inv(s) && c < |s.cpus|
    requires s.cpus[c].pc == Scheduling || s.cpus[c].pc == Stocked
    requires pc == Scheduling || pc == Asleep
          || ((pc == Balancing) && s.cpus[c].cur == None)
          || (pc == Committing && s.cpus[c].cur.Some? && s.cpus[c].cur.value in s.tasks
              && s.tasks[s.cpus[c].cur.value].run == Running)
    ensures Inv(SetPc(s, c, pc))
  {
    var s' := SetPc(s, c, pc);
    FrameAll(s, s');
    forall d | 0 <= d < |s.cpus| ensures LockInv(s', d) { assert LockInv(s, d); }
    forall d | 0 <= d < |s.cpus| ensures PcInv(s', d) { assert PcInv(s, d); }
    forall t | t in s'.kernel ensures OnCpuInv(s', t) { assert OnCpuInv(s, t); }
  }

  lemma TakeKeeps(s: State, c: Cpu, t: Tid)
    requires Inv(s) && CanPick(s, c) && s.cpus[c].cur == None && t in s.cpus[c].rq && t in s.tasks
    ensures Inv(SetPc(Update(s, c, t, ViewOf(s, c, t).Take()), c, Committing))
  {
    QueuedAtHome(s, c, t);
    assert TaskInv(s, t);
    var v := ViewOf(s, c, t).Take();
    Picked(s.tasks[t].seqnum, Of(s.cpus[c].chan, t), s.kernel[t], c);
    UpdateHome(s, c, t, v);
    UpdateOthers(s, c, t, v);
    HomeAlone(s, c, t);
    UpdateSkeleton(s, c, t, v);
    SetPcKeeps(Update(s, c, t, v), c, Committing);
  }

  lemma PickTaskKeeps(s: State, c: Cpu, t: Tid)
    requires Inv(s) && CanPickTask(s, c, t)
    ensures Inv(DoPickTask(s, c, t))
  {
    PutBackTask(s, c);
    TakeKeeps(PutBackCurrent(s, c), c, t);
  }

  lemma PickNoneKeeps(s: State, c: Cpu, balance: bool)
    requires Inv(s) && CanPickNone(s, c)
    ensures Inv(DoPickNone(s, c, balance))
  {
    PutBackTask(s, c);
    SetPcKeeps(PutBackCurrent(s, c), c, if balance then Balancing else Asleep);
  }

  lemma BoostedScheduleKeeps(s: State, c: Cpu)
    requires Inv(s) && CanPick(s, c)
    ensures Inv(DoBoostedSchedule(s, c))
  {
    PutBackTask(s, c);
    SetPcKeeps(PutBackCurrent(s, c), c, Asleep);
  }

  lemma PickStolenKeeps(s: State, c: Cpu, t: Tid)
    requires Inv(s) && CanPickStolen(s, c, t)
    ensures Inv(DoPickStolen(s, c, t))
  {
    assert PcInv(s, c);
    var s1 := SetPc(s, c, Scheduling);
    SetPcKeeps(s, c, Scheduling);
    TakeKeeps(s1, c, t);
    assert SetPc(Update(s1, c, t, ViewOf(s1, c, t).Take()), c, Committing) == DoPickStolen(s, c, t);
  }

  lemma CommitKeeps(s: State, c: Cpu, success: bool)
    requires Inv(s) && CanCommit(s, c, success)
    ensures Inv(DoCommit(s, c, success))
  {
    var s' := DoCommit(s, c, success);
    var t := s.cpus[c].cur.value;
    forall u ensures TaskInv(s', u) {
      assert TaskInv(s, u);
      if u != t || !success {
        Frame(s, s', u);
      } else {
        CommittedTask(s, c);
      }
    }
    assert PcInv(s, c);
    forall d | 0 <= d < |s.cpus| ensures LockInv(s', d) { assert LockInv(s, d); }
    forall d | 0 <= d < |s.cpus| ensures PcInv(s', d) { assert PcInv(s, d); }
    forall u | u in s'.kernel ensures OnCpuInv(s', u) { assert OnCpuInv(s, u); }
  }

  lemma CommittedTask(s: State, c: Cpu)
    requires Inv(s) && CanCommit(s, c, true)
    ensures TaskInv(DoCommit(s, c, true), s.cpus[c].cur.value)
  {
    var s' := DoCommit(s, c, true);
    var t := s.cpus[c].cur.value;
    assert TaskInv(s, t);
    assert PcInv(s, c);
    FreshMeansDrained(s, t);
    assert Fits(TraceOf(s.cpus[c], t), c, s.tasks[t], s.kernel[t]);
    forall d | 0 <= d < |s.cpus| ensures Fits(TraceOf(s'.cpus[d], t), d, s.tasks[t], s'.kernel[t]) {
      assert Fits(TraceOf(s.cpus[d], t), d, s.tasks[t], s.kernel[t]);
    }
  }

  //---------------------------------------------------------------------------
  // Stealing
  //---------------------------------------------------------------------------

  /** A task the thief may take: queued on the victim, messages still there. */
  lemma StealTarget(s: State, c: Cpu, t: Tid)
    requires Inv(s) && CanStealAssociate(s, c, t)
    ensures var src := s.cpus[c].pc.src;
      && src < |s.cpus| && src != c && s.cpus[src].lock == Some(c)
      && t in s.kernel && s.tasks[t].cpu == src && s.kernel[t].channel == src
      && s.tasks[t].run == Runnable && s.tasks[t].onRq == Queued
      && Of(s.cpus[src].chan, t) == []
      && (forall x :: 0 <= x < |s.cpus| ==>
            TraceOf(s.cpus[x], t) == Trace(x == src, false, false, false, [], Closed))
  {
    var src := s.cpus[c].pc.src;
    assert PcInv(s, c);
    assert LockInv(s, src);
    assert TaskInv(s, t);
    var k := s.kernel[t];
    assert TraceOf(s.cpus[src], t).inRq;
    assert Fits(TraceOf(s.cpus[src], t), src, s.tasks[t], k);
    assert Fits(TraceOf(s.cpus[k.channel], t), k.channel, s.tasks[t], k);
    FreshMeansDrained(s, t);
    forall x | 0 <= x < |s.cpus|
      ensures TraceOf(s.cpus[x], t) == Trace(x == src, false, false, false, [], Closed)
    {
      assert Fits(TraceOf(s.cpus[x], t), x, s.tasks[t], k);
    }
  }

  lemma StealAssociateKeeps(s: State, c: Cpu, t: Tid)
    requires Inv(s) && CanStealAssociate(s, c, t)
    ensures Inv(DoStealAssociate(s, c, t))
  {
    var s' := DoStealAssociate(s, c, t);
    StealTarget(s, c, t);
    forall u ensures TaskInv(s', u) {
      assert TaskInv(s, u);
      if u != t {
        Frame(s, s', u);
      } else {
        forall x | 0 <= x < |s.cpus| ensures Fits(TraceOf(s'.cpus[x], t), x, s'.tasks[t], s'.kernel[t]) {
          assert TraceOf(s.cpus[x], t) == Trace(x == s.cpus[c].pc.src, false, false, false, [], Closed);
        }
      }
    }
    StealAssociateSkeleton(s, c, t);
  }

  lemma StealAssociateSkeleton(s: State, c: Cpu, t: Tid)
    requires Skeleton(s) && CanStealAssociate(s, c, t)
    ensures Skeleton(DoStealAssociate(s, c, t))
  {
    var s' := DoStealAssociate(s, c, t);
    forall d | 0 <= d < |s.cpus| ensures LockInv(s', d) { assert LockInv(s, d); }
    forall d | 0 <= d < |s.cpus| ensures PcInv(s', d) { assert PcInv(s, d); }
    forall u | u in s'.kernel ensures OnCpuInv(s', u) { assert OnCpuInv(s, u); }
  }

  /** What an open theft window says of its task. */
  lemma InTheftWindow(s: State, c: Cpu)
    requires Inv(s) && CanStealMove(s, c)
    ensures var t, src := s.cpus[c].pc.stealing.value, s.cpus[c].pc.src;
      && src != c && s.cpus[src].lock == Some(c) && |s.cpus[src].rq| > 1
      && t in s.tasks && t in s.kernel && s.tasks[t].cpu == src && s.kernel[t].channel == c
      && s.tasks[t].run == Runnable && s.tasks[t].onRq == Queued
      && (forall x :: 0 <= x < |s.cpus| ==>
            TraceOf(s.cpus[x], t) ==
              Trace(x == src, false, false, false, if x == c then Of(s.cpus[x].chan, t) else [],
                    if x == c then ByTheft(src) else Closed))
  {
    var t, src := s.cpus[c].pc.stealing.value, s.cpus[c].pc.src;
    assert PcInv(s, c);
    assert LockInv(s, src);
    assert TaskInv(s, t);
    assert TraceOf(s.cpus[c], t).window == ByTheft(src);
    assert Fits(TraceOf(s.cpus[c], t), c, s.tasks[t], s.kernel[t]);
    forall x | 0 <= x < |s.cpus|
      ensures TraceOf(s.cpus[x], t) ==
              Trace(x == src, false, false, false, if x == c then Of(s.cpus[x].chan, t) else [],
                    if x == c then ByTheft(src) else Closed)
    {
      assert Fits(TraceOf(s.cpus[x], t), x, s.tasks[t], s.kernel[t]);
    }
  }

  lemma StealMoveTask(s: State, c: Cpu)
    requires Inv(s) && CanStealMove(s, c)
    ensures TaskInv(DoStealMove(s, c), s.cpus[c].pc.stealing.value)
    ensures !DoStealMove(s, c).failed
  {
    InTheftWindow(s, c);
    var s' := DoStealMove(s, c);
    var t, src := s.cpus[c].pc.stealing.value, s.cpus[c].pc.src;
    assert TaskInv(s, t);
    var q := Of(s.cpus[c].chan, t);
    AgreeSameCpu(Some(Runnable), s.tasks[t].seqnum, q, s.kernel[t], src, c);
    forall x | 0 <= x < |s.cpus| ensures Fits(TraceOf(s'.cpus[x], t), x, s'.tasks[t], s'.kernel[t]) {
      assert TraceOf(s'.cpus[x], t) ==
        Trace(false, false, x == c, false, if x == c then q else [], Closed);
    }
  }

  lemma StealMoveSkeleton(s: State, c: Cpu)
    requires Inv(s) && CanStealMove(s, c)
    ensures Skeleton(DoStealMove(s, c))
  {
    InTheftWindow(s, c);
    var s' := DoStealMove(s, c);
    var t, src := s.cpus[c].pc.stealing.value, s.cpus[c].pc.src;
    assert |s'.cpus[src].rq| == |s.cpus[src].rq| - 1;
    forall x | 0 <= x < |s.cpus| ensures LockInv(s', x) { assert LockInv(s, x); }
    forall x | 0 <= x < |s.cpus| ensures PcInv(s', x) {
      assert PcInv(s, x);
      assert LockInv(s, src);
      assert !TraceOf(s.cpus[x], t).isCur;
    }
    forall u | u in s'.kernel ensures OnCpuInv(s', u) { assert OnCpuInv(s, u); }
  }

  lemma StealMoveKeeps(s: State, c: Cpu)
    requires Inv(s) && CanStealMove(s, c)
    ensures Inv(DoStealMove(s, c))
  {
    InTheftWindow(s, c);
    StealMoveTask(s, c);
    StealMoveSkeleton(s, c);
    var s' := DoStealMove(s, c);
    var t := s.cpus[c].pc.stealing.value;
    forall u ensures TaskInv(s', u) {
      if u != t {
        assert TaskInv(s, u);
        Frame(s, s', u);
      }
    }
  }

  /** The tasks an agent carries from one run queue to its own. */
  lemma InFlight(s: State, c: Cpu, t: Tid)
    requires Inv(s) && c < |s.cpus| && t in Got(s.cpus[c].pc)
    ensures t in s.tasks && t in s.kernel && s.tasks[t].cpu == c && s.kernel[t].channel == c
    ensures s.tasks[t].run == Runnable && s.tasks[t].onRq == Dequeued
    ensures forall x :: 0 <= x < |s.cpus| ==>
      TraceOf(s.cpus[x], t) == Trace(false, false, x == c, false, if x == c then Of(s.cpus[x].chan, t) else [], Closed)
  {
    assert TaskInv(s, t);
    assert TraceOf(s.cpus[c], t).inFlight;
    assert Fits(TraceOf(s.cpus[c], t), c, s.tasks[t], s.kernel[t]);
    assert Fits(TraceOf(s.cpus[s.kernel[t].channel], t), s.kernel[t].channel, s.tasks[t], s.kernel[t]);
    forall x | 0 <= x < |s.cpus|
      ensures TraceOf(s.cpus[x], t) ==
        Trace(false, false, x == c, false, if x == c then Of(s.cpus[x].chan, t) else [], Closed)
    {
      assert Fits(TraceOf(s.cpus[x], t), x, s.tasks[t], s.kernel[t]);
    }
  }

  lemma AttachTask(s: State, c: Cpu, t: Tid)
    requires Inv(s) && CanAttach(s, c)
    ensures TaskInv(DoAttach(s, c), t)
  {
    var s' := DoAttach(s, c);
    assert TaskInv(s, t);
    if t in s.cpus[c].pc.taken {
      InFlight(s, c, t);
      forall x | 0 <= x < |s.cpus| ensures Fits(TraceOf(s'.cpus[x], t), x, s'.tasks[t], s'.kernel[t]) {
        assert TraceOf(s'.cpus[x], t) ==
          Trace(x == c, false, false, false, if x == c then Of(s.cpus[x].chan, t) else [], Closed);
      }
    } else {
      Frame(s, s', t);
    }
  }

  lemma AttachSkeleton(s: State, c: Cpu)
    requires Inv(s) && CanAttach(s, c)
    ensures Skeleton(DoAttach(s, c))
  {
    var s' := DoAttach(s, c);
    forall x | 0 <= x < |s.cpus| ensures LockInv(s', x) { assert LockInv(s, x); }
    forall x | 0 <= x < |s.cpus| ensures PcInv(s', x) { assert PcInv(s, x); assert LockInv(s, c); }
    forall u | u in s'.kernel ensures OnCpuInv(s', u) { assert OnCpuInv(s, u); }
  }

  lemma AttachKeeps(s: State, c: Cpu)
    requires Inv(s) && CanAttach(s, c)
    ensures Inv(DoAttach(s, c))
  {
    forall t ensures TaskInv(DoAttach(s, c), t) { AttachTask(s, c, t); }
    AttachSkeleton(s, c);
    forall t | t in s.cpus[c].pc.taken ensures t in s.tasks && s.tasks[t].onRq in FromOnRq(Queued) {
      InFlight(s, c, t);
    }
  }

  //---------------------------------------------------------------------------
  // The induction
  //---------------------------------------------------------------------------

  lemma InitHolds(s: State)
    requires Init(s)
    ensures Inv(s)
  {
    forall t ensures TaskInv(s, t) {}
  }

  /** Between AttachTasks and PickNextTask the run queue is never empty. */
  lemma StockedHasWork(s: State, c: Cpu)
    requires Inv(s)
    ensures !CanFindNothing(s, c)
  {
    if c < |s.cpus| { assert PcInv(s, c); }
  }

  lemma StepKeeps(s: State, a: Action)
    requires Inv(s) && Enabled(s, a)
    ensures Inv(Next(s, a))
  {
    match a
    case KernelNew(t, runnable) => KernelNewKeeps(s, t, runnable);
    case KernelPost(t, kind) => KernelPostKeeps(s, t, kind);
    case Wake(c) => WakeKeeps(s, c);
    case Dispatch(c, affinity) => DispatchKeeps(s, c, affinity);
    case EndDrain(c) => EndDrainKeeps(s, c);
    case MigrateHere(c, t) => MigrateHereKeeps(s, c, t);
    case Associate(c, t, d) => AssociateKeeps(s, c, t, d);
    case FinishMigrate(c) => FinishMigrateKeeps(s, c);
    case EndMigrate(c) => EndMigrateKeeps(s, c);
    case BoostedSchedule(c) => BoostedScheduleKeeps(s, c);
    case KeepCurrent(c) => KeepCurrentKeeps(s, c);
    case PickTask(c, t) => PickTaskKeeps(s, c, t);
    case PickNone(c, balance) => PickNoneKeeps(s, c, balance);
    case SkipBalance(c) => SkipBalanceKeeps(s, c);
    case StartDetach(c, src, n) => StartDetachKeeps(s, c, src, n);
    case StealAssociate(c, t) => StealAssociateKeeps(s, c, t);
    case StealMove(c) => StealMoveKeeps(s, c);
    case EndDetach(c) => EndDetachKeeps(s, c);
    case Attach(c) => AttachKeeps(s, c);
    case PickStolen(c, t) => PickStolenKeeps(s, c, t);
    case FindNothing(c) => StockedHasWork(s, c);
    case Commit(c, success) => CommitKeeps(s, c, success);
  }
}
