/** A thread that leaves ghOSt and enters again while the agents still keep its old record. */
module CfsAgentsReentry {
  /*
   Whether its TASK_NEW is lost, and a run in which it is.
   */

  import opened Common
  import opened CfsTaskState
  import opened CfsAgents
  import opened CfsAgentsInvariant
  import opened CfsAgentsRuns

  /** The thread enters and the agent that its messages go to, draining, handles TASK_NEW. */
  function Reentered(s: State, t: Tid, affinity: set<Cpu>): State
    requires IsOutside(s, t) && Runs(s, DEFAULT_CHANNEL, Draining) && s.cpus[DEFAULT_CHANNEL].chan == []
  {
    DoDispatch(Enter(s, t, true), DEFAULT_CHANNEL, affinity)
  }

  /**
   A thread may also enter again while its old record waits for PickNextTask to free it.  If TASK_NEW is
   handled then, it is dropped and the task is lost, with no message left; if the record has been freed
   before, it is not.
   */
  lemma ReentryIsLostIff(s: State, t: Tid, affinity: set<Cpu>)
    requires Reachable(s) && IsOutside(s, t) && Runs(s, DEFAULT_CHANNEL, Draining)
    requires s.cpus[DEFAULT_CHANNEL].chan == []
    ensures var s' := Reentered(s, t, affinity);
      && t in s'.kernel && s'.kernel[t].run == KRunnable && s'.kernel[t].channel < |s'.cpus|
      && (Traceable(s', t) <==> t !in s.tasks)
      && (t in s.tasks ==> s.tasks[t].run == Done && forall d :: 0 <= d < |s'.cpus| ==> Of(s'.cpus[d].chan, t) == [])
  {
    ReachableInv(s);
    assert TaskInv(s, t);
    var s1, s' := Enter(s, t, true), Reentered(s, t, affinity);
    assert s1.cpus[DEFAULT_CHANNEL].chan == [Msg(t, 1, New(true))];
    if t in s.tasks {
      assert [Msg(t, 1, New(true))][1..] == [];
      assert s'.cpus == s.cpus;
    } else {
      StepReachable(s, KernelNew(t, true));
      StepReachable(s1, Dispatch(DEFAULT_CHANNEL, affinity));
      NoRunnableTaskLost(s', t);
    }
  }

  //---------------------------------------------------------------------------
  // One agent: the task runs, departs, and its record is still current
  //---------------------------------------------------------------------------

  const T: Tid := 7

  function One(cpu: CpuState, tasks: map<Tid, Task>, k: KernelTask): State { State([cpu], tasks, map[T := k], false) }

  function Record(run: RunState, onRq: OnRq): map<Tid, Task> { map[T := Task(run, onRq, 0, 1, {0})] }

  const K_NEW := KernelTask(1, 0, KRunnable)
  const K_GONE := KernelTask(2, 0, KGone)

  const EMPTY := State([IDLE], map[], map[], false)
  const POSTED := One(IDLE.(chan := [Msg(T, 1, New(true))]), map[], K_NEW)
  const WOKEN := One(CpuState({}, {}, None, [Msg(T, 1, New(true))], Draining, Some(0)), map[], K_NEW)
  const KNOWN := One(CpuState({}, {T}, None, [], Draining, Some(0)), Record(Runnable, Migrating), K_NEW)
  const DRAINED := One(CpuState({}, {T}, None, [], MigratingTasks, None), Record(Runnable, Migrating), K_NEW)
  const QUEUED := One(CpuState({T}, {}, None, [], MigratingTasks, None), Record(Runnable, Queued), K_NEW)
  const PICKING := One(CpuState({T}, {}, None, [], Scheduling, None), Record(Runnable, Queued), K_NEW)
  const PICKED := One(CpuState({}, {}, Some(T), [], Committing, None), Record(Running, Dequeued), K_NEW)
  const RUNNING :=
    One(CpuState({}, {}, Some(T), [], Asleep, None), Record(Running, Dequeued), K_NEW.(run := KOnCpu(0)))
  const LEFT :=
    One(CpuState({}, {}, Some(T), [Msg(T, 2, Departed)], Asleep, None), Record(Running, Dequeued), K_GONE)
  const WOKEN_AGAIN :=
    One(CpuState({}, {}, Some(T), [Msg(T, 2, Departed)], Draining, Some(0)), Record(Running, Dequeued), K_GONE)
  const DEPARTED := One(CpuState({}, {}, Some(T), [], Draining, Some(0)), Record(Done, Dequeued), K_GONE)

  lemma Enters()
    ensures Init(EMPTY) && CanKernelNew(EMPTY, T) && DoKernelNew(EMPTY, T, true) == POSTED
    ensures CanWake(POSTED, 0) && DoWake(POSTED, 0) == WOKEN
  {
    assert [] + [Msg(T, 1, New(true))] == [Msg(T, 1, New(true))];
    assert DoKernelNew(EMPTY, T, true).cpus == POSTED.cpus;
    assert DoWake(POSTED, 0).cpus == WOKEN.cpus;
  }

  lemma BecomesKnown()
    ensures CanDispatch(WOKEN, 0) && DoDispatch(WOKEN, 0, {0}) == KNOWN
    ensures CanEndDrain(KNOWN, 0) && DoEndDrain(KNOWN, 0) == DRAINED
  {
    var v := NewView(true, 1, 0, {0});
    assert v == View(Task(Runnable, Migrating, 0, 1, {0}), true, false, true, false, true);
    assert [Msg(T, 1, New(true))][1..] == [];
    assert Consume(WOKEN, 0).cpus == [CpuState({}, {}, None, [], Draining, Some(0))];
    assert Member({}, T, true) == {T} && Member({}, T, false) == {};
    assert DoDispatch(WOKEN, 0, {0}).cpus == KNOWN.cpus;
    assert DoEndDrain(KNOWN, 0).cpus == DRAINED.cpus;
  }

  lemma IsQueued()
    ensures CanMigrateHere(DRAINED, 0, T) && DoMigrateHere(DRAINED, 0, T) == QUEUED
    ensures CanEndMigrate(QUEUED, 0) && DoEndMigrate(QUEUED, 0) == PICKING
  {
    assert Member({}, T, true) == {T} && Member({T}, T, false) == {};
    assert DoMigrateHere(DRAINED, 0, T).cpus == QUEUED.cpus;
    assert DoMigrateHere(DRAINED, 0, T).tasks == QUEUED.tasks;
    assert DoEndMigrate(QUEUED, 0).cpus == PICKING.cpus;
  }

  lemma IsPicked()
    ensures CanPickTask(PICKING, 0, T) && DoPickTask(PICKING, 0, T) == PICKED
    ensures CanCommit(PICKED, 0, true) && DoCommit(PICKED, 0, true) == RUNNING
  {
    assert Member({T}, T, false) == {} && Member({}, T, false) == {};
    assert DoPickTask(PICKING, 0, T).cpus == PICKED.cpus;
    assert DoPickTask(PICKING, 0, T).tasks == PICKED.tasks;
    assert DoCommit(PICKED, 0, true).cpus == RUNNING.cpus;
    assert DoCommit(PICKED, 0, true).kernel == RUNNING.kernel;
  }

  lemma Departs()
    ensures CanKernelPost(RUNNING, T, CfsTaskState.Departed) && DoKernelPost(RUNNING, T, CfsTaskState.Departed) == LEFT
    ensures CanWake(LEFT, 0) && DoWake(LEFT, 0) == WOKEN_AGAIN
    ensures CanDispatch(WOKEN_AGAIN, 0) && DoDispatch(WOKEN_AGAIN, 0, {0}) == DEPARTED
  {
    assert [] + [Msg(T, 2, Departed)] == [Msg(T, 2, Departed)] && [Msg(T, 2, Departed)][1..] == [];
    assert DoKernelPost(RUNNING, T, CfsTaskState.Departed).cpus == LEFT.cpus;
    assert DoKernelPost(RUNNING, T, CfsTaskState.Departed).kernel == LEFT.kernel;
    assert DoWake(LEFT, 0).cpus == WOKEN_AGAIN.cpus && DoWake(LEFT, 0).kernel == WOKEN_AGAIN.kernel;
    assert Member({}, T, false) == {};
    assert DoDispatch(WOKEN_AGAIN, 0, {0}).cpus == DEPARTED.cpus;
    assert DoDispatch(WOKEN_AGAIN, 0, {0}).tasks == DEPARTED.tasks;
  }

  lemma IsReached()
    ensures Reachable(DEPARTED)
  {
    Enters();
    BecomesKnown();
    IsQueued();
    IsPicked();
    Departs();
    InitReachable(EMPTY);
    StepReachable(EMPTY, KernelNew(T, true));
    StepReachable(POSTED, Wake(0));
    StepReachable(WOKEN, Dispatch(0, {0}));
    StepReachable(KNOWN, EndDrain(0));
    StepReachable(DRAINED, MigrateHere(0, T));
    StepReachable(QUEUED, EndMigrate(0));
    StepReachable(PICKING, PickTask(0, T));
    StepReachable(PICKED, Commit(0, true));
    StepReachable(RUNNING, KernelPost(T, CfsTaskState.Departed));
    StepReachable(LEFT, Wake(0));
    StepReachable(WOKEN_AGAIN, Dispatch(0, {0}));
  }

  /** The thread enters again before PickNextTask has freed its record, and is lost. */
  lemma ReentryLoses()
    ensures Reachable(DEPARTED) && IsOutside(DEPARTED, T)
    ensures var s := Reentered(DEPARTED, T, {0});
      && s.kernel[T].run == KRunnable && s.tasks[T].run == Done && Of(s.cpus[0].chan, T) == []
      && !Traceable(s, T)
  {
    IsReached();
    ReentryIsLostIff(DEPARTED, T, {0});
  }
}
