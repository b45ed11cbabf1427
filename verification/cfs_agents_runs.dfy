/** What every run of the multi-agent CFS scheduler guarantees. */
module CfsAgentsRuns {
  import opened Common
  import opened CfsTaskState
  import opened CfsAgents
  import opened CfsAgentsInvariant

  ghost predicate Steps(s: State, a: Action, s': State) {
    Enabled(s, a) && s' == Next(s, a)
  }

  ghost predicate Run(states: seq<State>, actions: seq<Action>) {
    && |states| == |actions| + 1 && Init(states[0])
    && forall i :: 0 <= i < |actions| ==> Steps(states[i], actions[i], states[i + 1])
  }

  /** A state some run passes through. */
  ghost predicate Reachable(s: State) {
    exists states, actions :: Run(states, actions) && s in states
  }

  lemma InitReachable(s: State)
    requires Init(s)
    ensures Reachable(s)
  {
    assert Run([s], []);
  }

  lemma StepReachable(s: State, a: Action)
    requires Reachable(s) && Enabled(s, a)
    ensures Reachable(Next(s, a))
  {
    var states, actions :| Run(states, actions) && s in states;
    var i :| 0 <= i < |states| && states[i] == s;
    RunFork(states, actions, i, a, Next(s, a));
  }

  /** A run may go another way after its i-th state. */
  lemma RunFork(states: seq<State>, actions: seq<Action>, i: nat, a: Action, s': State)
    requires Run(states, actions) && i < |states| && Steps(states[i], a, s')
    ensures Reachable(s')
  {
    var states', actions' := states[..i + 1] + [s'], actions[..i] + [a];
    forall j | 0 <= j < |actions'| ensures Steps(states'[j], actions'[j], states'[j + 1]) {
      if j < i { assert Steps(states[j], actions[j], states[j + 1]); }
    }
    assert Run(states', actions') && states'[i + 1] == s';
  }

  lemma {:induction false} RunKeepsInv(states: seq<State>, actions: seq<Action>, i: nat)
    requires Run(states, actions) && i < |states|
    ensures Inv(states[i])
  {
    if i == 0 {
      InitHolds(states[0]);
    } else {
      RunKeepsInv(states, actions, i - 1);
      assert Steps(states[i - 1], actions[i - 1], states[i]);
      StepKeeps(states[i - 1], actions[i - 1]);
    }
  }

  lemma ReachableInv(s: State)
    requires Reachable(s)
    ensures Inv(s)
  {
    var states, actions :| Run(states, actions) && s in states;
    var i :| 0 <= i < |states| && states[i] == s;
    RunKeepsInv(states, actions, i);
  }

  /**
   No CHECK fails in any run: every state change is one the kTo masks allow, BLOCKED, YIELD and
   PREEMPT name the current task of the CPU that handles them, sequence numbers only grow, and
   no message is dropped for want of a task.
   */
  lemma ChecksNeverFail(s: State)
    requires Reachable(s)
    ensures !s.failed
  {
    ReachableInv(s);
  }

  //---------------------------------------------------------------------------
  // Placement
  //---------------------------------------------------------------------------

  datatype Place = OnRunQueue(c: Cpu) | OnMigrationQueue(c: Cpu) | InFlightTo(c: Cpu) | CurrentOf(c: Cpu)

  ghost predicate IsAt(s: State, t: Tid, p: Place) {
    p.c < |s.cpus|
    && match p
       case OnRunQueue(c) => t in s.cpus[c].rq
       case OnMigrationQueue(c) => t in s.cpus[c].mq
       case InFlightTo(c) => t in Got(s.cpus[c].pc)
       case CurrentOf(c) => s.cpus[c].cur == Some(t)
  }

  /** Where a task must be; a blocked one may still be `current`, or nowhere. */
  function PlaceFor(task: Task): Place {
    match (task.run, task.onRq)
    case (Runnable, Queued) => OnRunQueue(task.cpu)
    case (Runnable, Migrating) => OnMigrationQueue(task.cpu)
    case (Runnable, Dequeued) => InFlightTo(task.cpu)
    case _ => CurrentOf(task.cpu)
  }

  /** Every known task is in exactly one place, which its state and cpu name; unknown ones are in none. */
  lemma ExactlyOnePlace(s: State, t: Tid)
    requires Reachable(s)
    ensures t in s.tasks ==> s.tasks[t].run != Blocked ==>
      forall p :: IsAt(s, t, p) <==> p == PlaceFor(s.tasks[t])
    ensures t in s.tasks ==> s.tasks[t].run == Blocked ==>
      forall p :: IsAt(s, t, p) ==> p == PlaceFor(s.tasks[t])
    ensures t in s.tasks ==> s.tasks[t].run == Runnable || s.tasks[t].onRq == Dequeued
    ensures t !in s.tasks ==> forall p :: !IsAt(s, t, p)
  {
    ReachableInv(s);
    assert TaskInv(s, t);
    forall p: Place | p.c < |s.cpus|
      ensures t in s.tasks && s.tasks[t].run != Blocked ==> (IsAt(s, t, p) <==> p == PlaceFor(s.tasks[t]))
      ensures t in s.tasks && IsAt(s, t, p) ==> p == PlaceFor(s.tasks[t])
      ensures t !in s.tasks ==> !IsAt(s, t, p)
    {
      var tr := TraceOf(s.cpus[p.c], t);
      if t in s.tasks {
        assert Fits(tr, p.c, s.tasks[t], s.kernel[t]);
      } else if t in s.kernel {
        assert Unplaced(tr, p.c, s.kernel[t]);
      }
      assert tr.inRq == (t in s.cpus[p.c].rq);
    }
  }

  /** An agent will hear of the task or find it. */
  ghost predicate Traceable(s: State, t: Tid)
    requires t in s.kernel && s.kernel[t].channel < |s.cpus|
  {
    || Of(s.cpus[s.kernel[t].channel].chan, t) != []
    || (t in s.tasks && (s.tasks[t].run == Runnable || s.tasks[t].run == Running) && IsAt(s, t, PlaceFor(s.tasks[t])))
  }

  /** A task the kernel could run is either about to be heard of, or somewhere an agent will find it. */
  lemma NoRunnableTaskLost(s: State, t: Tid)
    requires Reachable(s) && t in s.kernel && s.kernel[t].run == KRunnable
    ensures s.kernel[t].channel < |s.cpus| && Traceable(s, t)
  {
    ReachableInv(s);
    assert TaskInv(s, t);
    if t in s.tasks && s.tasks[t].run != Blocked {
      ExactlyOnePlace(s, t);
      assert IsAt(s, t, PlaceFor(s.tasks[t]));
    }
  }

  //---------------------------------------------------------------------------
  // Ownership
  //---------------------------------------------------------------------------

  /** An agent has moved the task's channel and not yet written task->cpu. */
  predicate WindowOpen(s: State, t: Tid)
    requires t in s.tasks && t in s.kernel
  {
    var c, d := s.tasks[t].cpu, s.kernel[t].channel;
    c < |s.cpus| && d < |s.cpus|
    && (WindowOf(s.cpus[c].pc, t) == ByMigrate(d) || WindowOf(s.cpus[d].pc, t) == ByTheft(c))
  }

  /**
   All undelivered messages of a task are in one channel, and that is the channel of task->cpu
   exactly when no association window is open for the task.  Whoever opened the window holds
   the lock that keeps the other CPU's agent from touching the task: a migration the lock of the
   new CPU, a theft that of the old one.
   */
  lemma MessagesFollowTheTask(s: State, t: Tid)
    requires Reachable(s) && t in s.tasks
    ensures t in s.kernel && s.kernel[t].channel < |s.cpus| && s.tasks[t].cpu < |s.cpus|
    ensures forall d :: 0 <= d < |s.cpus| && d != s.kernel[t].channel ==> Of(s.cpus[d].chan, t) == []
    ensures s.kernel[t].channel == s.tasks[t].cpu <==> !WindowOpen(s, t)
    ensures var c, d := s.tasks[t].cpu, s.kernel[t].channel;
      && (WindowOf(s.cpus[c].pc, t) == ByMigrate(d) ==> s.cpus[d].lock == Some(c))
      && (WindowOf(s.cpus[d].pc, t) == ByTheft(c) ==> s.cpus[c].lock == Some(d))
  {
    ReachableInv(s);
    assert TaskInv(s, t);
    var c, d := s.tasks[t].cpu, s.kernel[t].channel;
    forall x | 0 <= x < |s.cpus| && x != d ensures Of(s.cpus[x].chan, t) == [] {
      assert Fits(TraceOf(s.cpus[x], t), x, s.tasks[t], s.kernel[t]);
    }
    assert Fits(TraceOf(s.cpus[c], t), c, s.tasks[t], s.kernel[t]);
    assert Fits(TraceOf(s.cpus[d], t), d, s.tasks[t], s.kernel[t]);
    assert LockInv(s, c) && LockInv(s, d);
  }

  /** Only the agent of task->cpu ever handles a message of the task. */
  lemma OnlyTheOwnerHandles(s: State, c: Cpu, affinity: set<Cpu>)
    requires Reachable(s) && Enabled(s, Dispatch(c, affinity))
    ensures var m := s.cpus[c].chan[0];
      if m.kind.New? then m.tid !in s.tasks else m.tid in s.tasks && s.tasks[m.tid].cpu == c
  {
    ReachableInv(s);
    DrainerOwns(s, c);
  }

  /** While an undelivered message exists for a live task, the kernel refuses to re-associate it. */
  lemma StaleBarrierRefused(s: State, t: Tid)
    requires Reachable(s) && t in s.tasks && BarrierFresh(s, t)
    ensures forall d :: 0 <= d < |s.cpus| ==> Of(s.cpus[d].chan, t) == []
  {
    ReachableInv(s);
    MessagesFollowTheTask(s, t);
    assert TaskInv(s, t);
    FreshMeansDrained(s, t);
  }

  /** The simpler claim that a free lock of task->cpu is enough for its channel to hold the messages. */
  ghost predicate FreeLockMeansHome(s: State) {
    forall t, d | t in s.tasks && 0 <= d < |s.cpus| && s.tasks[t].cpu < |s.cpus| ::
      d != s.tasks[t].cpu && s.cpus[s.tasks[t].cpu].lock == None ==> Of(s.cpus[d].chan, t) == []
  }

  /** No agent is inside Migrate, its own lock free, for a task that has already been sent a message. */
  ghost predicate NoMessageDuringMigrate(s: State) {
    forall c | 0 <= c < |s.cpus| && s.cpus[c].pc.Associated? && s.cpus[c].pc.dst < |s.cpus| ::
      s.cpus[c].lock == None ==> Of(s.cpus[s.cpus[c].pc.dst].chan, s.cpus[c].pc.tid) == []
  }

  lemma FreeLockMeansHomeExactly(s: State)
    requires Reachable(s)
    ensures FreeLockMeansHome(s) <==> NoMessageDuringMigrate(s)
  {
    ReachableInv(s);
    if FreeLockMeansHome(s) {
      forall c | 0 <= c < |s.cpus| && s.cpus[c].pc.Associated? && s.cpus[c].pc.dst < |s.cpus|
        && s.cpus[c].lock == None
        ensures Of(s.cpus[s.cpus[c].pc.dst].chan, s.cpus[c].pc.tid) == []
      {
        InMigrateWindow(s, c);
      }
    }
    if NoMessageDuringMigrate(s) {
      forall t, d | t in s.tasks && 0 <= d < |s.cpus| && s.tasks[t].cpu < |s.cpus| && d != s.tasks[t].cpu
        && s.cpus[s.tasks[t].cpu].lock == None
        ensures Of(s.cpus[d].chan, t) == []
      {
        MessagesFollowTheTask(s, t);
      }
    }
  }

  // A run of two agents in which it does not hold: a message overtakes the write of
  // task->cpu in Migrate.

  const IDLE := CpuState({}, {}, None, [], Asleep, None)

  function First(mq: set<Tid>, chan: seq<Msg>, pc: Pc, lock: Option<Cpu>): CpuState {
    CpuState({}, mq, None, chan, pc, lock)
  }

  const S0 := State([IDLE, IDLE], map[], map[], false)
  const S1 := State([First({}, [Msg(7, 1, New(true))], Asleep, None), IDLE],
                    map[], map[7 := KernelTask(1, 0, KRunnable)], false)
  const S2 := S1.(cpus := [First({}, [Msg(7, 1, New(true))], Draining, Some(0)), IDLE])
  const S3 := S2.(cpus := [First({7}, [], Draining, Some(0)), IDLE],
                  tasks := map[7 := Task(Runnable, Migrating, 0, 1, {0, 1})])
  const S4 := S3.(cpus := [First({7}, [], MigratingTasks, None), IDLE])
  const S5 := S4.(cpus := [First({7}, [], Associated(7, 1), None), IDLE.(lock := Some(0))],
                  kernel := map[7 := KernelTask(1, 1, KRunnable)])
  const S6 := S5.(cpus := [First({7}, [], Associated(7, 1), None),
                           IDLE.(lock := Some(0), chan := [Msg(7, 2, AffinityChanged)])],
                  kernel := map[7 := KernelTask(2, 1, KRunnable)])

  lemma OvertakingPrefix()
    ensures Init(S0)
    ensures CanKernelNew(S0, 7) && DoKernelNew(S0, 7, true) == S1
    ensures CanWake(S1, 0) && DoWake(S1, 0) == S2
  {
    assert [] + [Msg(7, 1, New(true))] == [Msg(7, 1, New(true))];
    assert DoKernelNew(S0, 7, true).cpus == S1.cpus;
    assert DoWake(S1, 0).cpus == S2.cpus;
  }

  lemma OvertakingDrain()
    ensures CanDispatch(S2, 0) && DoDispatch(S2, 0, {0, 1}) == S3
    ensures CanEndDrain(S3, 0) && DoEndDrain(S3, 0) == S4
  {
    var v := NewView(true, 1, 0, {0, 1});
    assert v == View(Task(Runnable, Migrating, 0, 1, {0, 1}), true, false, true, false, true);
    assert [Msg(7, 1, New(true))][1..] == [];
    assert Consume(S2, 0).cpus == [First({}, [], Draining, Some(0)), IDLE];
    assert Member({}, 7, true) == {7} && Member({}, 7, false) == {};
    assert DoDispatch(S2, 0, {0, 1}).cpus == S3.cpus;
    assert DoEndDrain(S3, 0).cpus == S4.cpus;
  }

  lemma OvertakingSuffix()
    ensures CanAssociate(S4, 0, 7, 1) && DoAssociate(S4, 0, 7, 1) == S5
    ensures CanKernelPost(S5, 7, AffinityChanged) && DoKernelPost(S5, 7, AffinityChanged) == S6
  {
    assert DoAssociate(S4, 0, 7, 1).cpus == S5.cpus;
    assert [] + [Msg(7, 2, AffinityChanged)] == [Msg(7, 2, AffinityChanged)];
    assert DoKernelPost(S5, 7, AffinityChanged).cpus == S6.cpus;
  }

  lemma FreeLockMeansHomeFails()
    ensures Reachable(S6) && !FreeLockMeansHome(S6)
  {
    OvertakingPrefix();
    OvertakingDrain();
    OvertakingSuffix();
    InitReachable(S0);
    StepReachable(S0, KernelNew(7, true));
    StepReachable(S1, Wake(0));
    StepReachable(S2, Dispatch(0, {0, 1}));
    StepReachable(S3, EndDrain(0));
    StepReachable(S4, Associate(0, 7, 1));
    StepReachable(S5, KernelPost(7, AffinityChanged));
    assert Of(S6.cpus[1].chan, 7) != [];
  }

  //---------------------------------------------------------------------------
  // Stealing and locking
  //---------------------------------------------------------------------------

  /** What an agent has stolen and attached, other thieves leave it a task to run. */
  lemma StolenWorkSurvives(s: State, c: Cpu)
    requires Reachable(s) && Runs(s, c, Stocked) && Free(s, c)
    ensures !Enabled(s, FindNothing(c))
    ensures exists t: Tid :: Enabled(s, PickStolen(c, t)) && Next(s, PickStolen(c, t)).cpus[c].cur == Some(t)
  {
    ReachableInv(s);
    assert PcInv(s, c);
    var t :| t in s.cpus[c].rq;
    QueuedAtHome(s, c, t);
    assert Enabled(s, PickStolen(c, t));
  }

  /** A thief leaves its victim at least one task. */
  lemma TheftLeavesOne(s: State, c: Cpu)
    requires Reachable(s) && Enabled(s, StealMove(c))
    ensures var src := s.cpus[c].pc.src;
      && |Next(s, StealMove(c)).cpus[src].rq| == |s.cpus[src].rq| - 1
      && Next(s, StealMove(c)).cpus[src].rq != {}
  {
    ReachableInv(s);
    InTheftWindow(s, c);
    var t, src := s.cpus[c].pc.stealing.value, s.cpus[c].pc.src;
    assert TraceOf(s.cpus[src], t).inRq;
    assert Next(s, StealMove(c)).cpus[src].rq == s.cpus[src].rq - {t};
  }

  /** Whoever holds a run queue lock can go on without another one, so agents never deadlock. */
  lemma LockHolderCanMove(s: State, d: Cpu)
    requires Reachable(s) && d < |s.cpus| && s.cpus[d].lock.Some?
    ensures var h := s.cpus[d].lock.value;
      Enabled(s, Dispatch(h, {})) || Enabled(s, EndDrain(h)) || Enabled(s, FinishMigrate(h))
      || Enabled(s, StealMove(h)) || Enabled(s, EndDetach(h))
  {
    ReachableInv(s);
    assert LockInv(s, d);
    assert PcInv(s, s.cpus[d].lock.value);
  }
}
