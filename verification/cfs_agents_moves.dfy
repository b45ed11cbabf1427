/** What each step of an agent does to a task, as seen from outside. */
module CfsAgentsMoves {
  /*
   Where the task is and in which run state, which CPUs its affinity allows, in which order an agent takes
   its steps, what it can always do, and what moves the kernel.
   */

  import opened Common
  import opened CfsTaskState
  import opened CfsAgents
  import opened CfsAgentsInvariant
  import opened CfsAgentsRuns

  //---------------------------------------------------------------------------
  // Where a task stands
  //---------------------------------------------------------------------------

  /** The run state of a task, None if no agent knows it, and the place that holds it. */
  datatype Standing = Standing(run: Option<RunState>, place: Option<Place>)

  ghost predicate Stands(s: State, t: Tid, st: Standing) {
    && (st.run == None ==> t !in s.tasks)
    && (st.run.Some? ==> t in s.tasks && s.tasks[t].run == st.run.value)
    && (st.place == None ==> forall p :: !IsAt(s, t, p))
    && (st.place.Some? ==> forall p :: IsAt(s, t, p) <==> p == st.place.value)
  }

  const UNKNOWN := Standing(None, None)

  function StandingOf(s: State, t: Tid): Standing {
    if t !in s.tasks then UNKNOWN
    else
      var task := s.tasks[t];
      if task.run != Blocked then Standing(Some(task.run), Some(PlaceFor(task)))
      else if task.cpu < |s.cpus| && s.cpus[task.cpu].cur == Some(t) then
        Standing(Some(Blocked), Some(CurrentOf(task.cpu)))
      else Standing(Some(Blocked), None)
  }

  lemma StandsThere(s: State, t: Tid)
    requires Reachable(s)
    ensures Stands(s, t, StandingOf(s, t))
  {
    ExactlyOnePlace(s, t);
    if t in s.tasks && s.tasks[t].run == Blocked {
      forall p | IsAt(s, t, p) ensures p == CurrentOf(s.tasks[t].cpu) { assert p == PlaceFor(s.tasks[t]); }
    }
  }

  //---------------------------------------------------------------------------
  // What a step makes of it
  //---------------------------------------------------------------------------

  /** A message about the task, handled by the agent of CPU c; allowed are the CPUs of its affinity then. */
  function Told(st: Standing, kind: Kind, c: Cpu, allowed: set<Cpu>): Standing {
    var queued := Standing(Some(Runnable), Some(OnRunQueue(c)));
    var migrating := Standing(Some(Runnable), Some(OnMigrationQueue(c)));
    match kind
    case New(runnable) => if runnable then migrating else Standing(Some(Blocked), None)
    case Wakeup => migrating
    case Block(_) => Standing(Some(Blocked), Some(CurrentOf(c)))
    case Yield(_) => if c in allowed then queued else migrating
    case Preempt(_) => if c in allowed then queued else migrating
    case Dead => if st.place == Some(CurrentOf(c)) then Standing(Some(Done), st.place) else UNKNOWN
    case Departed => if st.place == Some(CurrentOf(c)) then Standing(Some(Done), st.place) else UNKNOWN
    case AffinityChanged => if st == queued && c !in allowed then migrating else st
    case PriorityChanged => st
  }

  /** The current task of CPU c when its agent looks for another one. */
  function Replaced(st: Standing, c: Cpu): Standing {
    if st.place != Some(CurrentOf(c)) then st
    else match st.run
      case Some(Blocked) => Standing(Some(Blocked), None)
      case Some(Done) => UNKNOWN
      case _ => Standing(Some(Runnable), Some(OnRunQueue(c)))
  }

  /** What step a makes of a task that stands at st. */
  function Moved(s: State, a: Action, t: Tid, st: Standing, allowed: set<Cpu>): Standing
    requires Enabled(s, a)
  {
    match a
    case Dispatch(c, _) => if s.cpus[c].chan[0].tid == t then Told(st, s.cpus[c].chan[0].kind, c, allowed) else st
    case MigrateHere(c, u) => if t == u then Standing(Some(Runnable), Some(OnRunQueue(c))) else st
    case FinishMigrate(c) =>
      if t == s.cpus[c].pc.tid then Standing(Some(Runnable), Some(OnRunQueue(s.cpus[c].pc.dst))) else st
    case BoostedSchedule(c) => Replaced(st, c)
    case PickTask(c, u) => if t == u then Standing(Some(Running), Some(CurrentOf(c))) else Replaced(st, c)
    case PickNone(c, _) => Replaced(st, c)
    case StealMove(c) =>
      if Some(t) == s.cpus[c].pc.stealing then Standing(Some(Runnable), Some(InFlightTo(c))) else st
    case Attach(c) => if t in s.cpus[c].pc.taken then Standing(Some(Runnable), Some(OnRunQueue(c))) else st
    case PickStolen(c, u) => if t == u then Standing(Some(Running), Some(CurrentOf(c))) else st
    case _ => st
  }

  lemma ToldIs(v: View, kind: Kind, num: nat, c: Cpu, affinity: set<Cpu>)
    requires v.live && v.ok && Settled(v, c) && Expected(Some(v.task.run), kind, c) && num > v.task.seqnum
    ensures var v' := v.Handle(kind, num, c, affinity);
      && (v'.live ==> v'.task.cpu == c
                      && v'.task.affinity == if kind == AffinityChanged then affinity else v.task.affinity)
      && ViewStanding(v', c) ==
           Told(ViewStanding(v, c), kind, c, if kind == AffinityChanged then affinity else v.task.affinity)
  {
  }

  function ViewStanding(v: View, c: Cpu): Standing {
    if !v.live then UNKNOWN
    else if v.task.run != Blocked then Standing(Some(v.task.run), Some(PlaceFor(v.task)))
    else if v.isCur then Standing(Some(Blocked), Some(CurrentOf(c)))
    else Standing(Some(Blocked), None)
  }

  /** The step may write the affinity of task t. */
  predicate WritesAffinity(s: State, a: Action, t: Tid)
    requires Enabled(s, a)
  {
    && a.Dispatch? && s.cpus[a.c].chan[0].tid == t
    && (s.cpus[a.c].chan[0].kind == AffinityChanged || (s.cpus[a.c].chan[0].kind.New? && t !in s.tasks))
  }

  /** The affinity of the task after the step. */
  function Allowed(s: State, a: Action, t: Tid): set<Cpu>
    requires Enabled(s, a)
  {
    if WritesAffinity(s, a, t) then a.affinity else if t in s.tasks then s.tasks[t].affinity else {}
  }

  /** What the step leaves of the task is as the table says. */
  predicate Fulfilled(s: State, a: Action, t: Tid, s': State)
    requires Enabled(s, a)
  {
    && StandingOf(s', t) == Moved(s, a, t, StandingOf(s, t), Allowed(s, a, t))
    && (t in s'.tasks ==> s'.tasks[t].affinity == Allowed(s, a, t))
  }

  lemma DispatchMoves(s: State, a: Action, t: Tid, s': State)
    requires Inv(s) && Enabled(s, a) && a.Dispatch? && s' == DoDispatch(s, a.c, a.affinity)
    ensures Fulfilled(s, a, t, s')
  {
    var c, m := a.c, s.cpus[a.c].chan[0];
    DrainerOwns(s, c);
    var s1, u := Consume(s, c), m.tid;
    assert TaskInv(s, u);
    if t == u && u in s.tasks {
      AtHomeWhenClosed(s, u);
      assert ViewOf(s1, c, u) == ViewOf(s, c, u);
      ToldIs(ViewOf(s, c, u), m.kind, m.num, c, a.affinity);
    }
  }

  lemma MigrateHereMoves(s: State, a: Action, t: Tid, s': State)
    requires Inv(s) && Enabled(s, a) && a.MigrateHere? && s' == DoMigrateHere(s, a.c, a.t)
    ensures Fulfilled(s, a, t, s')
  {
    QueuedForMigration(s, a.c, a.t);
  }

  lemma FinishMigrateMoves(s: State, a: Action, t: Tid, s': State)
    requires Inv(s) && Enabled(s, a) && a.FinishMigrate? && s' == DoFinishMigrate(s, a.c)
    ensures Fulfilled(s, a, t, s')
  {
    InMigrateWindow(s, a.c);
  }

  /** The current task of CPU c has been put back, freed or let go, and nothing else has moved. */
  predicate PutBackDone(s: State, c: Cpu, t: Tid, s': State) {
    && |s'.cpus| == |s.cpus| && c < |s.cpus| && s'.cpus[c].cur == None
    && (forall d :: 0 <= d < |s.cpus| && d != c ==> s'.cpus[d].cur == s.cpus[d].cur)
    && StandingOf(s', t) == Replaced(StandingOf(s, t), c)
    && (t in s'.tasks ==> t in s.tasks && s'.tasks[t].affinity == s.tasks[t].affinity)
  }

  lemma PutBackMoves(s: State, c: Cpu, t: Tid, s': State)
    requires Inv(s) && CanPick(s, c) && s' == PutBackCurrent(s, c)
    ensures PutBackDone(s, c, t, s')
  {
    if s.cpus[c].cur.Some? { QueuedAtHome(s, c, s.cpus[c].cur.value); }
    if t in s.tasks { assert TaskInv(s, t); }
  }

  lemma BoostedMoves(s: State, a: Action, t: Tid, s': State)
    requires Inv(s) && Enabled(s, a) && (a.BoostedSchedule? || a.PickNone?) && s' == Next(s, a)
    ensures Fulfilled(s, a, t, s')
  {
    PutBackMoves(s, a.c, t, PutBackCurrent(s, a.c));
  }

  /** Task u, on the run queue of CPU c, becomes current there. */
  lemma TakeMoves(s: State, c: Cpu, u: Tid, t: Tid, s': State)
    requires c < |s.cpus| && u in s.tasks && s.tasks[u].cpu == c && s.cpus[c].cur == None
    requires s' == SetPc(Update(s, c, u, ViewOf(s, c, u).Take()), c, Committing)
    requires u in s.cpus[c].rq
    ensures StandingOf(s', t) == if t == u then Standing(Some(Running), Some(CurrentOf(c))) else StandingOf(s, t)
    ensures t in s'.tasks ==> t in s.tasks && s'.tasks[t].affinity == s.tasks[t].affinity
  {
  }

  lemma PickTaskMoves(s: State, a: Action, t: Tid, s': State)
    requires Inv(s) && Enabled(s, a) && a.PickTask? && s' == DoPickTask(s, a.c, a.t)
    ensures Fulfilled(s, a, t, s')
  {
    var s1 := PutBackCurrent(s, a.c);
    PutBackMoves(s, a.c, t, s1);
    PutBackTask(s, a.c);
    QueuedAtHome(s1, a.c, a.t);
    TakeMoves(s1, a.c, a.t, t, s');
  }

  lemma PickStolenMoves(s: State, a: Action, t: Tid, s': State)
    requires Inv(s) && Enabled(s, a) && a.PickStolen? && s' == DoPickStolen(s, a.c, a.t)
    ensures Fulfilled(s, a, t, s')
  {
    assert PcInv(s, a.c);
    QueuedAtHome(s, a.c, a.t);
    TakeMoves(s, a.c, a.t, t, s');
  }

  lemma StealMoveMoves(s: State, a: Action, t: Tid, s': State)
    requires Inv(s) && Enabled(s, a) && a.StealMove? && s' == DoStealMove(s, a.c)
    ensures Fulfilled(s, a, t, s')
  {
    InTheftWindow(s, a.c);
  }

  lemma AttachMoves(s: State, a: Action, t: Tid, s': State)
    requires Inv(s) && Enabled(s, a) && a.Attach? && s' == DoAttach(s, a.c)
    ensures Fulfilled(s, a, t, s')
  {
    if t in s.cpus[a.c].pc.taken { InFlight(s, a.c, t); }
  }

  /** Steps that do not touch what agents know of tasks. */
  predicate MovesNothing(a: Action) {
    || a.KernelNew? || a.KernelPost? || a.Wake? || a.EndDrain? || a.Associate? || a.EndMigrate? || a.KeepCurrent?
    || a.SkipBalance? || a.StartDetach? || a.StealAssociate? || a.EndDetach? || a.FindNothing? || a.Commit?
  }

  /** What agents know of tasks, and which are current, is as before. */
  predicate SameKnowledge(s: State, s': State) {
    s'.tasks == s.tasks && |s'.cpus| == |s.cpus|
    && forall d :: 0 <= d < |s.cpus| ==> s'.cpus[d].cur == s.cpus[d].cur
  }

  predicate IsBalancing(a: Action) {
    a.SkipBalance? || a.StartDetach? || a.StealAssociate? || a.EndDetach? || a.FindNothing? || a.Commit?
  }

  lemma BalancingKnows(s: State, a: Action)
    requires Enabled(s, a) && IsBalancing(a)
    ensures SameKnowledge(s, Next(s, a))
  {
  }

  lemma OthersKnow(s: State, a: Action)
    requires Enabled(s, a) && MovesNothing(a) && !IsBalancing(a)
    ensures SameKnowledge(s, Next(s, a))
  {
  }

  lemma NothingMoves(s: State, a: Action, t: Tid, s': State)
    requires Enabled(s, a) && MovesNothing(a) && s' == Next(s, a)
    ensures Fulfilled(s, a, t, s')
  {
    if IsBalancing(a) { BalancingKnows(s, a); } else { OthersKnow(s, a); }
  }

  /**
   Every step of every run takes each task from where it stands to where the table says, and leaves its
   affinity alone unless it handles AFFINITY_CHANGED, or TASK_NEW, of that task.
   */
  lemma StepMoves(s: State, a: Action, t: Tid)
    requires Reachable(s) && Enabled(s, a)
    ensures Stands(s, t, StandingOf(s, t))
    ensures Stands(Next(s, a), t, Moved(s, a, t, StandingOf(s, t), Allowed(s, a, t)))
    ensures t in Next(s, a).tasks ==> Next(s, a).tasks[t].affinity == Allowed(s, a, t)
  {
    ReachableInv(s);
    StandsThere(s, t);
    StepReachable(s, a);
    StandsThere(Next(s, a), t);
    StepFulfills(s, a, t, Next(s, a));
  }

  lemma StepFulfills(s: State, a: Action, t: Tid, s': State)
    requires Inv(s) && Enabled(s, a) && s' == Next(s, a)
    ensures Fulfilled(s, a, t, s')
  {
    if MovesNothing(a) {
      NothingMoves(s, a, t, s');
    } else if a.Dispatch? {
      DispatchMoves(s, a, t, s');
    } else if a.MigrateHere? || a.FinishMigrate? || a.StealMove? || a.Attach? {
      TransfersFulfill(s, a, t, s');
    } else {
      PicksFulfill(s, a, t, s');
    }
  }

  lemma TransfersFulfill(s: State, a: Action, t: Tid, s': State)
    requires Inv(s) && Enabled(s, a) && s' == Next(s, a)
    requires a.MigrateHere? || a.FinishMigrate? || a.StealMove? || a.Attach?
    ensures Fulfilled(s, a, t, s')
  {
    match a
    case MigrateHere(_, _) => MigrateHereMoves(s, a, t, s');
    case FinishMigrate(_) => FinishMigrateMoves(s, a, t, s');
    case StealMove(_) => StealMoveMoves(s, a, t, s');
    case Attach(_) => AttachMoves(s, a, t, s');
  }

  lemma PicksFulfill(s: State, a: Action, t: Tid, s': State)
    requires Inv(s) && Enabled(s, a) && s' == Next(s, a)
    requires a.BoostedSchedule? || a.PickNone? || a.PickTask? || a.PickStolen?
    ensures Fulfilled(s, a, t, s')
  {
    match a
    case BoostedSchedule(_) => BoostedMoves(s, a, t, s');
    case PickNone(_, _) => BoostedMoves(s, a, t, s');
    case PickTask(_, _) => PickTaskMoves(s, a, t, s');
    case PickStolen(_, _) => PickStolenMoves(s, a, t, s');
  }

  /**
   What a message leaves on the queues of the CPU that handled it: after AFFINITY_CHANGED, YIELD or
   PREEMPT the task is on the run queue only if its affinity allows the CPU; if it can run and the CPU is
   not allowed, it is on the migration queue.
   */
  lemma AffinityIsHonored(s: State, c: Cpu, affinity: set<Cpu>)
    requires Reachable(s) && Enabled(s, Dispatch(c, affinity))
    ensures var s', m := Next(s, Dispatch(c, affinity)), s.cpus[c].chan[0];
      (m.kind == AffinityChanged || m.kind.Yield? || m.kind.Preempt?) ==>
        && m.tid in s'.tasks && s'.tasks[m.tid].cpu == c
        && (m.tid in s'.cpus[c].rq ==> c in s'.tasks[m.tid].affinity)
        && (s'.tasks[m.tid].run == Runnable && c !in s'.tasks[m.tid].affinity ==> m.tid in s'.cpus[c].mq)
  {
    ReachableInv(s);
    DrainerOwns(s, c);
    var a, t := Dispatch(c, affinity), s.cpus[c].chan[0].tid;
    if t in s.tasks {
      assert TaskInv(s, t);
      AtHomeWhenClosed(s, t);
      ToldIs(ViewOf(s, c, t), s.cpus[c].chan[0].kind, s.cpus[c].chan[0].num, c, affinity);
      HandleSettled(ViewOf(s, c, t), s.cpus[c].chan[0].kind, s.cpus[c].chan[0].num, c, affinity);
      assert ViewOf(Consume(s, c), c, t) == ViewOf(s, c, t);
    }
  }

  //---------------------------------------------------------------------------
  // The order of steps
  //---------------------------------------------------------------------------

  predicate IsKernels(a: Action) { a.KernelNew? || a.KernelPost? }

  /** Schedule() and what it calls, as a program: where the agent that takes step a is before it. */
  predicate Starts(pc: Pc, a: Action) {
    match a
    case Wake(_) => pc == Asleep
    case Dispatch(_, _) => pc == Draining
    case EndDrain(_) => pc == Draining
    case MigrateHere(_, _) => pc == MigratingTasks
    case Associate(_, _, _) => pc == MigratingTasks
    case FinishMigrate(_) => pc.Associated?
    case EndMigrate(_) => pc == MigratingTasks
    case BoostedSchedule(_) => pc == Scheduling
    case KeepCurrent(_) => pc == Scheduling
    case PickTask(_, _) => pc == Scheduling
    case PickNone(_, _) => pc == Scheduling
    case SkipBalance(_) => pc == Balancing
    case StartDetach(_, _, _) => pc == Balancing
    case StealAssociate(_, _) => pc.Detaching? && pc.left > 0 && pc.stealing == None
    case StealMove(_) => pc.Detaching? && pc.left > 0 && pc.stealing.Some?
    case EndDetach(_) => pc.Detaching? && pc.stealing == None
    case Attach(_) => pc.Attaching?
    case PickStolen(_, _) => pc == Stocked
    case FindNothing(_) => pc == Stocked
    case Commit(_, _) => pc == Committing
    case _ => false
  }

  /** And where it is afterwards. */
  function Turn(pc: Pc, a: Action): Pc
    requires Starts(pc, a)
  {
    match a
    case Wake(_) => Draining
    case EndDrain(_) => MigratingTasks
    case Associate(_, t, d) => Associated(t, d)
    case FinishMigrate(_) => MigratingTasks
    case EndMigrate(_) => Scheduling
    case BoostedSchedule(_) => Asleep
    case KeepCurrent(_) => Committing
    case PickTask(_, _) => Committing
    case PickNone(_, balance) => if balance then Balancing else Asleep
    case SkipBalance(_) => Asleep
    case StartDetach(_, src, n) => Detaching(src, n, None, {})
    case StealAssociate(_, t) => Detaching(pc.src, pc.left, Some(t), pc.got)
    case StealMove(_) => Detaching(pc.src, pc.left - 1, None, pc.got + {pc.stealing.value})
    case EndDetach(_) => if pc.got == {} then Asleep else Attaching(pc.got)
    case Attach(_) => Stocked
    case PickStolen(_, _) => Committing
    case FindNothing(_) => Asleep
    case Commit(_, _) => Asleep
    case _ => pc
  }

  predicate Ordered(s: State, a: Action, c: Cpu, s': State) {
    && c < |s.cpus| && |s'.cpus| == |s.cpus|
    && if !IsKernels(a) && a.c == c then Starts(s.cpus[c].pc, a) && s'.cpus[c].pc == Turn(s.cpus[c].pc, a)
       else s'.cpus[c].pc == s.cpus[c].pc
  }

  predicate IsSchedules(a: Action) {
    a.BoostedSchedule? || a.KeepCurrent? || a.PickTask? || a.PickNone? || a.PickStolen? || a.FindNothing? || a.Commit?
  }

  lemma ScheduleOrder(s: State, a: Action, c: Cpu)
    requires Enabled(s, a) && IsSchedules(a) && c < |s.cpus|
    ensures Ordered(s, a, c, Next(s, a))
  {
  }

  lemma TheftOrder(s: State, a: Action, c: Cpu)
    requires Enabled(s, a) && c < |s.cpus|
    requires a.SkipBalance? || a.StartDetach? || a.StealAssociate? || a.StealMove? || a.EndDetach? || a.Attach?
    ensures Ordered(s, a, c, Next(s, a))
  {
  }

  lemma DrainOrder(s: State, a: Action, c: Cpu)
    requires Enabled(s, a) && c < |s.cpus|
    requires IsKernels(a) || a.Wake? || a.Dispatch? || a.EndDrain?
    ensures Ordered(s, a, c, Next(s, a))
  {
  }

  lemma MigrateOrder(s: State, a: Action, c: Cpu)
    requires Enabled(s, a) && c < |s.cpus|
    requires a.MigrateHere? || a.Associate? || a.FinishMigrate? || a.EndMigrate?
    ensures Ordered(s, a, c, Next(s, a))
  {
  }

  /**
   Every agent runs Schedule() in order: it drains, migrates, picks or keeps or steals, and commits; it
   leaves the draining loop only when its channel is empty, and nobody else moves it.
   */
  lemma ProgramOrder(s: State, a: Action, c: Cpu)
    requires Enabled(s, a) && c < |s.cpus|
    ensures Ordered(s, a, c, Next(s, a))
    ensures a == EndDrain(c) ==> s.cpus[c].chan == []
  {
    if IsSchedules(a) {
      ScheduleOrder(s, a, c);
    } else if IsKernels(a) || a.Wake? || a.Dispatch? || a.EndDrain? {
      DrainOrder(s, a, c);
    } else if a.MigrateHere? || a.Associate? || a.FinishMigrate? || a.EndMigrate? {
      MigrateOrder(s, a, c);
    } else {
      TheftOrder(s, a, c);
    }
  }

  //---------------------------------------------------------------------------
  // Idle CPUs
  //---------------------------------------------------------------------------

  /**
   An agent finds nothing to run only if there is nothing: each task of its CPU that is runnable or
   running by then waits for a migration or is being stolen.
   */
  lemma IdlesOnlyWhenEmpty(s: State, a: Action, t: Tid)
    requires Reachable(s) && Enabled(s, a) && (a.PickNone? || a.FindNothing?) && t in s.tasks && s.tasks[t].cpu == a.c
    requires s.tasks[t].run == Runnable || s.tasks[t].run == Running
    ensures StandingOf(s, t).place in {Some(OnMigrationQueue(a.c)), Some(InFlightTo(a.c))}
  {
    ReachableInv(s);
    StandsThere(s, t);
    assert PcInv(s, a.c);
    assert IsAt(s, t, PlaceFor(s.tasks[t]));
    if a.PickNone? {
      var rq := PutBackCurrent(s, a.c).cpus[a.c].rq;
      assert t in s.cpus[a.c].rq && s.cpus[a.c].cur != Some(t) ==> t in rq;
      assert s.cpus[a.c].cur == Some(t) ==> t in rq;
    }
  }

  //---------------------------------------------------------------------------
  // What an agent can do
  //---------------------------------------------------------------------------

  /** The actions can be taken one after the other and lead from s to s'. */
  ghost predicate Path(s: State, actions: seq<Action>, s': State)
    decreases actions
  {
    if actions == [] then s' == s else Enabled(s, actions[0]) && Path(Next(s, actions[0]), actions[1..], s')
  }

  lemma {:induction false} PathFirst(s: State, a: Action, s1: State, actions: seq<Action>, s': State)
    requires Enabled(s, a) && s1 == Next(s, a) && Path(s1, actions, s')
    ensures Path(s, [a] + actions, s')
  {
    assert ([a] + actions)[1..] == actions;
  }

  /**
   An agent that holds no lock moves a task from its migration queue to any other CPU that the task may
   run on, once that CPU's lock is free and no message of the task is under way.
   */
  lemma MigrationGoes(s: State, c: Cpu, t: Tid, d: Cpu) returns (s': State)
    requires Reachable(s) && Runs(s, c, MigratingTasks) && t in s.cpus[c].mq && t in s.tasks
    requires d != c && Free(s, d) && d in s.tasks[t].affinity && BarrierFresh(s, t)
    ensures Path(s, [Associate(c, t, d), FinishMigrate(c)], s')
    ensures d < |s'.cpus| && t in s'.cpus[d].rq && Free(s', d) && Runs(s', c, MigratingTasks) && t !in s'.cpus[c].mq
  {
    ReachableInv(s);
    QueuedForMigration(s, c, t);
    var s1 := Next(s, Associate(c, t, d));
    s' := Next(s1, FinishMigrate(c));
    PathFirst(s1, FinishMigrate(c), s', [], s');
    PathFirst(s, Associate(c, t, d), s1, [FinishMigrate(c)], s');
  }

  function Theft(c: Cpu, src: Cpu, t: Tid): seq<Action> {
    [StartDetach(c, src, 1), StealAssociate(c, t), StealMove(c), EndDetach(c), Attach(c), PickStolen(c, t)]
  }

  predicate CanTake(s: State, c: Cpu, src: Cpu, t: Tid) {
    && c < |s.cpus| && src != c && Free(s, src) && Free(s, c)
    && t in s.cpus[src].rq && |s.cpus[src].rq| > 1 && t in s.tasks && c in s.tasks[t].affinity && BarrierFresh(s, t)
  }

  /**
   An agent with nothing to run steals any task that may run here from a queue that has another one, once
   the locks are free and no message of the task is under way, and makes it current.
   */
  lemma TheftGoes(s: State, c: Cpu, src: Cpu, t: Tid) returns (s': State)
    requires CanTake(s, c, src, t) && s.cpus[c].pc == Balancing
    ensures Path(s, Theft(c, src, t), s')
    ensures |s'.cpus| == |s.cpus| && s'.cpus[c].cur == Some(t) && s'.cpus[c].pc == Committing
    ensures s'.cpus[src].rq == s.cpus[src].rq - {t}
  {
    var s1 := Next(s, StartDetach(c, src, 1));
    var s2 := Next(s1, StealAssociate(c, t));
    assert s2.cpus[src].rq == s.cpus[src].rq;
    s' := TakesIt(s2, c, src, t);
    PathFirst(s1, StealAssociate(c, t), s2, [StealMove(c), EndDetach(c), Attach(c), PickStolen(c, t)], s');
    PathFirst(s, StartDetach(c, src, 1), s1, Theft(c, src, t)[1..], s');
  }

  /** The thief, about to take the task, takes it and lets go of the queue. */
  lemma TakesIt(s: State, c: Cpu, src: Cpu, t: Tid) returns (s': State)
    requires c < |s.cpus| && src < |s.cpus| && src != c && t in s.tasks && Free(s, c)
    requires s.cpus[c].pc == Detaching(src, 1, Some(t), {})
    ensures Path(s, [StealMove(c), EndDetach(c), Attach(c), PickStolen(c, t)], s')
    ensures |s'.cpus| == |s.cpus| && s'.cpus[c].cur == Some(t) && s'.cpus[c].pc == Committing
    ensures s'.cpus[src].rq == s.cpus[src].rq - {t}
  {
    var s1 := Next(s, StealMove(c));
    var s2 := Next(s1, EndDetach(c));
    assert {} + {t} == {t};
    s' := PicksStolen(s2, c, t);
    PathFirst(s1, EndDetach(c), s2, [Attach(c), PickStolen(c, t)], s');
    PathFirst(s, StealMove(c), s1, [EndDetach(c), Attach(c), PickStolen(c, t)], s');
  }

  /** It attaches the task and picks it. */
  lemma PicksStolen(s: State, c: Cpu, t: Tid) returns (s': State)
    requires c < |s.cpus| && s.cpus[c].pc == Attaching({t}) && Free(s, c) && t in s.tasks
    ensures Path(s, [Attach(c), PickStolen(c, t)], s')
    ensures |s'.cpus| == |s.cpus| && s'.cpus[c].cur == Some(t) && s'.cpus[c].pc == Committing
    ensures forall d :: 0 <= d < |s.cpus| && d != c ==> s'.cpus[d] == s.cpus[d]
  {
    var s1 := Next(s, Attach(c));
    AttachIs(s, c, t);
    s' := Next(s1, PickStolen(c, t));
    PathFirst(s1, PickStolen(c, t), s', [], s');
    PathFirst(s, Attach(c), s1, [PickStolen(c, t)], s');
  }

  lemma AttachIs(s: State, c: Cpu, t: Tid)
    requires c < |s.cpus| && s.cpus[c].pc == Attaching({t}) && Free(s, c) && t in s.tasks
    ensures var s1 := Next(s, Attach(c));
      && |s1.cpus| == |s.cpus| && (forall d :: 0 <= d < |s.cpus| && d != c ==> s1.cpus[d] == s.cpus[d])
      && Enabled(s1, PickStolen(c, t))
  {
  }

  /** An agent about to pick can take any queued task and, unless messages of it are under way, run it. */
  lemma PickGoes(s: State, c: Cpu, t: Tid) returns (s': State)
    requires Reachable(s) && CanPick(s, c) && t in s.cpus[c].rq && t in s.tasks
    requires BarrierFresh(s, t) && s.kernel[t].run == KRunnable
    ensures Path(s, [PickTask(c, t), Commit(c, true)], s')
    ensures c < |s'.cpus| && s'.cpus[c].cur == Some(t) && t in s'.kernel && s'.kernel[t].run == KOnCpu(c)
  {
    ReachableInv(s);
    PickedIsFresh(s, c, t);
    var s1 := Next(s, PickTask(c, t));
    s' := CommitGoes(s1, c, t);
    PathFirst(s, PickTask(c, t), s1, [Commit(c, true)], s');
  }

  lemma CommitGoes(s: State, c: Cpu, t: Tid) returns (s': State)
    requires Runs(s, c, Committing) && s.cpus[c].cur == Some(t) && t in s.tasks && BarrierFresh(s, t)
    requires s.kernel[t].run == KRunnable
    ensures Path(s, [Commit(c, true)], s')
    ensures c < |s'.cpus| && s'.cpus[c].cur == Some(t) && t in s'.kernel && s'.kernel[t].run == KOnCpu(c)
  {
    s' := Next(s, Commit(c, true));
    PathFirst(s, Commit(c, true), s', [], s');
  }

  lemma PickedIsFresh(s: State, c: Cpu, t: Tid)
    requires Inv(s) && CanPick(s, c) && t in s.cpus[c].rq && t in s.tasks && BarrierFresh(s, t)
    ensures Enabled(s, PickTask(c, t)) && var s1 := Next(s, PickTask(c, t));
      && c < |s1.cpus| && s1.cpus[c].cur == Some(t) && s1.cpus[c].pc == Committing
      && t in s1.tasks && BarrierFresh(s1, t) && s1.kernel == s.kernel
  {
    assert TaskInv(s, t);
    assert Fits(TraceOf(s.cpus[c], t), c, s.tasks[t], s.kernel[t]);
  }

  //---------------------------------------------------------------------------
  // What moves the kernel
  //---------------------------------------------------------------------------

  /** Agent a.c commits task t in this step, and the kernel accepts. */
  predicate Commits(s: State, a: Action, t: Tid)
    requires Enabled(s, a)
  {
    a.Commit? && a.success && s.cpus[a.c].cur == Some(t)
  }

  predicate IsPosted(a: Action, t: Tid) { a.KernelPost? && a.t == t }

  predicate Redirects(a: Action, t: Tid, d: Cpu) { (a.Associate? && a.t == t && a.d == d) || a == StealAssociate(d, t) }

  /**
   A thread known to the kernel gets on a CPU exactly by a commit there that succeeds, and off it exactly
   when that CPU's agent starts or the kernel posts that it blocked, yielded, was preempted or left.
   */
  lemma KernelRuns(s: State, a: Action, t: Tid, c: Cpu)
    requires Enabled(s, a) && t in s.kernel && !a.KernelNew?
    ensures t in Next(s, a).kernel
    ensures var k, k' := s.kernel[t].run, Next(s, a).kernel[t].run;
      && (k != KOnCpu(c) ==> (k' == KOnCpu(c) <==> Commits(s, a, t) && a.c == c))
      && (k == KOnCpu(c) && !(Commits(s, a, t) && a.c == c) ==>
            (k' != KOnCpu(c) <==>
             a == Wake(c)
             || (IsPosted(a, t) && (FromCpu(a.kind) || a.kind.Dead? || a.kind.Departed?))))
      && (a == Wake(c) && k == KOnCpu(c) ==> k' == KRunnable)
  {
  }

  /** Its messages go to another channel exactly by an association. */
  lemma KernelRedirects(s: State, a: Action, t: Tid)
    requires Enabled(s, a) && t in s.kernel && !a.KernelNew?
    ensures t in Next(s, a).kernel
    ensures forall d :: Redirects(a, t, d) ==> Next(s, a).kernel[t].channel == d
    ensures Next(s, a).kernel[t].channel != s.kernel[t].channel ==> Redirects(a, t, Next(s, a).kernel[t].channel)
  {
  }

  //---------------------------------------------------------------------------
  // Tasks under way
  //---------------------------------------------------------------------------

  /** Agent c takes task t to CPU d: it has stolen it or is about to, or is inside Migrate. */
  predicate Carries(pc: Pc, c: Cpu, t: Tid, d: Cpu) {
    || (t in Got(pc) && d == c)
    || (pc.Detaching? && pc.stealing == Some(t) && d == c)
    || (pc.Associated? && pc.tid == t && pc.dst == d)
  }

  predicate CarriesAllowed(s: State, c: Cpu, t: Tid, d: Cpu)
    requires c < |s.cpus|
  {
    Carries(s.cpus[c].pc, c, t, d) ==> t in s.tasks && d in s.tasks[t].affinity
  }

  ghost predicate AllCarryAllowed(s: State) {
    forall c: Cpu, t: Tid, d: Cpu :: 0 <= c < |s.cpus| ==> CarriesAllowed(s, c, t, d)
  }

  /** What is carried after a step was carried before, or is taken up in the step. */
  lemma CarriedSince(s: State, a: Action, c: Cpu, t: Tid, d: Cpu)
    requires Enabled(s, a) && c < |s.cpus| && |Next(s, a).cpus| == |s.cpus|
    requires Carries(Next(s, a).cpus[c].pc, c, t, d)
    ensures Carries(s.cpus[c].pc, c, t, d) || (a == StealAssociate(c, t) && d == c) || a == Associate(c, t, d)
  {
    ProgramOrder(s, a, c);
  }

  /** The affinity of a task under way does not change. */
  lemma CarriedKeepsAffinity(s: State, a: Action, c: Cpu, t: Tid, d: Cpu)
    requires Inv(s) && Enabled(s, a) && c < |s.cpus| && Carries(s.cpus[c].pc, c, t, d)
    ensures !WritesAffinity(s, a, t)
  {
    if a.Dispatch? && s.cpus[a.c].chan[0].tid == t {
      DrainerOwns(s, a.c);
      if t in Got(s.cpus[c].pc) {
        InFlight(s, c, t);
      } else if s.cpus[c].pc.Associated? {
        InMigrateWindow(s, c);
      } else {
        assert PcInv(s, c);
        InTheftWindow(s, c);
      }
    }
  }

  lemma CarriedIsKnown(s: State, c: Cpu, t: Tid, d: Cpu)
    requires Inv(s) && c < |s.cpus| && Carries(s.cpus[c].pc, c, t, d)
    ensures t in s.tasks
  {
    assert PcInv(s, c);
    if t in Got(s.cpus[c].pc) { InFlight(s, c, t); }
  }

  lemma CarriedStaysAllowed(s: State, a: Action, c: Cpu, t: Tid, d: Cpu)
    requires Inv(s) && AllCarryAllowed(s) && Enabled(s, a) && Inv(Next(s, a)) && c < |Next(s, a).cpus|
    requires |Next(s, a).cpus| == |s.cpus|
    ensures CarriesAllowed(Next(s, a), c, t, d)
  {
    var s' := Next(s, a);
    if Carries(s'.cpus[c].pc, c, t, d) {
      CarriedSince(s, a, c, t, d);
      CarriedIsKnown(s', c, t, d);
      StepFulfills(s, a, t, s');
      if Carries(s.cpus[c].pc, c, t, d) {
        assert CarriesAllowed(s, c, t, d);
        CarriedKeepsAffinity(s, a, c, t, d);
      } else if a == Associate(c, t, d) {
        QueuedForMigration(s, c, t);
      }
    }
  }

  lemma {:induction false} RunCarriesAllowed(states: seq<State>, actions: seq<Action>, i: nat)
    requires Run(states, actions) && i < |states|
    ensures Inv(states[i]) && AllCarryAllowed(states[i])
  {
    RunKeepsInv(states, actions, i);
    if i > 0 {
      RunCarriesAllowed(states, actions, i - 1);
      var s, a := states[i - 1], actions[i - 1];
      assert Steps(s, a, states[i]);
      forall c: Cpu, t: Tid, d: Cpu | 0 <= c < |states[i].cpus| ensures CarriesAllowed(states[i], c, t, d) {
        ProgramOrder(s, a, 0);
        CarriedStaysAllowed(s, a, c, t, d);
      }
    }
  }

  /** A task that an agent carries, or is about to, may run on the CPU to which it is taken. */
  lemma CarriedIsAllowed(s: State, c: Cpu, t: Tid, d: Cpu)
    requires Reachable(s) && c < |s.cpus| && Carries(s.cpus[c].pc, c, t, d)
    ensures t in s.tasks && d in s.tasks[t].affinity
  {
    var states, actions :| Run(states, actions) && s in states;
    var i :| 0 <= i < |states| && states[i] == s;
    RunCarriesAllowed(states, actions, i);
    assert CarriesAllowed(s, c, t, d);
  }
}
