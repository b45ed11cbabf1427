/**
 schedulers/cfs: one agent per CPU, each with a run queue, a migration queue, a message
 channel and a current task, against a kernel that posts messages and decides
 AssociateTask and Commit.

 A step is one lock-protected section, or one part of it where the kernel can act in
 between: a task's association with a new channel and the write of `task->cpu` are separate
 steps.  The run queue is a set here, so that a pick or a theft may take any of its tasks;
 its order is the subject of RunQueue and CfsRunQueueObject.
 */
module CfsAgents {
  import opened Common
  import opened CfsTaskState

  /** A message as it lies in a channel. */
  datatype Msg = Msg(tid: Tid, num: nat, kind: Kind)

  datatype KernelRun = KBlocked | KRunnable | KOnCpu(cpu: Cpu) | KGone

  /** The kernel's side of a task: messages posted so far, the channel they go to, its run state. */
  datatype KernelTask = KernelTask(barrier: nat, channel: Cpu, run: KernelRun)

  /** Where the agent of a CPU is in Schedule(). */
  datatype Pc =
    | Asleep                                     // in Commit or LocalYield, or before the first call
    | Draining                                   // holds its own run queue lock
    | MigratingTasks                             // inside MigrateTasks, between two entries
    | Associated(tid: Tid, dst: Cpu)             // inside Migrate, holding dst's lock, cpu not yet written
    | Scheduling                                 // about to pick
    | Balancing                                  // nothing to run: about to steal
    | Detaching(src: Cpu, left: nat, stealing: Option<Tid>, got: set<Tid>) // holds src's lock
    | Attaching(taken: set<Tid>)                 // holds no lock
    | Stocked                                    // between AttachTasks and PickNextTask
    | Committing

  datatype CpuState = CpuState(
    rq: set<Tid>, mq: set<Tid>, cur: Option<Tid>, chan: seq<Msg>, pc: Pc, lock: Option<Cpu>)

  /** `failed` is set when a CHECK of the code fails or an agent handles a message of another's task. */
  datatype State = State(
    cpus: seq<CpuState>, tasks: map<Tid, Task>, kernel: map<Tid, KernelTask>, failed: bool)

  function Got(pc: Pc): set<Tid> {
    match pc
    case Detaching(_, _, _, got) => got
    case Attaching(taken) => taken
    case _ => {}
  }

  const DEFAULT_CHANNEL: Cpu := 0
  const MAX_TASKS_TO_LOAD_BALANCE: nat := 32

  //---------------------------------------------------------------------------
  // Steps
  //---------------------------------------------------------------------------

  datatype Action =
    | KernelNew(t: Tid, runnable: bool)
    | KernelPost(t: Tid, kind: Kind)
    | Wake(c: Cpu)
    | Dispatch(c: Cpu, affinity: set<Cpu>)
    | EndDrain(c: Cpu)
    | MigrateHere(c: Cpu, t: Tid)
    | Associate(c: Cpu, t: Tid, d: Cpu)
    | FinishMigrate(c: Cpu)
    | EndMigrate(c: Cpu)
    | BoostedSchedule(c: Cpu)
    | KeepCurrent(c: Cpu)
    | PickTask(c: Cpu, t: Tid)
    | PickNone(c: Cpu, balance: bool)
    | SkipBalance(c: Cpu)
    | StartDetach(c: Cpu, src: Cpu, n: nat)
    | StealAssociate(c: Cpu, t: Tid)
    | StealMove(c: Cpu)
    | EndDetach(c: Cpu)
    | Attach(c: Cpu)
    | PickStolen(c: Cpu, t: Tid)
    | FindNothing(c: Cpu)
    | Commit(c: Cpu, success: bool)

  /** The task t as the handlers of CPU c see it. */
  function ViewOf(s: State, c: Cpu, t: Tid): View
    requires c < |s.cpus| && t in s.tasks
  {
    var cs := s.cpus[c];
    View(s.tasks[t], true, t in cs.rq, t in cs.mq, cs.cur == Some(t), true)
  }

  function Member(q: set<Tid>, t: Tid, yes: bool): set<Tid> {
    if yes then q + {t} else q - {t}
  }

  /** The state after a handler on CPU c has left t as v says. */
  function Update(s: State, c: Cpu, t: Tid, v: View): State
    requires c < |s.cpus|
  {
    var cs := s.cpus[c];
    var cur := if v.isCur then Some(t) else if cs.cur == Some(t) then None else cs.cur;
    s.(cpus := s.cpus[c := cs.(rq := Member(cs.rq, t, v.inRq), mq := Member(cs.mq, t, v.inMq), cur := cur)],
       tasks := if v.live then s.tasks[t := v.task] else s.tasks - {t},
       failed := s.failed || !v.ok)
  }

  function SetPc(s: State, c: Cpu, pc: Pc): State
    requires c < |s.cpus|
  {
    s.(cpus := s.cpus[c := s.cpus[c].(pc := pc)])
  }

  function SetLock(s: State, d: Cpu, lock: Option<Cpu>): State
    requires d < |s.cpus|
  {
    s.(cpus := s.cpus[d := s.cpus[d].(lock := lock)])
  }

  /** PickNextTask's treatment of the previous task, if there is one. */
  function PutBackCurrent(s: State, c: Cpu): State
    requires c < |s.cpus|
  {
    match s.cpus[c].cur
    case None => s
    case Some(p) => if p in s.tasks then Update(s, c, p, ViewOf(s, c, p).PutBack()) else s.(failed := true)
  }

  /** Whether the kernel accepts AssociateTask(t, task->seqnum). */
  predicate BarrierFresh(s: State, t: Tid)
    requires t in s.tasks
  {
    t in s.kernel && s.kernel[t].run != KGone && s.tasks[t].seqnum == s.kernel[t].barrier
  }

  /** The messages the kernel may post about a task in run state k, and its run state afterwards. */
  predicate MayPost(k: KernelRun, kind: Kind) {
    match kind
    case New(_) => false
    case Wakeup => k == KBlocked
    case Block(p) => k == KOnCpu(p)
    case Yield(p) => k == KOnCpu(p)
    case Preempt(p) => k == KOnCpu(p)
    case _ => k != KGone
  }

  function AfterPost(k: KernelRun, kind: Kind): KernelRun {
    match kind
    case New(r) => if r then KRunnable else KBlocked
    case Wakeup => KRunnable
    case Block(_) => KBlocked
    case Yield(_) => KRunnable
    case Preempt(_) => KRunnable
    case Dead => KGone
    case Departed => KGone
    case _ => k
  }

  /** Agent c is at pc. */
  predicate Runs(s: State, c: Cpu, pc: Pc) {
    c < |s.cpus| && s.cpus[c].pc == pc
  }

  /** Nobody holds the run queue lock of d. */
  predicate Free(s: State, d: Cpu) {
    d < |s.cpus| && s.cpus[d].lock == None
  }

  // The kernel.

  function Post(s: State, t: Tid, k: KernelTask, kind: Kind): State
    requires k.channel < |s.cpus|
  {
    var cs := s.cpus[k.channel];
    s.(cpus := s.cpus[k.channel := cs.(chan := cs.chan + [Msg(t, k.barrier + 1, kind)])],
       kernel := s.kernel[t := k.(barrier := k.barrier + 1, run := AfterPost(k.run, kind))])
  }

  /** The thread is outside ghOSt, and every message about it has been handled. */
  predicate IsOutside(s: State, t: Tid) {
    && DEFAULT_CHANNEL < |s.cpus| && (t in s.kernel ==> s.kernel[t].run == KGone)
    && forall d :: 0 <= d < |s.cpus| ==> Of(s.cpus[d].chan, t) == []
  }

  /** A thread enters, for the first time or again; what was known of it has been freed. */
  predicate CanKernelNew(s: State, t: Tid) { IsOutside(s, t) && t !in s.tasks }

  function Enter(s: State, t: Tid, runnable: bool): State
    requires IsOutside(s, t)
  {
    Post(s, t, KernelTask(0, DEFAULT_CHANNEL, KGone), New(runnable))
  }

  function DoKernelNew(s: State, t: Tid, runnable: bool): State
    requires CanKernelNew(s, t)
  {
    Enter(s, t, runnable)
  }

  predicate CanKernelPost(s: State, t: Tid, kind: Kind) {
    t in s.kernel && MayPost(s.kernel[t].run, kind) && s.kernel[t].channel < |s.cpus|
  }

  function DoKernelPost(s: State, t: Tid, kind: Kind): State
    requires CanKernelPost(s, t, kind)
  {
    Post(s, t, s.kernel[t], kind)
  }

  // Schedule(): draining the channel under the run queue lock.

  /** A kernel task running on CPU c is off it once the agent of c runs. */
  function OffCpu(k: KernelTask, c: Cpu): KernelTask {
    if k.run == KOnCpu(c) then k.(run := KRunnable) else k
  }

  predicate CanWake(s: State, c: Cpu) { Runs(s, c, Asleep) && Free(s, c) }

  function DoWake(s: State, c: Cpu): State
    requires CanWake(s, c)
  {
    SetLock(SetPc(s, c, Draining), c, Some(c)).(kernel := map t | t in s.kernel :: OffCpu(s.kernel[t], c))
  }

  predicate CanDispatch(s: State, c: Cpu) { Runs(s, c, Draining) && s.cpus[c].chan != [] }

  function Consume(s: State, c: Cpu): State
    requires CanDispatch(s, c)
  {
    s.(cpus := s.cpus[c := s.cpus[c].(chan := s.cpus[c].chan[1..])])
  }

  /** DispatchMessage drops a TASK_NEW for a task it knows, and any other message for one it does not. */
  function DoDispatch(s: State, c: Cpu, affinity: set<Cpu>): State
    requires CanDispatch(s, c)
  {
    var m := s.cpus[c].chan[0];
    var s1 := Consume(s, c);
    if m.kind.New? then
      if m.tid in s.tasks then s1 else Update(s1, c, m.tid, NewView(m.kind.runnable, m.num, c, affinity))
    else if m.tid !in s.tasks then s1
    else if s.tasks[m.tid].cpu != c then s1.(failed := true)
    else Update(s1, c, m.tid, ViewOf(s1, c, m.tid).Handle(m.kind, m.num, c, affinity))
  }

  predicate CanEndDrain(s: State, c: Cpu) { Runs(s, c, Draining) && s.cpus[c].chan == [] }

  function DoEndDrain(s: State, c: Cpu): State
    requires CanEndDrain(s, c)
  {
    SetLock(SetPc(s, c, MigratingTasks), c, None)
  }

  // MigrateTasks and Migrate.

  /** SelectTaskRq on CPU c: some CPU that the task's affinity allows, or c if there is none. */
  predicate MaySelect(s: State, c: Cpu, affinity: set<Cpu>, d: Cpu) {
    d < |s.cpus| && (d in affinity || (d == c && forall e :: 0 <= e < |s.cpus| ==> e !in affinity))
  }

  predicate CanMigrateHere(s: State, c: Cpu, t: Tid) {
    Runs(s, c, MigratingTasks) && Free(s, c) && t in s.cpus[c].mq && t in s.tasks && s.tasks[t].cpu == c
    && MaySelect(s, c, s.tasks[t].affinity, c)
  }

  function DoMigrateHere(s: State, c: Cpu, t: Tid): State
    requires CanMigrateHere(s, c, t)
  {
    Update(s, c, t, ViewOf(s, c, t).FinishMigrate(c))
  }

  predicate CanAssociate(s: State, c: Cpu, t: Tid, d: Cpu) {
    Runs(s, c, MigratingTasks) && Free(s, d) && t in s.cpus[c].mq && t in s.tasks
    && s.tasks[t].cpu != d && MaySelect(s, c, s.tasks[t].affinity, d) && BarrierFresh(s, t)
  }

  function DoAssociate(s: State, c: Cpu, t: Tid, d: Cpu): State
    requires CanAssociate(s, c, t, d)
  {
    SetLock(SetPc(s, c, Associated(t, d)), d, Some(c)).(kernel := s.kernel[t := s.kernel[t].(channel := d)])
  }

  predicate CanFinishMigrate(s: State, c: Cpu) {
    c < |s.cpus| && s.cpus[c].pc.Associated? && s.cpus[c].pc.dst < |s.cpus| && s.cpus[c].pc.dst != c
    && s.cpus[c].pc.tid in s.tasks
  }

  /** Writes task->cpu, enqueues the task there, releases the lock; the entry leaves the migration queue. */
  function DoFinishMigrate(s: State, c: Cpu): State
    requires CanFinishMigrate(s, c)
  {
    var t, d := s.cpus[c].pc.tid, s.cpus[c].pc.dst;
    var v := ViewOf(s, c, t).FinishMigrate(d);
    var cs := s.cpus[c].(mq := s.cpus[c].mq - {t}, pc := MigratingTasks);
    var ds := s.cpus[d].(rq := Member(s.cpus[d].rq, t, v.inRq), lock := None);
    s.(cpus := s.cpus[c := cs][d := ds], tasks := s.tasks[t := v.task], failed := s.failed || !v.ok)
  }

  predicate CanEndMigrate(s: State, c: Cpu) { Runs(s, c, MigratingTasks) }

  function DoEndMigrate(s: State, c: Cpu): State
    requires CanEndMigrate(s, c)
  {
    SetPc(s, c, Scheduling)
  }

  // CfsSchedule.

  predicate CanPick(s: State, c: Cpu) { Runs(s, c, Scheduling) && Free(s, c) }

  function DoBoostedSchedule(s: State, c: Cpu): State
    requires CanPick(s, c)
  {
    SetPc(PutBackCurrent(s, c), c, Asleep)
  }

  /** PickNextTask returns prev: it still runs and preempt_curr is not set. */
  predicate CanKeepCurrent(s: State, c: Cpu) {
    CanPick(s, c) && s.cpus[c].cur.Some? && s.cpus[c].cur.value in s.tasks
    && s.tasks[s.cpus[c].cur.value].run == Running
  }

  function DoKeepCurrent(s: State, c: Cpu): State
    requires CanKeepCurrent(s, c)
  {
    SetPc(s, c, Committing)
  }

  predicate CanPickTask(s: State, c: Cpu, t: Tid) {
    CanPick(s, c) && t in PutBackCurrent(s, c).cpus[c].rq && t in PutBackCurrent(s, c).tasks
  }

  function DoPickTask(s: State, c: Cpu, t: Tid): State
    requires CanPickTask(s, c, t)
  {
    var s1 := PutBackCurrent(s, c);
    SetPc(Update(s1, c, t, ViewOf(s1, c, t).Take()), c, Committing)
  }

  predicate CanPickNone(s: State, c: Cpu) { CanPick(s, c) && PutBackCurrent(s, c).cpus[c].rq == {} }

  function DoPickNone(s: State, c: Cpu, balance: bool): State
    requires CanPickNone(s, c)
  {
    SetPc(PutBackCurrent(s, c), c, if balance then Balancing else Asleep)
  }

  predicate CanCommit(s: State, c: Cpu, success: bool) {
    Runs(s, c, Committing) && s.cpus[c].cur.Some? && s.cpus[c].cur.value in s.tasks
    && (success ==> BarrierFresh(s, s.cpus[c].cur.value) && s.kernel[s.cpus[c].cur.value].run == KRunnable)
  }

  function DoCommit(s: State, c: Cpu, success: bool): State
    requires CanCommit(s, c, success)
  {
    var t := s.cpus[c].cur.value;
    var s1 := SetPc(s, c, Asleep);
    if success then s1.(kernel := s.kernel[t := s.kernel[t].(run := KOnCpu(c))]) else s1
  }

  // NewIdleBalance: stealing from another CPU's run queue.

  predicate CanSkipBalance(s: State, c: Cpu) { Runs(s, c, Balancing) }

  function DoSkipBalance(s: State, c: Cpu): State
    requires CanSkipBalance(s, c)
  {
    SetPc(s, c, Asleep)
  }

  predicate CanStartDetach(s: State, c: Cpu, src: Cpu, n: nat) {
    Runs(s, c, Balancing) && src != c && Free(s, src) && 1 <= n <= MAX_TASKS_TO_LOAD_BALANCE
  }

  function DoStartDetach(s: State, c: Cpu, src: Cpu, n: nat): State
    requires CanStartDetach(s, c, src, n)
  {
    SetLock(SetPc(s, c, Detaching(src, n, None, {})), src, Some(c))
  }

  /** CanMigrateTask says yes: the kernel has moved the task's messages to the thief. */
  predicate CanStealAssociate(s: State, c: Cpu, t: Tid) {
    c < |s.cpus| && s.cpus[c].pc.Detaching? && s.cpus[c].pc.stealing == None
    && s.cpus[c].pc.left > 0 && s.cpus[c].pc.src < |s.cpus|
    && t in s.cpus[s.cpus[c].pc.src].rq && |s.cpus[s.cpus[c].pc.src].rq| > 1
    && t in s.tasks && c in s.tasks[t].affinity && BarrierFresh(s, t)
  }

  function DoStealAssociate(s: State, c: Cpu, t: Tid): State
    requires CanStealAssociate(s, c, t)
  {
    SetPc(s, c, s.cpus[c].pc.(stealing := Some(t))).(kernel := s.kernel[t := s.kernel[t].(channel := c)])
  }

  predicate CanStealMove(s: State, c: Cpu) {
    c < |s.cpus| && s.cpus[c].pc.Detaching? && s.cpus[c].pc.stealing.Some? && s.cpus[c].pc.left > 0
    && s.cpus[c].pc.src < |s.cpus| && s.cpus[c].pc.stealing.value in s.tasks
  }

  function DoStealMove(s: State, c: Cpu): State
    requires CanStealMove(s, c)
  {
    var pc := s.cpus[c].pc;
    var t := pc.stealing.value;
    var v := ViewOf(s, pc.src, t).SetOnRq(Dequeued);
    var s1 := Update(s, pc.src, t, v.(task := v.task.(cpu := c), inRq := false));
    SetPc(s1, c, Detaching(pc.src, pc.left - 1, None, pc.got + {t}))
  }

  predicate CanEndDetach(s: State, c: Cpu) {
    c < |s.cpus| && s.cpus[c].pc.Detaching? && s.cpus[c].pc.stealing == None && s.cpus[c].pc.src < |s.cpus|
  }

  function DoEndDetach(s: State, c: Cpu): State
    requires CanEndDetach(s, c)
  {
    var pc := s.cpus[c].pc;
    SetPc(SetLock(s, pc.src, None), c, if pc.got == {} then Asleep else Attaching(pc.got))
  }

  predicate CanAttach(s: State, c: Cpu) { c < |s.cpus| && s.cpus[c].pc.Attaching? && Free(s, c) }

  /** EnqueueTask on each stolen task. */
  function DoAttach(s: State, c: Cpu): State
    requires CanAttach(s, c)
  {
    var got := s.cpus[c].pc.taken;
    s.(cpus := s.cpus[c := s.cpus[c].(rq := s.cpus[c].rq + got, pc := Stocked)],
       tasks := map t | t in s.tasks :: if t in got then s.tasks[t].(onRq := Queued) else s.tasks[t],
       failed := s.failed || exists t :: t in got && (t !in s.tasks || s.tasks[t].onRq !in FromOnRq(Queued)))
  }

  predicate CanPickStolen(s: State, c: Cpu, t: Tid) {
    Runs(s, c, Stocked) && Free(s, c) && t in s.cpus[c].rq && t in s.tasks
  }

  function DoPickStolen(s: State, c: Cpu, t: Tid): State
    requires CanPickStolen(s, c, t)
  {
    SetPc(Update(s, c, t, ViewOf(s, c, t).Take()), c, Committing)
  }

  /** PickNextTask after AttachTasks finds the queue empty again. */
  predicate CanFindNothing(s: State, c: Cpu) { Runs(s, c, Stocked) && Free(s, c) && s.cpus[c].rq == {} }

  function DoFindNothing(s: State, c: Cpu): State
    requires CanFindNothing(s, c)
  {
    SetPc(s, c, Asleep)
  }

  predicate Enabled(s: State, a: Action) {
    match a
    case KernelNew(t, _) => CanKernelNew(s, t)
    case KernelPost(t, kind) => CanKernelPost(s, t, kind)
    case Wake(c) => CanWake(s, c)
    case Dispatch(c, _) => CanDispatch(s, c)
    case EndDrain(c) => CanEndDrain(s, c)
    case MigrateHere(c, t) => CanMigrateHere(s, c, t)
    case Associate(c, t, d) => CanAssociate(s, c, t, d)
    case FinishMigrate(c) => CanFinishMigrate(s, c)
    case EndMigrate(c) => CanEndMigrate(s, c)
    case BoostedSchedule(c) => CanPick(s, c)
    case KeepCurrent(c) => CanKeepCurrent(s, c)
    case PickTask(c, t) => CanPickTask(s, c, t)
    case PickNone(c, _) => CanPickNone(s, c)
    case SkipBalance(c) => CanSkipBalance(s, c)
    case StartDetach(c, src, n) => CanStartDetach(s, c, src, n)
    case StealAssociate(c, t) => CanStealAssociate(s, c, t)
    case StealMove(c) => CanStealMove(s, c)
    case EndDetach(c) => CanEndDetach(s, c)
    case Attach(c) => CanAttach(s, c)
    case PickStolen(c, t) => CanPickStolen(s, c, t)
    case FindNothing(c) => CanFindNothing(s, c)
    case Commit(c, success) => CanCommit(s, c, success)
  }

  function Next(s: State, a: Action): State
    requires Enabled(s, a)
  {
    match a
    case KernelNew(t, runnable) => DoKernelNew(s, t, runnable)
    case KernelPost(t, kind) => DoKernelPost(s, t, kind)
    case Wake(c) => DoWake(s, c)
    case Dispatch(c, affinity) => DoDispatch(s, c, affinity)
    case EndDrain(c) => DoEndDrain(s, c)
    case MigrateHere(c, t) => DoMigrateHere(s, c, t)
    case Associate(c, t, d) => DoAssociate(s, c, t, d)
    case FinishMigrate(c) => DoFinishMigrate(s, c)
    case EndMigrate(c) => DoEndMigrate(s, c)
    case BoostedSchedule(c) => DoBoostedSchedule(s, c)
    case KeepCurrent(c) => DoKeepCurrent(s, c)
    case PickTask(c, t) => DoPickTask(s, c, t)
    case PickNone(c, balance) => DoPickNone(s, c, balance)
    case SkipBalance(c) => DoSkipBalance(s, c)
    case StartDetach(c, src, n) => DoStartDetach(s, c, src, n)
    case StealAssociate(c, t) => DoStealAssociate(s, c, t)
    case StealMove(c) => DoStealMove(s, c)
    case EndDetach(c) => DoEndDetach(s, c)
    case Attach(c) => DoAttach(s, c)
    case PickStolen(c, t) => DoPickStolen(s, c, t)
    case FindNothing(c) => DoFindNothing(s, c)
    case Commit(c, success) => DoCommit(s, c, success)
  }

  predicate Init(s: State) {
    && |s.cpus| > 0 && s.tasks == map[] && s.kernel == map[] && !s.failed
    && forall c :: 0 <= c < |s.cpus| ==> s.cpus[c] == CpuState({}, {}, None, [], Asleep, None)
  }

  //---------------------------------------------------------------------------
  // The invariant, task by task
  //---------------------------------------------------------------------------

  /** The messages of task t in a channel. */
  function Of(q: seq<Msg>, t: Tid): seq<Msg> {
    if q == [] then [] else (if q[0].tid == t then [q[0]] else []) + Of(q[1..], t)
  }

  /** A channel association that `task->cpu` does not yet reflect. */
  datatype Window = Closed | ByMigrate(dst: Cpu) | ByTheft(src: Cpu)

  function WindowOf(pc: Pc, t: Tid): Window {
    match pc
    case Associated(u, dst) => if u == t then ByMigrate(dst) else Closed
    case Detaching(src, _, stealing, _) => if stealing == Some(t) then ByTheft(src) else Closed
    case _ => Closed
  }

  /** Everything a CPU holds of task t. */
  datatype Trace = Trace(inRq: bool, inMq: bool, inFlight: bool, isCur: bool, msgs: seq<Msg>, window: Window)

  function TraceOf(cs: CpuState, t: Tid): Trace {
    Trace(t in cs.rq, t in cs.mq, t in Got(cs.pc), cs.cur == Some(t), Of(cs.chan, t), WindowOf(cs.pc, t))
  }

  predicate Matches(run: Option<RunState>, k: KernelRun, cpu: Cpu) {
    match run
    case None => k == KGone
    case Some(Blocked) => k == KBlocked
    case Some(Runnable) => k == KRunnable
    case Some(Running) => k == KRunnable || k == KOnCpu(cpu)
    case Some(Done) => k == KGone
  }

  /**
   Handling the pending messages in turn takes the agent's idea of the task to the kernel's:
   each is numbered next, is expected when its turn comes, and after the last one both agree.
   */
  predicate Agree(run: Option<RunState>, num: nat, msgs: seq<Msg>, k: KernelTask, cpu: Cpu)
    decreases msgs
  {
    if msgs == [] then
      (num == k.barrier && Matches(run, k.run, cpu))
      || ((run == None || run == Some(Done)) && k.run == KGone)
    else
      msgs[0].num == num + 1 && Expected(run, msgs[0].kind, cpu)
      && Agree(After(run, msgs[0].kind), num + 1, msgs[1..], k, cpu)
  }

  /** The five (State, OnRq) pairs outside handlers, and (Runnable, Dequeued) for a task in flight. */
  predicate LegalPair(task: Task) {
    match task.run
    case Runnable => true
    case _ => task.onRq == Dequeued
  }

  /** CPU d holds of the task what its state says, and nothing else. */
  predicate Fits(tr: Trace, d: Cpu, task: Task, k: KernelTask) {
    && (tr.inRq <==> d == task.cpu && task.run == Runnable && task.onRq == Queued)
    && (tr.inMq <==> d == task.cpu && task.run == Runnable && task.onRq == Migrating)
    && (tr.inFlight <==> d == task.cpu && task.run == Runnable && task.onRq == Dequeued)
    && (tr.isCur ==> d == task.cpu && task.run != Runnable)
    && (d == task.cpu && (task.run == Running || task.run == Done) ==> tr.isCur)
    && (tr.window.ByMigrate? ==>
          d == task.cpu && tr.window.dst == k.channel && k.channel != task.cpu && task.onRq == Migrating)
    && (tr.window.ByTheft? ==>
          d == k.channel && tr.window.src == task.cpu && k.channel != task.cpu && task.onRq == Queued
          && task.run == Runnable)
    && (d != k.channel ==> tr.msgs == [])
  }

  /** Nothing of the task but messages in its channel. */
  predicate Unplaced(tr: Trace, d: Cpu, k: KernelTask) {
    && !tr.inRq && !tr.inMq && !tr.inFlight && !tr.isCur && tr.window == Closed
    && (d != k.channel ==> tr.msgs == [])
  }

  predicate TaskInv(s: State, t: Tid) {
    if t !in s.kernel then
      t !in s.tasks
      && forall d :: 0 <= d < |s.cpus| ==> TraceOf(s.cpus[d], t) == Trace(false, false, false, false, [], Closed)
    else
      var k := s.kernel[t];
      k.channel < |s.cpus|
      && if t !in s.tasks then
        Agree(None, 0, Of(s.cpus[k.channel].chan, t), k, k.channel)
        && forall d :: 0 <= d < |s.cpus| ==> Unplaced(TraceOf(s.cpus[d], t), d, k)
      else
        var task := s.tasks[t];
        task.cpu < |s.cpus|
        && LegalPair(task)
        && Agree(Some(task.run), task.seqnum, Of(s.cpus[k.channel].chan, t), k, task.cpu)
        && (k.channel != task.cpu ==>
              WindowOf(s.cpus[task.cpu].pc, t).ByMigrate? || WindowOf(s.cpus[k.channel].pc, t).ByTheft?)
        && forall d :: 0 <= d < |s.cpus| ==> Fits(TraceOf(s.cpus[d], t), d, task, k)
  }

  /** Whether an agent h at pc holds the run queue lock of CPU d. */
  predicate Holds(pc: Pc, h: Cpu, d: Cpu) {
    (pc == Draining && h == d) || (pc.Associated? && pc.dst == d) || (pc.Detaching? && pc.src == d)
  }

  predicate LockInv(s: State, d: Cpu)
    requires d < |s.cpus|
  {
    && (s.cpus[d].lock.Some? ==>
          s.cpus[d].lock.value < |s.cpus| && Holds(s.cpus[s.cpus[d].lock.value].pc, s.cpus[d].lock.value, d))
    && (forall h :: 0 <= h < |s.cpus| && Holds(s.cpus[h].pc, h, d) ==> s.cpus[d].lock == Some(h))
  }

  /** Messages a task can only cause while it runs on a CPU. */
  predicate FromCpu(kind: Kind) { kind.Block? || kind.Yield? || kind.Preempt? }

  predicate NoneFromCpu(q: seq<Msg>) { forall i :: 0 <= i < |q| ==> !FromCpu(q[i].kind) }

  predicate PcInv(s: State, c: Cpu)
    requires c < |s.cpus|
  {
    var cs := s.cpus[c];
    && (cs.pc == Asleep || cs.pc == Draining || NoneFromCpu(cs.chan))
    && (cs.pc.Associated? ==> cs.pc.dst < |s.cpus| && cs.pc.dst != c && cs.pc.tid in s.tasks)
    && (cs.pc.Detaching? ==> cs.pc.src < |s.cpus| && cs.pc.src != c && cs.cur == None)
    && (cs.pc.Detaching? && cs.pc.stealing.Some? ==>
          cs.pc.left > 0 && cs.pc.stealing.value in s.tasks && |s.cpus[cs.pc.src].rq| > 1)
    && (cs.pc.Balancing? || cs.pc.Attaching? || cs.pc.Stocked? ==> cs.cur == None)
    && (cs.pc.Attaching? ==> cs.pc.taken != {})
    && (cs.pc.Stocked? ==> cs.rq != {})
    && (cs.pc.Committing? ==> cs.cur.Some? && cs.cur.value in s.tasks && s.tasks[cs.cur.value].run == Running)
  }

  /** The kernel runs a task on a CPU only while that CPU's agent does not run. */
  predicate OnCpuInv(s: State, t: Tid)
    requires t in s.kernel
  {
    s.kernel[t].run.KOnCpu? ==>
      s.kernel[t].run.cpu < |s.cpus| && s.cpus[s.kernel[t].run.cpu].pc == Asleep
  }

  /** Locks, program counters and the kernel's running tasks fit together. */
  ghost predicate Skeleton(s: State) {
    && (forall t :: t in s.kernel ==> OnCpuInv(s, t))
    && (forall d :: 0 <= d < |s.cpus| ==> LockInv(s, d))
    && (forall c :: 0 <= c < |s.cpus| ==> PcInv(s, c))
  }

  ghost predicate Inv(s: State) {
    |s.cpus| > 0 && !s.failed && (forall t :: TaskInv(s, t)) && Skeleton(s)
  }
}
