/**
 The two-dimensional state of a CFS task (CfsTaskState), the guarded setters that
 every handler goes through, and the message handlers themselves.

 A handler runs on one CPU and concerns one task, so it is written on a View: the
 task together with its membership in that CPU's run queue, migration queue and
 `current` slot.  A failed CHECK (a transition outside the kTo masks, a wrong
 `current`, a sequence number that does not advance) clears `ok`.
 */
module CfsTaskState {
  import opened Common

  type Cpu = nat
  type Tid = nat

  datatype RunState = Blocked | Runnable | Running | Done
  datatype OnRq = Dequeued | Queued | Migrating

  /** kToBlocked, kToRunnable, kToRunning, kToDone: where a run state may come from. */
  function FromRun(next: RunState): set<RunState> {
    match next
    case Blocked => {Running, Blocked}
    case Runnable => {Blocked, Running, Runnable}
    case Running => {Runnable, Running}
    case Done => {Runnable, Blocked, Running}
  }

  /** kToDequeued, kToQueued, kToMigrating. */
  function FromOnRq(next: OnRq): set<OnRq> {
    match next
    case Dequeued => {Queued}
    case Queued => {Dequeued, Migrating}
    case Migrating => {Dequeued, Queued}
  }

  datatype Task = Task(run: RunState, onRq: OnRq, cpu: Cpu, seqnum: nat, affinity: set<Cpu>)

  datatype Kind =
    | New(runnable: bool)
    | Wakeup
    | Block(cpu: Cpu)
    | Yield(cpu: Cpu)
    | Preempt(cpu: Cpu)
    | Dead
    | Departed
    | AffinityChanged
    | PriorityChanged

  datatype View = View(task: Task, live: bool, inRq: bool, inMq: bool, isCur: bool, ok: bool) {

    function Check(c: bool): View { this.(ok := ok && c) }

    function SetRun(next: RunState): View {
      this.(task := task.(run := next), ok := ok && task.run in FromRun(next))
    }

    function SetOnRq(next: OnRq): View {
      this.(task := task.(onRq := next), ok := ok && task.onRq in FromOnRq(next))
    }

    /** CfsRq::DequeueTask: nothing happens when the task is not queued. */
    function RqDequeue(): View {
      if inRq then this.(inRq := false).SetOnRq(Dequeued) else this
    }

    /** CfsRq::InsertTaskIntoRq, as seen by the task. */
    function RqInsert(): View { SetOnRq(Queued).(inRq := true) }

    function StartMigrate(): View { RqDequeue().SetOnRq(Migrating).(inMq := true) }

    /** CfsScheduler::PutPrevTask on CPU c. */
    function PutPrev(c: Cpu): View {
      var v := this.(isCur := false).SetRun(Runnable);
      if c !in v.task.affinity then v.StartMigrate() else v.RqInsert()
    }

    /** HandleTaskDone: a current task is freed later, by PickNextTask. */
    function TaskDone(): View {
      var v := this.(inMq := false).SetRun(Done);
      if isCur then v else v.RqDequeue().(live := false)
    }

    /** Task::Advance. */
    function Advance(num: nat): View {
      this.(task := task.(seqnum := num), ok := ok && num > task.seqnum)
    }

    /**
     DispatchMessage for a task known to the allocator, on the agent of CPU c; `affinity` is
     what SchedGetAffinity answers.
     */
    function Handle(kind: Kind, num: nat, c: Cpu, affinity: set<Cpu>): View {
      match kind
      case New(_) => Check(false)
      case Wakeup => this.(isCur := false).SetRun(Runnable).SetOnRq(Migrating).(inMq := true).Advance(num)
      case Block(p) => Check(p == c && isCur).SetRun(Blocked).Advance(num)
      case Yield(p) => Check(p == c && isCur).PutPrev(c).Advance(num)
      case Preempt(p) => Check(p == c && isCur).PutPrev(c).Advance(num)
      case Dead => TaskDone()
      case Departed => TaskDone()
      case AffinityChanged =>
        var v := this.(task := task.(affinity := affinity));
        (if task.cpu in affinity || task.run != Runnable || task.onRq == Migrating
         then v else v.StartMigrate()).Advance(num)
      case PriorityChanged => Advance(num)
    }

    /** What PickNextTask (and the priority-boost branch of CfsSchedule) does with `prev`. */
    function PutBack(): View {
      var v := this.(isCur := false);
      match task.run
      case Blocked => v
      case Done => v.RqDequeue().(live := false)
      case Runnable => v.RqInsert()
      case Running => v.RqInsert().SetRun(Runnable)
    }

    /** PickNextTask takes this task off the run queue and makes it current. */
    function Take(): View { RqDequeue().SetRun(Running).(isCur := true) }

    /** CfsRq::EnqueueTask at the end of a migration to CPU d. */
    function FinishMigrate(d: Cpu): View {
      var v := this.(task := task.(cpu := d), inMq := false).Check(task.onRq == Migrating);
      if task.run == Runnable then v.RqInsert() else v
    }
  }

  /** TaskNew on the agent of CPU c. */
  function NewView(runnable: bool, num: nat, c: Cpu, affinity: set<Cpu>): View {
    var v := View(Task(Blocked, Dequeued, c, num, affinity), true, false, false, false, true);
    if runnable then v.SetRun(Runnable).SetOnRq(Migrating).(inMq := true) else v
  }

  //---------------------------------------------------------------------------
  // What the kernel may send
  //---------------------------------------------------------------------------

  /** The run state a message stands for, seen from the agent; None is an unknown task. */
  function After(run: Option<RunState>, kind: Kind): Option<RunState> {
    match kind
    case New(r) => Some(if r then Runnable else Blocked)
    case Wakeup => Some(Runnable)
    case Block(_) => Some(Blocked)
    case Yield(_) => Some(Runnable)
    case Preempt(_) => Some(Runnable)
    case Dead => Some(Done)
    case Departed => Some(Done)
    case AffinityChanged => run
    case PriorityChanged => run
  }

  predicate Expected(run: Option<RunState>, kind: Kind, cpu: Cpu) {
    match kind
    case New(_) => run == None
    case Wakeup => run == Some(Blocked)
    case Block(p) => run == Some(Running) && p == cpu
    case Yield(p) => run == Some(Running) && p == cpu
    case Preempt(p) => run == Some(Running) && p == cpu
    case _ => run != None && run != Some(Done)
  }

}
