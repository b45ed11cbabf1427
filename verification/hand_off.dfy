/**
 The hand-off of requests to worker threads, in the three forms the RocksDB experiment has: a load
 generator feeds dispatchers that feed workers (CfsOrchestrator), or assigners poll the network
 themselves and wake workers by futex or through the PrioTable (GhostOrchestrator).  Every access
 to a shared variable is one step; requests are numbered in the order they are polled.
 */
module HandOff {
  /**
   checked: only workers that are idle in the PrioTable are served, which is what SkipIdleWorker sees
   to.  The variant without it is there for comparison.
   */
  datatype Variant = Cfs | GhostFutex | GhostPrioTable(checked: bool)

  /** What the code does. */
  predicate IsCode(v: Variant) { v.GhostPrioTable? ==> v.checked }

  const LOAD_GENERATOR_BATCH_SIZE := 100

  /** Inside CfsOrchestrator::LoadGenerator, at dispatcher i. */
  datatype LoadGen =
    | LgStart
    | LgLoop
    | LgCheck(i: nat)
    | LgClear(i: nat)
    | LgPoll(i: nat, k: nat)
    | LgStore(i: nat)
    | LgExited

  /** Inside Dispatcher (or GhostOrchestrator::LoadGenerator); `idle` are the idle workers still to serve. */
  datatype DispPc =
    | DStart
    | DLoop
    | DLoad
    | DTake
    | DStoreZero
    | DScan(w: nat, idle: seq<nat>)
    | DNext(idle: seq<nat>)
    | DPush(w: nat, idle: seq<nat>)
    | DPublish(w: nat, idle: seq<nat>)
    | DCheckIdle(w: nat, idle: seq<nat>)
    | DMark(w: nat, idle: seq<nat>)
    | DWake(w: nat, idle: seq<nat>)
    | DExited

  /** Inside ThreadMain and Worker; `first` tells the first call of Worker. */
  datatype WorkerPc =
    | WInitIdle
    | WStart
    | WWait(first: bool)
    | WAsleep(first: bool)
    | WWoken(first: bool)
    | WLoop
    | WLoad
    | WHandle(k: nat)
    | WIdle
    | WZero
    | WExited

  datatype Disp = Disp(num: nat, slot: seq<nat>, queue: seq<nat>, pc: DispPc, exit: bool)

  datatype Worker = Worker(num: nat, batch: seq<nat>, runnable: bool, completed: seq<nat>, pc: WorkerPc, exit: bool)

  /** polled counts the requests polled so far. */
  datatype State = State(
    variant: Variant, batch: nat, polled: nat,
    gen: LoadGen, genExit: bool, disps: seq<Disp>, workers: seq<Worker>, failed: bool)

  /** avail: Poll finds a request.  recent: a futex worker finished too recently to be served. */
  datatype Action =
    | GenStep(avail: bool)
    | DispStep(d: nat, avail: bool, recent: bool)
    | WorkerStep(w: nat)
    | SpuriousWake(w: nat, interrupted: bool)
    | ExitGen
    | ExitDisp(d: nat)
    | ExitWorker(w: nat)
    | MainMark(w: nat)
    | MainWake(w: nat)

  function SetDisp(s: State, d: nat, x: Disp): State
    requires d < |s.disps|
  {
    s.(disps := s.disps[d := x])
  }

  function SetWorker(s: State, w: nat, x: Worker): State
    requires w < |s.workers|
  {
    s.(workers := s.workers[w := x])
  }

  function Check(s: State, b: bool): State { s.(failed := s.failed || !b) }

  /** All threads have reached the barrier threads_ready_. */
  predicate AllReady(s: State) {
    forall w :: 0 <= w < |s.workers| ==> s.workers[w].pc != WInitIdle
  }

  //---------------------------------------------------------------------------
  // The load generator
  //---------------------------------------------------------------------------

  predicate GenEnabled(s: State) {
    s.gen != LgExited && (s.gen == LgStart ==> AllReady(s))
  }

  function DoGen(s: State, avail: bool): State
    requires GenEnabled(s)
  {
    match s.gen
    case LgStart => s.(gen := LgLoop)
    case LgLoop => s.(gen := if s.genExit then LgExited else LgCheck(0))
    case LgCheck(i) =>
      if i >= |s.disps| then s.(gen := LgLoop)
      else s.(gen := if s.disps[i].num != 0 then LgCheck(i + 1) else LgClear(i))
    case LgClear(i) =>
      if i >= |s.disps| then s else SetDisp(s, i, s.disps[i].(slot := [])).(gen := LgPoll(i, 0))
    case LgPoll(i, k) =>
      if i < |s.disps| && k < LOAD_GENERATOR_BATCH_SIZE && avail then
        SetDisp(s, i, s.disps[i].(slot := s.disps[i].slot + [s.polled])).(
          gen := LgPoll(i, k + 1), polled := s.polled + 1)
      else s.(gen := LgStore(i))
    case LgStore(i) =>
      if i >= |s.disps| then s else SetDisp(s, i, s.disps[i].(num := |s.disps[i].slot|)).(gen := LgCheck(i + 1))
  }

  //---------------------------------------------------------------------------
  // A dispatcher, or a load generator of GhostOrchestrator
  //---------------------------------------------------------------------------

  /** GetIdleWorkerSIDs takes this worker, which has num == 0. */
  predicate Assignable(v: Variant, x: Worker) { x.num == 0 && (v.GhostPrioTable? && v.checked ==> !x.runnable) }

  predicate DispEnabled(s: State, d: nat) {
    d < |s.disps| && s.disps[d].pc != DExited && (s.disps[d].pc == DStart ==> AllReady(s))
  }

  predicate Taking(pc: DispPc) { pc == DStart || pc == DLoop || pc == DLoad || pc == DTake || pc == DStoreZero }

  /** From the start of a round to the scan for idle workers, HandleLoadGenerator included. */
  function Take(v: Variant, d: nat, x: Disp): Disp
    requires Taking(x.pc)
  {
    match x.pc
    case DStart => x.(pc := DLoop)
    case DLoop => x.(pc := if x.exit then DExited else if v == Cfs then DLoad else DScan(d, []))
    case DLoad => x.(pc := if x.num > 0 then DTake else AfterTake(d, x))
    case DTake => x.(queue := x.queue + x.slot, pc := DStoreZero)
    case DStoreZero => x.(num := 0, pc := AfterTake(d, x))
  }

  /** Dispatcher d becomes x, worker w becomes y, and p requests have been polled. */
  function Both(s: State, d: nat, x: Disp, w: nat, y: Worker, p: nat): State
    requires d < |s.disps| && w < |s.workers|
  {
    s.(disps := s.disps[d := x], workers := s.workers[w := y], polled := p)
  }

  /** GetIdleWorkerSIDs looks at worker w. */
  function DoScan(s: State, d: nat, w: nat, idle: seq<nat>): State
    requires d < |s.disps| && w < |s.workers|
  {
    var x, y, next := s.disps[d], s.workers[w], w + |s.disps|;
    if Assignable(s.variant, y) then Both(s, d, x.(pc := DScan(next, idle + [w])), w, y, s.polled)
    else Both(s, d, x.(pc := DScan(next, idle)), w, y, s.polled)
  }

  /** The dispatcher turns to the idle worker w, and `rest` are those after it. */
  function DoNext(s: State, d: nat, w: nat, rest: seq<nat>, recent: bool): State
    requires d < |s.disps| && w < |s.workers|
  {
    var x, y := s.disps[d], s.workers[w];
    Check(if s.variant == GhostFutex && recent then Both(s, d, x.(pc := DNext(rest)), w, y, s.polled)
          else Both(s, d, x.(pc := DPush(w, rest)), w, y.(batch := []), s.polled),
          y.num == 0)
  }

  /** One request for worker y, from the queue or from the network, where the next one is r. */
  function Push(v: Variant, batch: nat, x: Disp, w: nat, idle: seq<nat>, y: Worker, r: nat, avail: bool)
    : (Disp, Worker, nat)
  {
    if |y.batch| >= batch || (if v == Cfs then x.queue == [] else !avail) then
      (x.(pc := if y.batch == [] then DLoop else DPublish(w, idle)), y, r)
    else if v == Cfs then (x.(queue := x.queue[1..]), y.(batch := y.batch + [x.queue[0]]), r)
    else (x, y.(batch := y.batch + [r]), r + 1)
  }

  function DoPush(s: State, d: nat, w: nat, idle: seq<nat>, avail: bool): State
    requires d < |s.disps| && w < |s.workers|
  {
    var (x, y, p) := Push(s.variant, s.batch, s.disps[d], w, idle, s.workers[w], s.polled, avail);
    Both(s, d, x, w, y, p)
  }

  function DoPublish(s: State, d: nat, w: nat, idle: seq<nat>): State
    requires d < |s.disps| && w < |s.workers|
  {
    var y := s.workers[w];
    var pc := if s.variant.GhostPrioTable? then DCheckIdle(w, idle) else DMark(w, idle);
    Check(Both(s, d, s.disps[d].(pc := pc), w, y.(num := |y.batch|), s.polled), |y.batch| <= s.batch)
  }

  function DoCheckIdle(s: State, d: nat, w: nat, idle: seq<nat>): State
    requires d < |s.disps| && w < |s.workers|
  {
    Check(Both(s, d, s.disps[d].(pc := DMark(w, idle)), w, s.workers[w], s.polled),
          IsCode(s.variant) ==> !s.workers[w].runnable)
  }

  function DoMark(s: State, d: nat, w: nat, idle: seq<nat>): State
    requires d < |s.disps| && w < |s.workers|
  {
    Both(s, d, s.disps[d].(pc := DWake(w, idle)), w, s.workers[w].(runnable := true), s.polled)
  }

  function DoWake(s: State, d: nat, w: nat, idle: seq<nat>): State
    requires d < |s.disps| && w < |s.workers|
  {
    Both(s, d, s.disps[d].(pc := DNext(idle)), w, Wake(s.workers[w]), s.polled)
  }

  function DoDisp(s: State, d: nat, avail: bool, recent: bool): State
    requires DispEnabled(s, d)
  {
    var n, x := |s.workers|, s.disps[d];
    if Taking(x.pc) then
      Check(SetDisp(s, d, Take(s.variant, d, x)), x.pc == DLoad && x.num > 0 ==> x.num == |x.slot|)
    else
      match x.pc
      case DScan(w, idle) => if w < n then DoScan(s, d, w, idle) else SetDisp(s, d, x.(pc := DNext(idle)))
      case DNext(idle) =>
        if idle == [] then SetDisp(s, d, x.(pc := DLoop))
        else if idle[0] < n then DoNext(s, d, idle[0], idle[1..], recent)
        else s
      case DPush(w, idle) => if w < n then DoPush(s, d, w, idle, avail) else s
      case DPublish(w, idle) => if w < n then DoPublish(s, d, w, idle) else s
      case DCheckIdle(w, idle) => if w < n then DoCheckIdle(s, d, w, idle) else s
      case DMark(w, idle) => if w < n then DoMark(s, d, w, idle) else s
      case DWake(w, idle) => if w < n then DoWake(s, d, w, idle) else s
      case _ => s
  }

  function AfterTake(d: nat, x: Disp): DispPc { if x.queue == [] then DLoop else DScan(d, []) }

  /** FUTEX_WAKE; it finds nobody asleep where the wait is a spin. */
  function Wake(x: Worker): Worker { if x.pc.WAsleep? then x.(pc := WWoken(x.pc.first)) else x }

  //---------------------------------------------------------------------------
  // A worker
  //---------------------------------------------------------------------------

  /** A PrioTable worker is first scheduled once it is flagged runnable. */
  predicate WorkerEnabled(s: State, w: nat) {
    && w < |s.workers| && !s.workers[w].pc.WAsleep? && s.workers[w].pc != WExited
    && (s.workers[w].pc == WStart && s.variant.GhostPrioTable? ==> s.workers[w].runnable)
  }

  /** WaitUntilRunnable returns.  The first call of Worker then ends in CfsOrchestrator only. */
  function AfterWait(v: Variant, first: bool): WorkerPc { if first && v == GhostFutex then WLoad else WLoop }

  /** The worker after its step, and whether the CHECKs in it hold. */
  function StepWorker(v: Variant, batch: nat, x: Worker): (Worker, bool) {
    match x.pc
    case WInitIdle => (x.(runnable := false, pc := WWait(true)), true)
    case WStart => (x.(pc := if v.GhostPrioTable? then WLoad else WWait(true)), true)
    case WWait(first) =>
      (x.(pc :=
         if x.runnable then AfterWait(v, first) else if v.GhostPrioTable? then x.pc else WAsleep(first)),
       true)
    case WAsleep(first) => (x, true)
    case WWoken(first) => (x.(pc := if x.runnable then AfterWait(v, first) else WWait(first)), true)
    case WLoop => (x.(pc := if x.exit then WExited else WLoad), true)
    case WLoad =>
      if x.num == 0 then (x.(pc := WLoop), v != Cfs)
      else (x.(pc := WHandle(0)), x.num <= batch && x.num == |x.batch|)
    case WHandle(k) =>
      if k < x.num && k < |x.batch| then (x.(completed := x.completed + [x.batch[k]], pc := WHandle(k + 1)), true)
      else (x.(pc := if v.GhostPrioTable? then WZero else WIdle), true)
    case WIdle => (x.(runnable := false, pc := if v.GhostPrioTable? then WWait(false) else WZero), true)
    case WZero => (x.(num := 0, pc := if v.GhostPrioTable? then WIdle else WWait(false)), true)
    case WExited => (x, true)
  }

  function DoWorker(s: State, w: nat): State
    requires w < |s.workers|
  {
    var (x, ok) := StepWorker(s.variant, s.batch, s.workers[w]);
    Check(SetWorker(s, w, x), ok)
  }

  //---------------------------------------------------------------------------
  // All steps
  //---------------------------------------------------------------------------

  predicate AllDispsExited(s: State) { forall d :: 0 <= d < |s.disps| ==> s.disps[d].pc == DExited }

  /** Terminate: load generator first, dispatchers second, workers last; then it wakes the workers. */
  predicate Enabled(s: State, a: Action) {
    match a
    case GenStep(_) => GenEnabled(s)
    case DispStep(d, _, _) => DispEnabled(s, d)
    case WorkerStep(w) => WorkerEnabled(s, w)
    case SpuriousWake(w, _) => w < |s.workers| && s.workers[w].pc.WAsleep?
    case ExitGen => true
    case ExitDisp(d) => d < |s.disps| && s.gen == LgExited
    case ExitWorker(w) => w < |s.workers| && AllDispsExited(s)
    case MainMark(w) => w < |s.workers| && AllDispsExited(s) && forall v :: 0 <= v < |s.workers| ==> s.workers[v].exit
    case MainWake(w) => w < |s.workers| && AllDispsExited(s) && s.workers[w].exit
  }

  function Next(s: State, a: Action): State
    requires Enabled(s, a)
  {
    match a
    case GenStep(avail) => DoGen(s, avail)
    case DispStep(d, avail, recent) => DoDisp(s, d, avail, recent)
    case WorkerStep(w) => DoWorker(s, w)
    case SpuriousWake(w, interrupted) =>
      var x := s.workers[w];
      SetWorker(s, w, x.(pc := if interrupted then WWait(x.pc.first) else WWoken(x.pc.first)))
    case ExitGen => s.(genExit := true)
    case ExitDisp(d) => SetDisp(s, d, s.disps[d].(exit := true))
    case ExitWorker(w) => SetWorker(s, w, s.workers[w].(exit := true))
    case MainMark(w) => SetWorker(s, w, s.workers[w].(runnable := true))
    case MainWake(w) => SetWorker(s, w, Wake(s.workers[w]))
  }

  predicate Init(s: State) { IsCode(s.variant) && Start(s) }

  predicate Start(s: State) {
    && s.polled == 0 && !s.failed && !s.genExit && s.disps != []
    && s.gen == (if s.variant == Cfs then LgStart else LgExited)
    && (forall d :: 0 <= d < |s.disps| ==> s.disps[d] == Disp(0, [], [], DStart, false))
    && (forall w :: 0 <= w < |s.workers| ==>
          s.workers[w] == Worker(0, [], false, [], if s.variant == Cfs then WInitIdle else WStart, false))
  }
}
