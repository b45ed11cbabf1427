/**
 Every step of the hand-off keeps its invariant, which has two parts.

 Structure: each worker is in order with respect to its link, that is, to what the dispatcher
 that serves it is doing to it.  A listed worker, or one being filled, waits with nothing to do and
 unmarked; one with published requests that waits is marked, or about to be; one asleep although
 marked is about to be woken.  Each dispatcher has only its own workers in hand, each once,
 and its slot is the load generator's while its count is 0.  Nothing is assigned before all threads
 are ready, and workers are told to exit only after the dispatchers have.

 Conserved: the requests in slots, queues, batches and completed lists are those polled, once each.
 A slot that was taken, or the part of a batch already handled, is stale and does not count.

 A dispatcher's step with a worker in hand is first shown to be harmless by itself (Effect): it is
 a change of the two that leaves all other links alone, the worker in order and the
 requests of both what they were, apart from the one polled.  EffectKeeps then does the rest once
 for all of them.
 */
module HandOffInvariant {
  import opened HandOff

  //---------------------------------------------------------------------------
  // Who serves whom
  //---------------------------------------------------------------------------

  /** What a dispatcher is doing to a worker. */
  datatype Link = Apart | Listed | Filling | Full | Marking | Waking

  function LinkIn(w: nat, idle: seq<nat>, here: bool, link: Link): Link {
    if here then link else if w in idle then Listed else Apart
  }

  function LinkOf(pc: DispPc, w: nat): Link {
    match pc
    case DScan(_, idle) => LinkIn(w, idle, false, Apart)
    case DNext(idle) => LinkIn(w, idle, false, Apart)
    case DPush(v, idle) => LinkIn(w, idle, v == w, Filling)
    case DPublish(v, idle) => LinkIn(w, idle, v == w, Full)
    case DCheckIdle(v, idle) => LinkIn(w, idle, v == w, Marking)
    case DMark(v, idle) => LinkIn(w, idle, v == w, Marking)
    case DWake(v, idle) => LinkIn(w, idle, v == w, Waking)
    case _ => Apart
  }

  /** The one of n dispatchers that serves worker w: the d from which steps of n lead to w. */
  function BossOf(w: nat, n: nat): (d: nat)
    requires n > 0
    ensures d < n
  {
    if w < n then w else BossOf(w - n, n)
  }

  function Boss(s: State, w: nat): (d: nat)
    requires s.disps != []
    ensures d < |s.disps|
  {
    BossOf(w, |s.disps|)
  }

  function LinkTo(s: State, w: nat): Link
    requires s.disps != []
  {
    LinkOf(s.disps[Boss(s, w)].pc, w)
  }

  //---------------------------------------------------------------------------
  // The invariant
  //---------------------------------------------------------------------------

  predicate Waiting(pc: WorkerPc) { pc == WStart || pc.WWait? || pc.WAsleep? || pc.WWoken? }

  predicate Ready(x: Worker) { Waiting(x.pc) && x.num == 0 && !x.runnable && !x.exit }

  predicate PcOk(v: Variant, x: Worker) {
    && (match x.pc
        case WInitIdle => v == Cfs && x.num == 0
        case WStart => v != Cfs
        case WAsleep(_) => !v.GhostPrioTable?
        case WWoken(_) => !v.GhostPrioTable?
        case WLoop => x.num > 0 || x.exit
        case WLoad => x.num > 0 || (x.exit && v != Cfs)
        case WHandle(k) => 0 < x.num && k <= x.num
        case WIdle => if v.GhostPrioTable? then x.num == 0 else x.num > 0
        case WZero => x.num > 0 && (!v.GhostPrioTable? && x.runnable ==> x.exit)
        case WExited => x.exit
        case _ => true)
    && (v.GhostPrioTable? && !Waiting(x.pc) && x.pc != WExited ==> x.runnable)
  }

  predicate WorkerOk(v: Variant, batch: nat, x: Worker, link: Link) {
    && PcOk(v, x)
    && (x.num > 0 ==> x.num == |x.batch| <= batch)
    && (link == Listed || link == Filling || link == Full ==> Ready(x))
    && (link == Filling || link == Full ==> |x.batch| <= batch)
    && (link == Full ==> x.batch != [])
    && (link == Marking ==> Waiting(x.pc) && x.num > 0 && !x.runnable && !x.exit)
    && (Waiting(x.pc) && x.num > 0 && link != Marking ==> x.runnable)
    && (Waiting(x.pc) && x.runnable ==> x.num > 0 || x.exit)
    && (x.pc.WAsleep? && x.runnable ==> link == Waking || x.exit)
  }

  predicate Ascending(a: seq<nat>) { forall i, j :: 0 <= i < j < |a| ==> a[i] < a[j] }

  predicate ServedBy(a: seq<nat>, d: nat, n: nat, workers: nat)
    requires n > 0
  {
    forall i :: 0 <= i < |a| ==> a[i] < workers && BossOf(a[i], n) == d
  }

  /** The workers a dispatcher has in hand are its own, and each is there once. */
  predicate RefsOk(pc: DispPc, d: nat, n: nat, workers: nat)
    requires n > 0
  {
    match pc
    case DScan(w, idle) =>
      && BossOf(w, n) == d && Ascending(idle) && ServedBy(idle, d, n, workers)
      && forall i :: 0 <= i < |idle| ==> idle[i] < w
    case DNext(idle) => Ascending(idle) && ServedBy(idle, d, n, workers)
    case DPush(w, idle) => Ascending([w] + idle) && ServedBy([w] + idle, d, n, workers)
    case DPublish(w, idle) => Ascending([w] + idle) && ServedBy([w] + idle, d, n, workers)
    case DCheckIdle(w, idle) => Ascending([w] + idle) && ServedBy([w] + idle, d, n, workers)
    case DMark(w, idle) => Ascending([w] + idle) && ServedBy([w] + idle, d, n, workers)
    case DWake(w, idle) => Ascending([w] + idle) && ServedBy([w] + idle, d, n, workers)
    case _ => true
  }

  /** The load generator is filling the slot of dispatcher d. */
  predicate FillsSlot(gen: LoadGen, d: nat) { gen == LgStore(d) || (gen.LgPoll? && gen.i == d) }

  predicate DispOk(x: Disp, d: nat, gen: LoadGen, n: nat, workers: nat)
    requires n > 0
  {
    && (x.num > 0 ==> x.num == |x.slot|)
    && (FillsSlot(gen, d) || gen == LgClear(d) ==> x.num == 0)
    && (x.pc == DTake || x.pc == DStoreZero ==> x.num > 0)
    && RefsOk(x.pc, d, n, workers)
  }

  predicate GenOk(gen: LoadGen, n: nat) {
    match gen
    case LgClear(i) => i < n
    case LgPoll(i, _) => i < n
    case LgStore(i) => i < n
    case _ => true
  }

  /** Before the barrier nothing is assigned; workers exit after the dispatchers. */
  predicate OrderOk(s: State) {
    && (forall w, d :: 0 <= w < |s.workers| && 0 <= d < |s.disps| && s.workers[w].pc == WInitIdle ==>
          s.disps[d].pc == DStart)
    && (forall w, d :: 0 <= w < |s.workers| && 0 <= d < |s.disps| && s.workers[w].exit ==> s.disps[d].pc == DExited)
  }

  ghost predicate Structure(s: State) {
    && IsCode(s.variant) && s.disps != [] && !s.failed && GenOk(s.gen, |s.disps|) && OrderOk(s)
    && (forall d :: 0 <= d < |s.disps| ==> DispOk(s.disps[d], d, s.gen, |s.disps|, |s.workers|))
    && (forall w :: 0 <= w < |s.workers| ==> WorkerOk(s.variant, s.batch, s.workers[w], LinkTo(s, w)))
  }

  //---------------------------------------------------------------------------
  // Where the requests are
  //---------------------------------------------------------------------------

  /** The requests in a slot that the dispatcher has not taken yet. */
  function Fresh(x: Disp, filling: bool): seq<nat> {
    if filling || (x.num > 0 && x.pc != DStoreZero) then x.slot else []
  }

  function SlotBag(x: Disp, filling: bool): multiset<nat> { multiset(Fresh(x, filling)) }

  /** How many requests of its batch a worker has moved to the completed list. */
  function Handled(v: Variant, x: Worker): nat {
    match x.pc
    case WHandle(k) => k
    case WIdle => x.num
    case WZero => x.num
    case _ => 0
  }

  /** The requests of a batch that are still to be handled. */
  function Live(v: Variant, x: Worker, link: Link): seq<nat> {
    if link == Filling || link == Full then x.batch
    else if x.num > 0 && Handled(v, x) <= |x.batch| then x.batch[Handled(v, x)..]
    else []
  }

  function BatchBag(v: Variant, x: Worker, link: Link): multiset<nat> { multiset(Live(v, x, link)) }

  function Sum(bags: seq<multiset<nat>>): multiset<nat> {
    if bags == [] then multiset{} else bags[0] + Sum(bags[1..])
  }

  function DispBag(s: State, d: nat): multiset<nat>
    requires d < |s.disps|
  {
    SlotBag(s.disps[d], FillsSlot(s.gen, d)) + multiset(s.disps[d].queue)
  }

  function WorkerBag(s: State, w: nat): multiset<nat>
    requires w < |s.workers| && s.disps != []
  {
    BatchBag(s.variant, s.workers[w], LinkTo(s, w)) + multiset(s.workers[w].completed)
  }

  function DispBags(s: State): seq<multiset<nat>> {
    seq(|s.disps|, d requires 0 <= d < |s.disps| => DispBag(s, d))
  }

  function WorkerBags(s: State): seq<multiset<nat>>
    requires s.disps != []
  {
    seq(|s.workers|, w requires 0 <= w < |s.workers| => WorkerBag(s, w))
  }

  /** The requests 0 to n - 1, once each. */
  function UpTo(n: nat): multiset<nat> { if n == 0 then multiset{} else UpTo(n - 1) + multiset{n - 1} }

  ghost predicate Conserved(s: State)
    requires s.disps != []
  {
    Sum(DispBags(s)) + Sum(WorkerBags(s)) == UpTo(s.polled)
  }

  ghost predicate Inv(s: State) { Structure(s) && Conserved(s) }

  lemma {:induction false} SumUpdate(bags: seq<multiset<nat>>, i: nat, b: multiset<nat>)
    requires i < |bags|
    ensures Sum(bags[i := b]) + bags[i] == Sum(bags) + b
  {
    if i == 0 {
      assert bags[0 := b][1..] == bags[1..];
    } else {
      var rest := bags[1..];
      assert bags[i := b][1..] == rest[i - 1 := b];
      SumUpdate(rest, i - 1, b);
      var before, after := Sum(rest), Sum(rest[i - 1 := b]);
      assert Sum(bags[i := b]) == bags[0] + after && rest[i - 1] == bags[i];
      assert (bags[0] + after) + bags[i] == bags[0] + (after + bags[i]);
      assert (bags[0] + before) + b == bags[0] + (before + b);
    }
  }

  //---------------------------------------------------------------------------
  // Workers
  //---------------------------------------------------------------------------

  /** A worker may become x: its place and its requests stay in order. */
  predicate MayBecome(s: State, w: nat, x: Worker)
    requires s.disps != [] && w < |s.workers|
  {
    && WorkerOk(s.variant, s.batch, x, LinkTo(s, w))
    && (x.exit ==> AllDispsExited(s))
    && (x.pc == WInitIdle ==> s.workers[w].pc == WInitIdle)
    && BatchBag(s.variant, x, LinkTo(s, w)) + multiset(x.completed) == WorkerBag(s, w)
  }

  lemma {:induction false} StepWorkerOk(v: Variant, batch: nat, x: Worker, link: Link)
    requires WorkerOk(v, batch, x, link) && !x.pc.WAsleep?
    requires x.pc == WStart && v.GhostPrioTable? ==> x.runnable
    ensures var (x', ok) := StepWorker(v, batch, x);
      && ok && WorkerOk(v, batch, x', link) && x'.exit == x.exit
      && (x'.pc == WInitIdle ==> x.pc == WInitIdle)
  {
  }

  lemma {:induction false} HandleMovesOne(batch: seq<nat>, completed: seq<nat>, k: nat)
    requires k < |batch|
    ensures multiset(batch[k + 1..]) + multiset(completed + [batch[k]]) == multiset(batch[k..]) + multiset(completed)
  {
    assert batch[k..] == [batch[k]] + batch[k + 1..];
  }

  lemma {:induction false} StepWorkerBag(v: Variant, batch: nat, x: Worker, link: Link)
    requires WorkerOk(v, batch, x, link) && !x.pc.WAsleep?
    requires x.pc == WStart && v.GhostPrioTable? ==> x.runnable
    ensures var x' := StepWorker(v, batch, x).0;
      BatchBag(v, x', link) + multiset(x'.completed) == BatchBag(v, x, link) + multiset(x.completed)
  {
    if x.pc.WHandle? && x.pc.k < x.num {
      HandleBag(v, batch, x, link, x.pc.k);
    } else {
      StepKeepsBatch(v, batch, x, link);
    }
  }

  lemma {:induction false} HandleBag(v: Variant, batch: nat, x: Worker, link: Link, k: nat)
    requires WorkerOk(v, batch, x, link) && x.pc == WHandle(k) && k < x.num
    ensures var x' := StepWorker(v, batch, x).0;
      BatchBag(v, x', link) + multiset(x'.completed) == BatchBag(v, x, link) + multiset(x.completed)
  {
    var x' := StepWorker(v, batch, x).0;
    assert x' == x.(completed := x.completed + [x.batch[k]], pc := WHandle(k + 1)) && link != Filling && link != Full;
    assert Live(v, x', link) == x.batch[k + 1..] && Live(v, x, link) == x.batch[k..];
    HandleMovesOne(x.batch, x.completed, k);
  }

  lemma {:induction false} StepKeepsBatch(v: Variant, batch: nat, x: Worker, link: Link)
    requires WorkerOk(v, batch, x, link) && !x.pc.WAsleep? && !(x.pc.WHandle? && x.pc.k < x.num)
    requires x.pc == WStart && v.GhostPrioTable? ==> x.runnable
    ensures var x' := StepWorker(v, batch, x).0;
      x'.completed == x.completed && BatchBag(v, x', link) == BatchBag(v, x, link)
  {
    var x' := StepWorker(v, batch, x).0;
    if x.pc == WZero {
      assert x.batch[x.num..] == [];
    } else {
      SameHandled(v, batch, x);
    }
  }

  lemma {:induction false} SameHandled(v: Variant, batch: nat, x: Worker)
    requires PcOk(v, x) && x.pc != WZero && !(x.pc.WHandle? && x.pc.k < x.num)
    ensures var x' := StepWorker(v, batch, x).0;
      && x'.num == x.num && x'.batch == x.batch && x'.completed == x.completed
      && (x.num > 0 ==> Handled(v, x') == Handled(v, x))
  {
  }

  lemma {:induction false} WorkerStructure(s: State, w: nat, x: Worker)
    requires Structure(s) && w < |s.workers| && MayBecome(s, w, x)
    ensures Structure(SetWorker(s, w, x))
  {
    var s' := SetWorker(s, w, x);
    forall v | 0 <= v < |s'.workers| ensures WorkerOk(s'.variant, s'.batch, s'.workers[v], LinkTo(s', v)) {
      assert LinkTo(s', v) == LinkTo(s, v);
    }
  }

  lemma {:induction false} WorkerConserves(s: State, w: nat, x: Worker)
    requires s.disps != [] && Conserved(s) && w < |s.workers| && MayBecome(s, w, x)
    ensures Conserved(SetWorker(s, w, x))
  {
    var s' := SetWorker(s, w, x);
    assert DispBags(s') == DispBags(s);
    assert WorkerBags(s') == WorkerBags(s);
  }

  lemma {:induction false} WorkerChange(s: State, w: nat, x: Worker)
    requires Inv(s) && w < |s.workers| && MayBecome(s, w, x)
    ensures Inv(SetWorker(s, w, x))
  {
    WorkerStructure(s, w, x);
    WorkerConserves(s, w, x);
  }

  lemma {:induction false} WorkerStepKeeps(s: State, w: nat)
    requires Inv(s) && WorkerEnabled(s, w)
    ensures Inv(DoWorker(s, w))
  {
    var x := s.workers[w];
    assert WorkerOk(s.variant, s.batch, x, LinkTo(s, w));
    StepWorkerOk(s.variant, s.batch, x, LinkTo(s, w));
    StepWorkerBag(s.variant, s.batch, x, LinkTo(s, w));
    var (x', _) := StepWorker(s.variant, s.batch, x);
    WorkerChange(s, w, x');
  }

  lemma {:induction false} SleeperOk(v: Variant, batch: nat, x: Worker, link: Link, pc: WorkerPc)
    requires WorkerOk(v, batch, x, link) && x.pc.WAsleep? && (pc == WWait(x.pc.first) || pc == WWoken(x.pc.first))
    ensures WorkerOk(v, batch, x.(pc := pc), link) && BatchBag(v, x.(pc := pc), link) == BatchBag(v, x, link)
  {
  }

  lemma {:induction false} SleeperKeeps(s: State, w: nat, pc: WorkerPc)
    requires Inv(s) && w < |s.workers| && s.workers[w].pc.WAsleep?
    requires pc == WWait(s.workers[w].pc.first) || pc == WWoken(s.workers[w].pc.first)
    ensures Inv(SetWorker(s, w, s.workers[w].(pc := pc)))
  {
    var x := s.workers[w];
    SleeperOk(s.variant, s.batch, x, LinkTo(s, w), pc);
    assert x.exit ==> AllDispsExited(s);
    WorkerChange(s, w, x.(pc := pc));
  }

  lemma {:induction false} MainOk(v: Variant, batch: nat, x: Worker, x': Worker)
    requires WorkerOk(v, batch, x, Apart)
    requires x' == x.(exit := true) || (x.exit && x' == x.(runnable := true))
    ensures WorkerOk(v, batch, x', Apart) && x'.completed == x.completed
    ensures BatchBag(v, x', Apart) == BatchBag(v, x, Apart)
  {
  }

  /** The main thread touches a worker only after the dispatchers have exited. */
  lemma {:induction false} MainKeeps(s: State, w: nat, x: Worker)
    requires Inv(s) && w < |s.workers| && AllDispsExited(s)
    requires x == s.workers[w].(exit := true) || (s.workers[w].exit && x == s.workers[w].(runnable := true))
    ensures Inv(SetWorker(s, w, x))
  {
    assert LinkTo(s, w) == Apart && WorkerOk(s.variant, s.batch, s.workers[w], Apart);
    MainOk(s.variant, s.batch, s.workers[w], x);
    WorkerChange(s, w, x);
  }

  lemma {:induction false} WorkerKeeps(s: State, a: Action, s': State)
    requires Inv(s) && Enabled(s, a) && s' == Next(s, a)
    requires a.SpuriousWake? || a.ExitWorker? || a.MainMark? || a.MainWake?
    ensures Inv(s')
  {
    match a
    case SpuriousWake(w, interrupted) => SleeperKeeps(s, w, s'.workers[w].pc);
    case ExitWorker(w) => MainKeeps(s, w, s.workers[w].(exit := true));
    case MainMark(w) => MainKeeps(s, w, s.workers[w].(runnable := true));
    case MainWake(w) =>
      if s.workers[w].pc.WAsleep? {
        SleeperKeeps(s, w, WWoken(s.workers[w].pc.first));
      } else {
        assert s' == s;
      }
  }

  //---------------------------------------------------------------------------
  // The load generator
  //---------------------------------------------------------------------------

  /** The load generator and one dispatcher's slot, after a step of the former. */
  predicate GenMoves(s: State, s': State, i: nat) {
    && i < |s.disps| && |s'.disps| == |s.disps| && s'.workers == s.workers && s'.variant == s.variant
    && s'.batch == s.batch && s'.failed == s.failed
    && (forall d :: 0 <= d < |s.disps| && d != i ==>
          s'.disps[d] == s.disps[d] && !FillsSlot(s.gen, d) && !FillsSlot(s'.gen, d) && s'.gen != LgClear(d))
    && s'.disps[i].pc == s.disps[i].pc && s'.disps[i].queue == s.disps[i].queue
  }

  lemma {:induction false} GenStructure(s: State, s': State, i: nat)
    requires Structure(s) && GenMoves(s, s', i) && GenOk(s'.gen, |s.disps|)
    requires DispOk(s'.disps[i], i, s'.gen, |s.disps|, |s.workers|)
    ensures Structure(s')
  {
    forall w | 0 <= w < |s'.workers| ensures WorkerOk(s'.variant, s'.batch, s'.workers[w], LinkTo(s', w)) {
      assert LinkTo(s', w) == LinkTo(s, w);
    }
    forall d | 0 <= d < |s'.disps| ensures DispOk(s'.disps[d], d, s'.gen, |s'.disps|, |s'.workers|) {
      assert DispOk(s.disps[d], d, s.gen, |s.disps|, |s.workers|);
    }
  }

  lemma {:induction false} GenBags(s: State, s': State, i: nat)
    requires s.disps != [] && GenMoves(s, s', i)
    ensures WorkerBags(s') == WorkerBags(s)
    ensures DispBags(s') == DispBags(s)[i := DispBag(s', i)]
  {
    forall w | 0 <= w < |s'.workers| ensures WorkerBag(s', w) == WorkerBag(s, w) {
      assert LinkTo(s', w) == LinkTo(s, w);
    }
  }

  /** Requests polled by a step that puts `more` into the slot of dispatcher i. */
  lemma {:induction false} GenConserves(s: State, s': State, i: nat, more: multiset<nat>)
    requires s.disps != [] && Conserved(s) && GenMoves(s, s', i)
    requires DispBag(s', i) == DispBag(s, i) + more && UpTo(s'.polled) == UpTo(s.polled) + more
    ensures Conserved(s')
  {
    GenBags(s, s', i);
    SumUpdate(DispBags(s), i, DispBag(s', i));
    AddBoth(Sum(DispBags(s)), Sum(DispBags(s')), DispBag(s, i), more, Sum(WorkerBags(s)));
  }

  lemma {:induction false} AddBoth(
      a: multiset<nat>, a': multiset<nat>, b: multiset<nat>, more: multiset<nat>, c: multiset<nat>)
    requires a' + b == a + (b + more)
    ensures a' + c == (a + c) + more
  {
    forall x: nat ensures (a' + c)[x] == ((a + c) + more)[x] {
      assert (a' + b)[x] == (a + (b + more))[x];
    }
  }

  /** The dispatcher the load generator is at. */
  function GenAt(s: State): nat {
    if s.gen.LgCheck? || s.gen.LgClear? || s.gen.LgPoll? || s.gen.LgStore? then s.gen.i else 0
  }

  lemma {:induction false} GenStep(s: State, avail: bool)
    requires s.disps != [] && GenEnabled(s) && GenOk(s.gen, |s.disps|)
    ensures var s' := DoGen(s, avail);
      var i := if GenAt(s) < |s.disps| then GenAt(s) else 0;
      GenMoves(s, s', i) && GenOk(s'.gen, |s.disps|)
  {
  }

  lemma {:induction false} GenStepSlot(s: State, avail: bool, i: nat)
    requires i < |s.disps| && GenEnabled(s) && GenOk(s.gen, |s.disps|)
    requires i == if GenAt(s) < |s.disps| then GenAt(s) else 0
    requires DispOk(s.disps[i], i, s.gen, |s.disps|, |s.workers|)
    ensures var s' := DoGen(s, avail);
      |s'.disps| == |s.disps| && DispOk(s'.disps[i], i, s'.gen, |s.disps|, |s.workers|)
  {
  }

  lemma {:induction false} GenStepBag(s: State, avail: bool, i: nat)
    requires i < |s.disps| && GenEnabled(s) && GenOk(s.gen, |s.disps|)
    requires i == if GenAt(s) < |s.disps| then GenAt(s) else 0
    requires DispOk(s.disps[i], i, s.gen, |s.disps|, |s.workers|)
    ensures var s' := DoGen(s, avail);
      var more := if s'.polled == s.polled then multiset{} else multiset{s.polled};
      |s'.disps| == |s.disps| && DispBag(s', i) == DispBag(s, i) + more && UpTo(s'.polled) == UpTo(s.polled) + more
  {
    if DoGen(s, avail).polled != s.polled {
      PolledBag(s, avail, i);
    } else {
      SameSlotBag(s, avail, i);
    }
  }

  lemma {:induction false} PolledBag(s: State, avail: bool, i: nat)
    requires s.gen.LgPoll? && s.gen.i == i < |s.disps| && DoGen(s, avail).polled != s.polled
    ensures var s' := DoGen(s, avail);
      && |s'.disps| == |s.disps| && DispBag(s', i) == DispBag(s, i) + multiset{s.polled}
      && UpTo(s'.polled) == UpTo(s.polled) + multiset{s.polled}
  {
    Append(s.disps[i].slot, multiset(s.disps[i].queue), s.polled);
  }

  lemma {:induction false} Append(slot: seq<nat>, queue: multiset<nat>, r: nat)
    ensures multiset(slot + [r]) + queue == multiset(slot) + queue + multiset{r}
  {
  }

  lemma {:induction false} SameSlotBag(s: State, avail: bool, i: nat)
    requires i < |s.disps| && GenEnabled(s) && GenOk(s.gen, |s.disps|)
    requires i == if GenAt(s) < |s.disps| then GenAt(s) else 0
    requires DispOk(s.disps[i], i, s.gen, |s.disps|, |s.workers|)
    requires DoGen(s, avail).polled == s.polled
    ensures var s' := DoGen(s, avail);
      |s'.disps| == |s.disps| && DispBag(s', i) == DispBag(s, i)
  {
  }

  lemma {:induction false} GenKeeps(s: State, avail: bool)
    requires Inv(s) && GenEnabled(s)
    ensures Inv(DoGen(s, avail))
  {
    var s' := DoGen(s, avail);
    var i := if GenAt(s) < |s.disps| then GenAt(s) else 0;
    assert DispOk(s.disps[i], i, s.gen, |s.disps|, |s.workers|);
    GenStep(s, avail);
    GenStepSlot(s, avail, i);
    GenStructure(s, s', i);
    GenStepBag(s, avail, i);
    GenConserves(s, s', i, if s'.polled == s.polled then multiset{} else multiset{s.polled});
  }

  //---------------------------------------------------------------------------
  // Dispatchers
  //---------------------------------------------------------------------------

  /** A dispatcher's step changes itself and at most one worker w that it serves. */
  ghost predicate DispMoves(s: State, s': State, d: nat, w: nat) {
    && d < |s.disps| && BossOf(w, |s.disps|) == d
    && |s'.disps| == |s.disps| && s'.disps == s.disps[d := s'.disps[d]]
    && |s'.workers| == |s.workers| && (forall v :: 0 <= v < |s.workers| && v != w ==> s'.workers[v] == s.workers[v])
    && s'.variant == s.variant && s'.batch == s.batch && s'.gen == s.gen
    && s.disps[d].pc != DExited && s'.disps[d].pc != DStart && (s.disps[d].pc == DStart ==> AllReady(s))
    && (w < |s.workers| ==> s'.workers[w].exit == s.workers[w].exit
                            && (s'.workers[w].pc == WInitIdle ==> s.workers[w].pc == WInitIdle))
    && forall v: nat :: v != w ==> SameLink(LinkOf(s.disps[d].pc, v), LinkOf(s'.disps[d].pc, v))
  }

  /** A listed worker may be dropped from the list. */
  predicate SameLink(a: Link, b: Link) { a == b || (a == Listed && b == Apart) }

  lemma {:induction false} DispOrder(s: State, s': State, d: nat, w: nat)
    requires s.disps != [] && OrderOk(s) && DispMoves(s, s', d, w)
    ensures OrderOk(s')
  {
    forall v | 0 <= v < |s.workers| ensures !s'.workers[v].exit && s'.workers[v].pc != WInitIdle {
      var pc := s.disps[d].pc;
      assert s.workers[v].exit ==> pc == DExited;
      assert s.workers[v].pc == WInitIdle ==> pc == DStart;
    }
  }

  lemma {:induction false} DispStructure(s: State, s': State, d: nat, w: nat)
    requires Structure(s) && DispMoves(s, s', d, w) && !s'.failed
    requires DispOk(s'.disps[d], d, s.gen, |s.disps|, |s.workers|)
    requires w < |s.workers| ==> WorkerOk(s.variant, s.batch, s'.workers[w], LinkOf(s'.disps[d].pc, w))
    ensures Structure(s')
  {
    DispOrder(s, s', d, w);
    forall v | 0 <= v < |s'.workers| ensures WorkerOk(s'.variant, s'.batch, s'.workers[v], LinkTo(s', v)) {
      assert WorkerOk(s.variant, s.batch, s.workers[v], LinkTo(s, v));
      if v != w { UnlistOk(s.variant, s.batch, s.workers[v], LinkTo(s, v)); }
    }
  }

  lemma {:induction false} OtherWorkerBag(s: State, s': State, d: nat, w: nat, v: nat)
    requires s.disps != [] && DispMoves(s, s', d, w) && v < |s.workers| && v != w
    ensures WorkerBag(s', v) == WorkerBag(s, v)
  {
    assert SameLink(LinkTo(s, v), LinkTo(s', v));
  }

  lemma {:induction false} DispBagsMove(s: State, s': State, d: nat, w: nat)
    requires s.disps != [] && DispMoves(s, s', d, w)
    ensures DispBags(s') == DispBags(s)[d := DispBag(s', d)]
    ensures WorkerBags(s') == if w < |s.workers| then WorkerBags(s)[w := WorkerBag(s', w)] else WorkerBags(s)
  {
    assert DispBags(s') == DispBags(s)[d := DispBag(s', d)];
    forall v | 0 <= v < |s.workers| && v != w ensures WorkerBag(s', v) == WorkerBag(s, v) {
      OtherWorkerBag(s, s', d, w, v);
    }
    if w < |s.workers| {
      assert WorkerBags(s') == WorkerBags(s)[w := WorkerBag(s', w)];
    } else {
      assert WorkerBags(s') == WorkerBags(s);
    }
  }

  /** What dispatcher d and worker w have in hand together. */
  function Pair(s: State, d: nat, w: nat): multiset<nat>
    requires d < |s.disps|
  {
    DispBag(s, d) + if w < |s.workers| then WorkerBag(s, w) else multiset{}
  }

  lemma {:induction false} AddPair(
    a: multiset<nat>, a': multiset<nat>, b: multiset<nat>, b': multiset<nat>,
    x: multiset<nat>, x': multiset<nat>, y: multiset<nat>, y': multiset<nat>, more: multiset<nat>)
    requires a' + x == a + x' && b' + y == b + y' && x' + y' == x + y + more
    ensures a' + b' == a + b + more
  {
    forall r: nat ensures (a' + b')[r] == (a + b + more)[r] {
      assert (a' + x)[r] == (a + x')[r];
      assert (b' + y)[r] == (b + y')[r];
      assert (x' + y')[r] == (x + y + more)[r];
    }
  }

  lemma {:induction false} DispConserves(s: State, s': State, d: nat, w: nat, more: multiset<nat>)
    requires s.disps != [] && Conserved(s) && DispMoves(s, s', d, w)
    requires Pair(s', d, w) == Pair(s, d, w) + more && UpTo(s'.polled) == UpTo(s.polled) + more
    ensures Conserved(s')
  {
    DispBagsMove(s, s', d, w);
    var a, b := DispBags(s), WorkerBags(s);
    SumUpdate(a, d, DispBag(s', d));
    if w < |s.workers| {
      SumUpdate(b, w, WorkerBag(s', w));
      AddPair(Sum(a), Sum(DispBags(s')), Sum(b), Sum(WorkerBags(s')), DispBag(s, d), DispBag(s', d),
              WorkerBag(s, w), WorkerBag(s', w), more);
    } else {
      AddPair(Sum(a), Sum(DispBags(s')), Sum(b), Sum(b), DispBag(s, d), DispBag(s', d), multiset{}, multiset{}, more);
    }
  }

  //---------------------------------------------------------------------------
  // A worker in the hands of its dispatcher
  //---------------------------------------------------------------------------

  lemma {:induction false} ListOk(v: Variant, batch: nat, y: Worker)
    requires IsCode(v) && WorkerOk(v, batch, y, Apart) && Assignable(v, y) && !y.exit && y.pc != WInitIdle
    ensures WorkerOk(v, batch, y, Listed)
  {
  }

  lemma {:induction false} UnlistOk(v: Variant, batch: nat, y: Worker, link: Link)
    requires WorkerOk(v, batch, y, link)
    ensures link == Listed ==> WorkerOk(v, batch, y, Apart)
  {
  }

  lemma {:induction false} FillOk(v: Variant, batch: nat, y: Worker)
    requires WorkerOk(v, batch, y, Listed)
    ensures y.num == 0 && WorkerOk(v, batch, y.(batch := []), Filling)
    ensures BatchBag(v, y.(batch := []), Filling) == BatchBag(v, y, Listed)
  {
  }

  lemma {:induction false} PushOk(v: Variant, batch: nat, y: Worker, r: nat)
    requires WorkerOk(v, batch, y, Filling) && |y.batch| < batch
    ensures WorkerOk(v, batch, y.(batch := y.batch + [r]), Filling)
    ensures BatchBag(v, y.(batch := y.batch + [r]), Filling) == BatchBag(v, y, Filling) + multiset{r}
  {
  }

  lemma {:induction false} StopOk(v: Variant, batch: nat, y: Worker)
    requires WorkerOk(v, batch, y, Filling)
    ensures var link := if y.batch == [] then Apart else Full;
      WorkerOk(v, batch, y, link) && BatchBag(v, y, link) == BatchBag(v, y, Filling)
  {
  }

  lemma {:induction false} PublishOk(v: Variant, batch: nat, y: Worker)
    requires WorkerOk(v, batch, y, Full)
    ensures |y.batch| <= batch && WorkerOk(v, batch, y.(num := |y.batch|), Marking)
    ensures BatchBag(v, y.(num := |y.batch|), Marking) == BatchBag(v, y, Full)
  {
    assert y.batch[0..] == y.batch;
  }

  lemma {:induction false} MarkOk(v: Variant, batch: nat, y: Worker)
    requires WorkerOk(v, batch, y, Marking)
    ensures !y.runnable && WorkerOk(v, batch, y.(runnable := true), Waking)
    ensures BatchBag(v, y.(runnable := true), Waking) == BatchBag(v, y, Marking)
  {
  }

  lemma {:induction false} WakeOk(v: Variant, batch: nat, y: Worker)
    requires WorkerOk(v, batch, y, Waking)
    ensures WorkerOk(v, batch, Wake(y), Apart)
    ensures BatchBag(v, Wake(y), Apart) == BatchBag(v, y, Waking)
  {
  }

  //---------------------------------------------------------------------------
  // Dispatcher steps
  //---------------------------------------------------------------------------

  function DispHas(x: Disp, filling: bool): multiset<nat> { SlotBag(x, filling) + multiset(x.queue) }

  function WorkerHas(v: Variant, y: Worker, link: Link): multiset<nat> { BatchBag(v, y, link) + multiset(y.completed) }

  /** Dispatcher d may become x, all of its workers but w staying as they are. */
  ghost predicate DispMayBecome(s: State, d: nat, x: Disp, w: nat) {
    && DispEnabled(s, d) && BossOf(w, |s.disps|) == d && x.pc != DStart
    && DispOk(x, d, s.gen, |s.disps|, |s.workers|)
    && forall v: nat :: v != w ==> SameLink(LinkOf(s.disps[d].pc, v), LinkOf(x.pc, v))
  }

  /** Dispatcher x and worker y, with links as in x, hold what is there now and `more`. */
  ghost predicate Holds(s: State, d: nat, x: Disp, w: nat, y: Worker, more: multiset<nat>)
    requires d < |s.disps| && w < |s.workers|
  {
    var f := FillsSlot(s.gen, d);
    DispHas(x, f) + WorkerHas(s.variant, y, LinkOf(x.pc, w))
    == DispHas(s.disps[d], f) + WorkerHas(s.variant, s.workers[w], LinkOf(s.disps[d].pc, w)) + more
  }

  /** Dispatcher d alone may become x. */
  ghost predicate AloneOk(s: State, d: nat, x: Disp) {
    && DispMayBecome(s, d, x, d) && SameLink(LinkOf(s.disps[d].pc, d), LinkOf(x.pc, d))
    && DispHas(x, FillsSlot(s.gen, d)) == DispHas(s.disps[d], FillsSlot(s.gen, d))
  }

  /** A step that changes only the dispatcher. */
  lemma {:induction false} DispAlone(s: State, d: nat, x: Disp, s': State)
    requires Inv(s) && AloneOk(s, d, x) && s' == SetDisp(s, d, x)
    ensures Inv(s')
  {
    assert DispMoves(s, s', d, d);
    if d < |s.workers| {
      assert WorkerOk(s.variant, s.batch, s.workers[d], LinkTo(s, d));
      UnlistOk(s.variant, s.batch, s.workers[d], LinkTo(s, d));
      assert WorkerBag(s', d) == WorkerBag(s, d);
    }
    DispStructure(s, s', d, d);
    DispConserves(s, s', d, d, multiset{});
  }

  ghost predicate WorkerMayBecome(s: State, x: Disp, w: nat, y: Worker)
    requires w < |s.workers|
  {
    && WorkerOk(s.variant, s.batch, y, LinkOf(x.pc, w)) && y.exit == s.workers[w].exit
    && (y.pc == WInitIdle ==> s.workers[w].pc == WInitIdle)
  }

  lemma {:induction false} PairStructure(s: State, d: nat, x: Disp, w: nat, y: Worker, p: nat)
    requires Structure(s) && DispMayBecome(s, d, x, w) && w < |s.workers| && WorkerMayBecome(s, x, w, y)
    ensures Structure(Both(s, d, x, w, y, p))
  {
    var s' := Both(s, d, x, w, y, p);
    DispStructure(s, s', d, w);
  }

  lemma {:induction false} PairConserves(s: State, d: nat, x: Disp, w: nat, y: Worker, p: nat, more: multiset<nat>)
    requires s.disps != [] && Conserved(s) && DispMayBecome(s, d, x, w)
    requires w < |s.workers| && WorkerMayBecome(s, x, w, y)
    requires Holds(s, d, x, w, y, more) && UpTo(p) == UpTo(s.polled) + more && s.disps[d].pc != DExited
    ensures Conserved(Both(s, d, x, w, y, p))
  {
    var s' := Both(s, d, x, w, y, p);
    assert DispMoves(s, s', d, w);
    assert DispBag(s, d) == DispHas(s.disps[d], FillsSlot(s.gen, d));
    assert DispBag(s', d) == DispHas(x, FillsSlot(s.gen, d));
    assert WorkerBag(s, w) == WorkerHas(s.variant, s.workers[w], LinkOf(s.disps[d].pc, w));
    assert WorkerBag(s', w) == WorkerHas(s.variant, y, LinkOf(x.pc, w));
    DispConserves(s, s', d, w, more);
  }

  /** What a step does that may poll: nothing, or the next request. */
  function Polled(s: State, p: nat): multiset<nat> { if p == s.polled then multiset{} else multiset{s.polled} }

  /** A step of dispatcher d with its worker w in hand, both in order afterwards. */
  ghost predicate Effect(s: State, s': State, d: nat, w: nat) {
    && d < |s.disps| && w < |s.workers| && |s'.disps| == |s.disps| && |s'.workers| == |s.workers|
    && var x, y, p := s'.disps[d], s'.workers[w], s'.polled;
    && s' == Both(s, d, x, w, y, p)
    && DispMayBecome(s, d, x, w) && WorkerMayBecome(s, x, w, y)
    && Holds(s, d, x, w, y, Polled(s, p)) && UpTo(p) == UpTo(s.polled) + Polled(s, p)
  }

  lemma {:induction false} MakeEffect(s: State, d: nat, x: Disp, w: nat, y: Worker, p: nat)
    requires d < |s.disps| && w < |s.workers| && DispMayBecome(s, d, x, w) && WorkerMayBecome(s, x, w, y)
    requires Holds(s, d, x, w, y, Polled(s, p)) && UpTo(p) == UpTo(s.polled) + Polled(s, p)
    ensures Effect(s, Both(s, d, x, w, y, p), d, w)
  {
  }

  lemma {:induction false} EffectKeeps(s: State, s': State, d: nat, w: nat)
    requires Inv(s) && Effect(s, s', d, w)
    ensures Inv(s')
  {
    PairStructure(s, d, s'.disps[d], w, s'.workers[w], s'.polled);
    PairConserves(s, d, s'.disps[d], w, s'.workers[w], s'.polled, Polled(s, s'.polled));
  }

  /** What the invariant says about dispatcher d, which has not exited, and one of its workers. */
  ghost predicate Known(s: State, d: nat, w: nat) {
    && IsCode(s.variant) && DispEnabled(s, d) && BossOf(w, |s.disps|) == d
    && DispOk(s.disps[d], d, s.gen, |s.disps|, |s.workers|)
    && (w < |s.workers| ==> WorkerOk(s.variant, s.batch, s.workers[w], LinkOf(s.disps[d].pc, w)))
    && (w < |s.workers| ==> !s.workers[w].exit && (s.disps[d].pc != DStart ==> s.workers[w].pc != WInitIdle))
  }

  lemma {:induction false} KnownHolds(s: State, d: nat, w: nat)
    requires Structure(s) && DispEnabled(s, d) && BossOf(w, |s.disps|) == d
    ensures Known(s, d, w)
  {
    if w < |s.workers| {
      assert WorkerOk(s.variant, s.batch, s.workers[w], LinkTo(s, w));
      var pc := s.disps[d].pc;
      assert s.workers[w].exit ==> pc == DExited;
    }
  }

  lemma {:induction false} InTail(w: nat, idle: seq<nat>)
    requires idle != [] && Ascending(idle)
    ensures w in idle <==> w == idle[0] || w in idle[1..]
    ensures idle[0] !in idle[1..]
  {
    if w in idle {
      var i :| 0 <= i < |idle| && idle[i] == w;
      assert i > 0 ==> idle[1..][i - 1] == w;
    }
  }

  //---------------------------------------------------------------------------
  // Dispatcher steps
  //---------------------------------------------------------------------------

  lemma {:induction false} TakeMay(s: State, d: nat)
    requires Known(s, d, d) && Taking(s.disps[d].pc)
    ensures var x' := Take(s.variant, d, s.disps[d]);
      DispMayBecome(s, d, x', d) && LinkOf(x'.pc, d) == LinkOf(s.disps[d].pc, d) == Apart
  {
  }

  lemma {:induction false} TakeHas(v: Variant, d: nat, x: Disp, gen: LoadGen, n: nat, workers: nat)
    requires n > 0 && Taking(x.pc) && DispOk(x, d, gen, n, workers)
    ensures DispHas(Take(v, d, x), FillsSlot(gen, d)) == DispHas(x, FillsSlot(gen, d))
  {
    assert multiset(x.queue + x.slot) == multiset(x.queue) + multiset(x.slot);
  }

  lemma {:induction false} TakeAlone(s: State, d: nat)
    requires Known(s, d, d) && Taking(s.disps[d].pc)
    ensures AloneOk(s, d, Take(s.variant, d, s.disps[d]))
  {
    TakeMay(s, d);
    TakeHas(s.variant, d, s.disps[d], s.gen, |s.disps|, |s.workers|);
  }

  lemma {:induction false} PassMay(s: State, d: nat, w: nat, idle: seq<nat>)
    requires Known(s, d, w) && s.disps[d].pc == DScan(w, idle) && w < |s.workers|
    ensures DispMayBecome(s, d, s.disps[d].(pc := DScan(w + |s.disps|, idle)), w) && w !in idle
  {
  }

  lemma {:induction false} ListMay(s: State, d: nat, w: nat, idle: seq<nat>)
    requires Known(s, d, w) && s.disps[d].pc == DScan(w, idle) && w < |s.workers|
    ensures DispMayBecome(s, d, s.disps[d].(pc := DScan(w + |s.disps|, idle + [w])), w) && w !in idle
  {
  }

  lemma {:induction false} ListEffect(s: State, d: nat, w: nat, idle: seq<nat>)
    requires Known(s, d, w) && s.disps[d].pc == DScan(w, idle) && w < |s.workers| && Assignable(s.variant, s.workers[w])
    ensures Effect(s, Both(s, d, s.disps[d].(pc := DScan(w + |s.disps|, idle + [w])), w, s.workers[w], s.polled), d, w)
  {
    var x', y := s.disps[d].(pc := DScan(w + |s.disps|, idle + [w])), s.workers[w];
    ListMay(s, d, w, idle);
    assert LinkOf(s.disps[d].pc, w) == Apart && LinkOf(x'.pc, w) == Listed;
    assert WorkerMayBecome(s, x', w, y) by { ListOk(s.variant, s.batch, y); }
    assert BatchBag(s.variant, y, Listed) == BatchBag(s.variant, y, Apart);
    MakeEffect(s, d, x', w, y, s.polled);
  }

  lemma {:induction false} PassEffect(s: State, d: nat, w: nat, idle: seq<nat>)
    requires Known(s, d, w) && s.disps[d].pc == DScan(w, idle) && w < |s.workers|
    ensures Effect(s, Both(s, d, s.disps[d].(pc := DScan(w + |s.disps|, idle)), w, s.workers[w], s.polled), d, w)
  {
    PassMay(s, d, w, idle);
    MakeEffect(s, d, s.disps[d].(pc := DScan(w + |s.disps|, idle)), w, s.workers[w], s.polled);
  }

  lemma {:induction false} ScanIs(s: State, d: nat, w: nat, idle: seq<nat>)
    requires d < |s.disps| && w < |s.workers|
    ensures Assignable(s.variant, s.workers[w]) ==>
      DoScan(s, d, w, idle) ==
        Both(s, d, s.disps[d].(pc := DScan(w + |s.disps|, idle + [w])), w, s.workers[w], s.polled)
    ensures !Assignable(s.variant, s.workers[w]) ==>
      DoScan(s, d, w, idle) == Both(s, d, s.disps[d].(pc := DScan(w + |s.disps|, idle)), w, s.workers[w], s.polled)
  {
  }

  /** Worker w is put on the list, or passed over. */
  lemma {:induction false} ScanEffect(s: State, d: nat, w: nat, idle: seq<nat>, s': State)
    requires Known(s, d, w) && s.disps[d].pc == DScan(w, idle) && w < |s.workers| && s' == DoScan(s, d, w, idle)
    ensures Effect(s, s', d, w)
  {
    ScanIs(s, d, w, idle);
    if Assignable(s.variant, s.workers[w]) {
      ListEffect(s, d, w, idle);
      assert Effect(s, s', d, w);
    } else {
      PassEffect(s, d, w, idle);
      assert Effect(s, s', d, w);
    }
  }

  lemma {:induction false} DispKnown(s: State, d: nat)
    requires Structure(s) && DispEnabled(s, d)
    ensures DispOk(s.disps[d], d, s.gen, |s.disps|, |s.workers|)
  {
  }

  lemma {:induction false} EndScanAlone(s: State, d: nat, w: nat, idle: seq<nat>)
    requires DispEnabled(s, d) && DispOk(s.disps[d], d, s.gen, |s.disps|, |s.workers|)
    requires s.disps[d].pc == DScan(w, idle)
    ensures AloneOk(s, d, s.disps[d].(pc := DNext(idle)))
  {
  }

  lemma {:induction false} NextMay(s: State, d: nat, idle: seq<nat>, x': Disp)
    requires idle != [] && Known(s, d, idle[0]) && s.disps[d].pc == DNext(idle)
    requires x' == s.disps[d].(pc := DNext(idle[1..])) || x' == s.disps[d].(pc := DPush(idle[0], idle[1..]))
    ensures DispMayBecome(s, d, x', idle[0])
    ensures LinkOf(s.disps[d].pc, idle[0]) == Listed
    ensures LinkOf(x'.pc, idle[0]) == if x'.pc.DNext? then Apart else Filling
  {
    assert idle == [idle[0]] + idle[1..];
    forall v: nat ensures v in idle <==> v == idle[0] || v in idle[1..] { InTail(v, idle); }
    InTail(idle[0], idle);
  }

  lemma {:induction false} NextKnown(s: State, d: nat, idle: seq<nat>)
    requires Structure(s) && DispEnabled(s, d) && s.disps[d].pc == DNext(idle) && idle != []
    ensures idle[0] < |s.workers| && Known(s, d, idle[0])
  {
    assert DispOk(s.disps[d], d, s.gen, |s.disps|, |s.workers|);
    assert BossOf(idle[0], |s.disps|) == d;
    KnownHolds(s, d, idle[0]);
  }

  lemma {:induction false} SkipEffect(s: State, d: nat, w: nat, idle: seq<nat>)
    requires Known(s, d, w) && w < |s.workers| && s.disps[d].pc == DNext(idle) && idle != [] && idle[0] == w
    ensures Effect(s, Both(s, d, s.disps[d].(pc := DNext(idle[1..])), w, s.workers[w], s.polled), d, w)
  {
    var x', y := s.disps[d].(pc := DNext(idle[1..])), s.workers[w];
    NextMay(s, d, idle, x');
    UnlistOk(s.variant, s.batch, y, Listed);
    assert BatchBag(s.variant, y, Apart) == BatchBag(s.variant, y, Listed);
    MakeEffect(s, d, x', w, y, s.polled);
  }

  lemma {:induction false} NextEffect(s: State, d: nat, w: nat, idle: seq<nat>, recent: bool)
    requires Known(s, d, w) && w < |s.workers| && s.disps[d].pc == DNext(idle) && idle != [] && idle[0] == w
    ensures Effect(s, DoNext(s, d, w, idle[1..], recent), d, w)
  {
    var x, y := s.disps[d], s.workers[w];
    assert LinkOf(x.pc, w) == Listed;
    FillOk(s.variant, s.batch, y);
    if s.variant == GhostFutex && recent {
      SkipEffect(s, d, w, idle);
    } else {
      NextMay(s, d, idle, x.(pc := DPush(w, idle[1..])));
      MakeEffect(s, d, x.(pc := DPush(w, idle[1..])), w, y.(batch := []), s.polled);
    }
  }

  lemma {:induction false} StopAlone(s: State, d: nat)
    requires DispEnabled(s, d) && s.disps[d].pc == DNext([]) && DispOk(s.disps[d], d, s.gen, |s.disps|, |s.workers|)
    ensures AloneOk(s, d, s.disps[d].(pc := DLoop))
  {
  }

  /** From one step to the next with the same worker in hand. */
  lemma {:induction false} SameHandMay(s: State, d: nat, w: nat, idle: seq<nat>, pc: DispPc)
    requires Known(s, d, w) && w < |s.workers|
    requires s.disps[d].pc in {DPush(w, idle), DPublish(w, idle), DCheckIdle(w, idle), DMark(w, idle), DWake(w, idle)}
    requires pc in {
      DLoop, DNext(idle), DPush(w, idle), DPublish(w, idle), DCheckIdle(w, idle), DMark(w, idle), DWake(w, idle)}
    ensures forall queue :: DispMayBecome(s, d, s.disps[d].(pc := pc, queue := queue), w)
    ensures LinkOf(pc, w) ==
      match pc
      case DPush(_, _) => Filling
      case DPublish(_, _) => Full
      case DCheckIdle(_, _) => Marking
      case DMark(_, _) => Marking
      case DWake(_, _) => Waking
      case _ => Apart
  {
    HandFacts(w, idle, d, |s.disps|, |s.workers|);
  }

  lemma {:induction false} HandFacts(w: nat, idle: seq<nat>, d: nat, n: nat, workers: nat)
    requires n > 0 && Ascending([w] + idle) && ServedBy([w] + idle, d, n, workers)
    ensures w !in idle && Ascending(idle) && ServedBy(idle, d, n, workers)
  {
    assert ([w] + idle)[1..] == idle && ([w] + idle)[0] == w;
    TailFacts([w] + idle, d, n, workers);
  }

  lemma {:induction false} TailFacts(a: seq<nat>, d: nat, n: nat, workers: nat)
    requires n > 0 && a != [] && Ascending(a) && ServedBy(a, d, n, workers)
    ensures a[0] !in a[1..] && Ascending(a[1..]) && ServedBy(a[1..], d, n, workers)
  {
  }

  lemma {:induction false} PushMay(
      v: Variant, batch: nat, x: Disp, w: nat, idle: seq<nat>, y: Worker, r: nat, avail: bool)
    requires WorkerOk(v, batch, y, Filling) && x.pc == DPush(w, idle)
    ensures var (x', y', p) := Push(v, batch, x, w, idle, y, r, avail);
      && x'.pc in {DLoop, DPush(w, idle), DPublish(w, idle)}
      && var link := if x'.pc == DLoop then Apart else if x'.pc.DPush? then Filling else Full;
      && WorkerOk(v, batch, y', link) && y'.exit == y.exit && y'.pc == y.pc
  {
    var (x', y', p) := Push(v, batch, x, w, idle, y, r, avail);
    StopOk(v, batch, y);
    if |y.batch| < batch {
      PushOk(v, batch, y, r);
      if x.queue != [] { PushOk(v, batch, y, x.queue[0]); }
    }
  }

  /** Dispatcher and worker, after the push, hold what they held and what was polled. */
  predicate Pushed(v: Variant, x: Disp, y: Worker, r: nat, f: bool, x': Disp, y': Worker, p: nat) {
    var link := if x'.pc == DLoop then Apart else if x'.pc.DPush? then Filling else Full;
    var more := if p == r then multiset{} else multiset{r};
    && DispHas(x', f) + WorkerHas(v, y', link) == DispHas(x, f) + WorkerHas(v, y, Filling) + more
    && UpTo(p) == UpTo(r) + more
  }

  /** The request moves from the queue, or the network, to the batch. */
  lemma {:induction false} PushHas(
      v: Variant, batch: nat, x: Disp, w: nat, idle: seq<nat>, y: Worker, r: nat, avail: bool, f: bool)
    requires WorkerOk(v, batch, y, Filling) && x.pc == DPush(w, idle)
    ensures var (x', y', p) := Push(v, batch, x, w, idle, y, r, avail);
      Pushed(v, x, y, r, f, x', y', p)
  {
    var (x', y', p) := Push(v, batch, x, w, idle, y, r, avail);
    if |y.batch| >= batch || (if v == Cfs then x.queue == [] else !avail) {
      StopHas(v, batch, x, w, idle, y, r, f);
      assert (x', y', p) == (x.(pc := if y.batch == [] then DLoop else DPublish(w, idle)), y, r);
    } else if v == Cfs {
      QueueHas(v, x, y, r, f);
      assert (x', y', p) == (x.(queue := x.queue[1..]), y.(batch := y.batch + [x.queue[0]]), r);
    } else {
      NetworkHas(v, x, y, r, f);
      assert (x', y', p) == (x, y.(batch := y.batch + [r]), r + 1);
    }
  }

  lemma {:induction false} QueueHas(v: Variant, x: Disp, y: Worker, r: nat, f: bool)
    requires x.pc.DPush? && x.queue != []
    ensures Pushed(v, x, y, r, f, x.(queue := x.queue[1..]), y.(batch := y.batch + [x.queue[0]]), r)
  {
    Shift(SlotBag(x, f), x.queue, y.batch, multiset(y.completed));
  }

  lemma {:induction false} NetworkHas(v: Variant, x: Disp, y: Worker, r: nat, f: bool)
    requires x.pc.DPush?
    ensures Pushed(v, x, y, r, f, x, y.(batch := y.batch + [r]), r + 1)
  {
    Add(DispHas(x, f), y.batch, multiset(y.completed), r);
  }

  lemma {:induction false} StopHas(v: Variant, batch: nat, x: Disp, w: nat, idle: seq<nat>, y: Worker, r: nat, f: bool)
    requires WorkerOk(v, batch, y, Filling) && x.pc == DPush(w, idle)
    ensures Pushed(v, x, y, r, f, x.(pc := if y.batch == [] then DLoop else DPublish(w, idle)), y, r)
  {
    StopOk(v, batch, y);
  }

  lemma {:induction false} Add(has: multiset<nat>, batch: seq<nat>, completed: multiset<nat>, r: nat)
    ensures has + (multiset(batch + [r]) + completed) == has + (multiset(batch) + completed) + multiset{r}
  {
  }

  lemma {:induction false} Shift(slot: multiset<nat>, queue: seq<nat>, batch: seq<nat>, completed: multiset<nat>)
    requires queue != []
    ensures (slot + multiset(queue[1..])) + (multiset(batch + [queue[0]]) + completed)
         == (slot + multiset(queue)) + (multiset(batch) + completed) + multiset{}
  {
    assert queue == [queue[0]] + queue[1..];
  }

  lemma {:induction false} PushEffect(s: State, d: nat, w: nat, idle: seq<nat>, avail: bool)
    requires Known(s, d, w) && w < |s.workers| && s.disps[d].pc == DPush(w, idle)
    ensures Effect(s, DoPush(s, d, w, idle, avail), d, w)
  {
    var x, y := s.disps[d], s.workers[w];
    var (x', y', p) := Push(s.variant, s.batch, x, w, idle, y, s.polled, avail);
    assert LinkOf(x.pc, w) == Filling;
    PushMay(s.variant, s.batch, x, w, idle, y, s.polled, avail);
    PushHas(s.variant, s.batch, x, w, idle, y, s.polled, avail, FillsSlot(s.gen, d));
    SameHandMay(s, d, w, idle, x'.pc);
    assert x' == x.(pc := x'.pc, queue := x'.queue);
    MakeEffect(s, d, x', w, y', p);
  }

  /** The dispatcher goes on with the same worker, which becomes y. */
  lemma {:induction false} HandEffect(s: State, d: nat, w: nat, idle: seq<nat>, pc: DispPc, y: Worker)
    requires Known(s, d, w) && w < |s.workers|
    requires s.disps[d].pc in {DPublish(w, idle), DCheckIdle(w, idle), DMark(w, idle), DWake(w, idle)}
    requires pc in {DNext(idle), DCheckIdle(w, idle), DMark(w, idle), DWake(w, idle)}
    requires WorkerOk(s.variant, s.batch, y, LinkOf(pc, w))
    requires y.exit == s.workers[w].exit && y.completed == s.workers[w].completed
    requires y.pc == WInitIdle ==> s.workers[w].pc == WInitIdle
    requires BatchBag(s.variant, y, LinkOf(pc, w)) == BatchBag(s.variant, s.workers[w], LinkOf(s.disps[d].pc, w))
    ensures Effect(s, Both(s, d, s.disps[d].(pc := pc), w, y, s.polled), d, w)
  {
    var x, f := s.disps[d], FillsSlot(s.gen, d);
    SameHandMay(s, d, w, idle, pc);
    assert x.(pc := pc) == x.(pc := pc, queue := x.queue);
    assert DispMayBecome(s, d, x.(pc := pc), w);
    assert Holds(s, d, x.(pc := pc), w, y, multiset{}) by {
      assert DispHas(x.(pc := pc), f) == DispHas(x, f);
      assert WorkerHas(s.variant, y, LinkOf(pc, w)) == WorkerHas(s.variant, s.workers[w], LinkOf(x.pc, w));
    }
    MakeEffect(s, d, x.(pc := pc), w, y, s.polled);
  }

  /** The steps after a batch has been filled. */
  lemma {:induction false} PublishEffect(s: State, d: nat, w: nat, idle: seq<nat>)
    requires Known(s, d, w) && w < |s.workers| && s.disps[d].pc == DPublish(w, idle)
    ensures Effect(s, DoPublish(s, d, w, idle), d, w)
  {
    var y := s.workers[w];
    PublishOk(s.variant, s.batch, y);
    var pc := if s.variant.GhostPrioTable? then DCheckIdle(w, idle) else DMark(w, idle);
    HandEffect(s, d, w, idle, pc, y.(num := |y.batch|));
  }

  lemma {:induction false} MarkEffect(s: State, d: nat, w: nat, idle: seq<nat>)
    requires Known(s, d, w) && w < |s.workers|
    ensures s.disps[d].pc == DCheckIdle(w, idle) ==> Effect(s, DoCheckIdle(s, d, w, idle), d, w)
    ensures s.disps[d].pc == DMark(w, idle) ==> Effect(s, DoMark(s, d, w, idle), d, w)
  {
    var y := s.workers[w];
    if s.disps[d].pc == DCheckIdle(w, idle) {
      MarkOk(s.variant, s.batch, y);
      HandEffect(s, d, w, idle, DMark(w, idle), y);
    } else if s.disps[d].pc == DMark(w, idle) {
      MarkOk(s.variant, s.batch, y);
      HandEffect(s, d, w, idle, DWake(w, idle), y.(runnable := true));
    }
  }

  lemma {:induction false} WakeEffect(s: State, d: nat, w: nat, idle: seq<nat>)
    requires Known(s, d, w) && w < |s.workers| && s.disps[d].pc == DWake(w, idle)
    ensures Effect(s, DoWake(s, d, w, idle), d, w)
  {
    var y := s.workers[w];
    WakeOk(s.variant, s.batch, y);
    SameHandMay(s, d, w, idle, DNext(idle));
    HandEffect(s, d, w, idle, DNext(idle), Wake(y));
  }

  /** The worker in hand is one of the dispatcher's own. */
  lemma {:induction false} InHand(s: State, d: nat, w: nat, idle: seq<nat>)
    requires Structure(s) && DispEnabled(s, d)
    requires s.disps[d].pc in {DPush(w, idle), DPublish(w, idle), DCheckIdle(w, idle), DMark(w, idle), DWake(w, idle)}
    ensures w < |s.workers| && Known(s, d, w)
  {
    assert DispOk(s.disps[d], d, s.gen, |s.disps|, |s.workers|);
    assert ([w] + idle)[0] == w;
    KnownHolds(s, d, w);
  }

  lemma {:induction false} DispIs(s: State, d: nat, avail: bool, recent: bool)
    requires DispEnabled(s, d)
    ensures var s', x, n := DoDisp(s, d, avail, recent), s.disps[d], |s.workers|;
      match x.pc
      case DScan(w, idle) => s' == if w < n then DoScan(s, d, w, idle) else SetDisp(s, d, x.(pc := DNext(idle)))
      case DNext(idle) =>
        (idle == [] ==> s' == SetDisp(s, d, x.(pc := DLoop))) &&
        (idle != [] && idle[0] < n ==> s' == DoNext(s, d, idle[0], idle[1..], recent))
      case DPush(w, idle) => w < n ==> s' == DoPush(s, d, w, idle, avail)
      case DPublish(w, idle) => w < n ==> s' == DoPublish(s, d, w, idle)
      case DCheckIdle(w, idle) => w < n ==> s' == DoCheckIdle(s, d, w, idle)
      case DMark(w, idle) => w < n ==> s' == DoMark(s, d, w, idle)
      case DWake(w, idle) => w < n ==> s' == DoWake(s, d, w, idle)
      case _ => true
    ensures var x := s.disps[d];
      Taking(x.pc) && (x.num == 0 || x.num == |x.slot|) ==>
        DoDisp(s, d, avail, recent) == SetDisp(s, d, Take(s.variant, d, x))
  {
  }

  /** A dispatcher that has no worker in hand. */
  lemma {:induction false} DispAloneKeeps(s: State, d: nat, s': State)
    requires Inv(s) && DispEnabled(s, d) && s' == DoDisp(s, d, false, false)
    requires var pc := s.disps[d].pc; Taking(pc) || pc == DNext([]) || (pc.DScan? && pc.w >= |s.workers|)
    ensures Inv(s')
  {
    DispIs(s, d, false, false);
    var x := s.disps[d];
    var x' :=
      if Taking(x.pc) then Take(s.variant, d, x)
      else if x.pc.DNext? then x.(pc := DLoop)
      else x.(pc := DNext(x.pc.idle));
    assert AloneOk(s, d, x') && s' == SetDisp(s, d, x') by {
      DispKnown(s, d);
      KnownHolds(s, d, d);
      if Taking(x.pc) {
        TakeAlone(s, d);
      } else if x.pc.DNext? {
        StopAlone(s, d);
      } else {
        EndScanAlone(s, d, x.pc.w, x.pc.idle);
      }
    }
    DispAlone(s, d, x', s');
  }

  /** The worker a dispatcher has in hand. */
  function InHandOf(pc: DispPc): nat {
    match pc
    case DScan(w, _) => w
    case DNext(idle) => if idle == [] then 0 else idle[0]
    case DPush(w, _) => w
    case DPublish(w, _) => w
    case DCheckIdle(w, _) => w
    case DMark(w, _) => w
    case DWake(w, _) => w
    case _ => 0
  }

  lemma {:induction false} DispEffect(s: State, d: nat, avail: bool, recent: bool)
    requires Structure(s) && DispEnabled(s, d)
    requires var pc := s.disps[d].pc; !Taking(pc) && pc != DNext([]) && (pc.DScan? ==> pc.w < |s.workers|)
    ensures Effect(s, DoDisp(s, d, avail, recent), d, InHandOf(s.disps[d].pc))
  {
    DispIs(s, d, avail, recent);
    match s.disps[d].pc
    case DScan(w, idle) =>
      DispKnown(s, d);
      KnownHolds(s, d, w);
      ScanEffect(s, d, w, idle, DoScan(s, d, w, idle));
    case DNext(idle) =>
      NextKnown(s, d, idle);
      NextEffect(s, d, idle[0], idle, recent);
    case DPush(w, idle) => InHand(s, d, w, idle); PushEffect(s, d, w, idle, avail);
    case DPublish(w, idle) => InHand(s, d, w, idle); PublishEffect(s, d, w, idle);
    case DCheckIdle(w, idle) => InHand(s, d, w, idle); MarkEffect(s, d, w, idle);
    case DMark(w, idle) => InHand(s, d, w, idle); MarkEffect(s, d, w, idle);
    case DWake(w, idle) => InHand(s, d, w, idle); WakeEffect(s, d, w, idle);
  }

  lemma {:induction false} DispKeeps(s: State, d: nat, avail: bool, recent: bool, s': State)
    requires Inv(s) && DispEnabled(s, d) && s' == DoDisp(s, d, avail, recent)
    ensures Inv(s')
  {
    var pc := s.disps[d].pc;
    if Taking(pc) || pc == DNext([]) || (pc.DScan? && pc.w >= |s.workers|) {
      assert s' == DoDisp(s, d, false, false);
      DispAloneKeeps(s, d, s');
    } else {
      DispEffect(s, d, avail, recent);
      EffectKeeps(s, s', d, InHandOf(pc));
    }
  }

  lemma {:induction false} SameBags(s: State, s': State)
    requires s.disps != [] && |s'.disps| == |s.disps| && s'.workers == s.workers
    requires s'.variant == s.variant && s'.gen == s.gen
    requires forall d :: 0 <= d < |s.disps| ==> s'.disps[d] == s.disps[d].(exit := s'.disps[d].exit)
    ensures DispBags(s') == DispBags(s) && WorkerBags(s') == WorkerBags(s)
    ensures forall w :: 0 <= w < |s.workers| ==> LinkTo(s', w) == LinkTo(s, w)
  {
    forall w | 0 <= w < |s.workers| ensures LinkTo(s', w) == LinkTo(s, w) { }
    assert DispBags(s') == DispBags(s);
    assert WorkerBags(s') == WorkerBags(s);
  }

  lemma {:induction false} ExitStructure(s: State, d: nat)
    requires Structure(s) && d < |s.disps|
    ensures Structure(SetDisp(s, d, s.disps[d].(exit := true)))
  {
    var s' := SetDisp(s, d, s.disps[d].(exit := true));
    forall e | 0 <= e < |s'.disps| ensures DispOk(s'.disps[e], e, s'.gen, |s'.disps|, |s'.workers|) {
      assert DispOk(s.disps[e], e, s.gen, |s.disps|, |s.workers|);
    }
    forall w | 0 <= w < |s'.workers| ensures WorkerOk(s'.variant, s'.batch, s'.workers[w], LinkTo(s', w)) {
      assert LinkTo(s', w) == LinkTo(s, w);
    }
  }

  lemma {:induction false} ExitKeeps(s: State, d: nat)
    requires Inv(s) && d < |s.disps|
    ensures Inv(SetDisp(s, d, s.disps[d].(exit := true)))
  {
    ExitStructure(s, d);
    SameBags(s, SetDisp(s, d, s.disps[d].(exit := true)));
  }

  lemma {:induction false} ExitGenKeeps(s: State)
    requires Inv(s)
    ensures Inv(s.(genExit := true))
  {
    SameBags(s, s.(genExit := true));
  }

  lemma {:induction false} StepKeeps(s: State, a: Action)
    requires Inv(s) && Enabled(s, a)
    ensures Inv(Next(s, a))
  {
    match a
    case GenStep(avail) => GenKeeps(s, avail);
    case DispStep(d, avail, recent) => DispKeeps(s, d, avail, recent, Next(s, a));
    case WorkerStep(w) => WorkerStepKeeps(s, w);
    case ExitGen => ExitGenKeeps(s);
    case ExitDisp(d) => ExitKeeps(s, d);
    case _ => WorkerKeeps(s, a, Next(s, a));
  }

  lemma {:induction false} EmptySum(bags: seq<multiset<nat>>)
    requires forall i :: 0 <= i < |bags| ==> bags[i] == multiset{}
    ensures Sum(bags) == multiset{}
  {
    if bags != [] { EmptySum(bags[1..]); }
  }

  lemma {:induction false} InitStructure(s: State)
    requires Init(s)
    ensures Structure(s)
  {
    assert GenOk(s.gen, |s.disps|);
    forall d | 0 <= d < |s.disps| ensures DispOk(s.disps[d], d, s.gen, |s.disps|, |s.workers|) {
      assert s.disps[d] == Disp(0, [], [], DStart, false);
    }
    forall w | 0 <= w < |s.workers| ensures WorkerOk(s.variant, s.batch, s.workers[w], LinkTo(s, w)) {
      assert s.disps[Boss(s, w)].pc == DStart;
    }
  }

  lemma {:induction false} InitConserved(s: State)
    requires Init(s)
    ensures Conserved(s)
  {
    EmptySum(DispBags(s));
    forall w | 0 <= w < |s.workers| ensures WorkerBag(s, w) == multiset{} {
      assert s.disps[Boss(s, w)].pc == DStart;
    }
    EmptySum(WorkerBags(s));
  }

  lemma {:induction false} InitHolds(s: State)
    requires Init(s)
    ensures Inv(s)
  {
    InitStructure(s);
    InitConserved(s);
  }
}
