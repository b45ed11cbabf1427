/**
 The order in which requests are served: the line of a worker is ascending in every run.

 The line is what the worker has completed, what is left of its batch, the queue of its dispatcher and
 what the load generator has put into the slot for that dispatcher; requests are numbered in the order in
 which they were polled.  A step leaves a line as it is, adds the request it polls at the end, or gives
 the head of the queue to some other worker, so that one request leaves the middle of the line.
 */
module HandOffOrder {
  import opened HandOff
  import opened HandOffInvariant
  import opened HandOffRuns

  function DispLine(x: Disp, filling: bool): seq<nat> { x.queue + Fresh(x, filling) }

  function WorkerLine(v: Variant, y: Worker, link: Link): seq<nat> { y.completed + Live(v, y, link) }

  /** The requests at dispatcher d, next one first. */
  function Queued(s: State, d: nat): seq<nat>
    requires d < |s.disps|
  {
    DispLine(s.disps[d], FillsSlot(s.gen, d))
  }

  /** The requests given to worker w, first one first. */
  function Given(s: State, w: nat): seq<nat>
    requires s.disps != [] && w < |s.workers|
  {
    WorkerLine(s.variant, s.workers[w], LinkTo(s, w))
  }

  function Line(s: State, w: nat): seq<nat>
    requires s.disps != [] && w < |s.workers|
  {
    Given(s, w) + Queued(s, Boss(s, w))
  }

  predicate Rising(a: seq<nat>, n: nat) { Ascending(a) && forall i :: 0 <= i < |a| ==> a[i] < n }

  /** Without a load generator of their own the dispatchers queue nothing. */
  ghost predicate NothingQueued(s: State) {
    s.gen == LgExited && forall d :: 0 <= d < |s.disps| ==> s.disps[d].num == 0 && s.disps[d].queue == []
  }

  ghost predicate InOrder(s: State) {
    && s.disps != [] && (s.variant != Cfs ==> NothingQueued(s))
    && (forall d :: 0 <= d < |s.disps| ==> Rising(Queued(s, d), s.polled))
    && (forall w :: 0 <= w < |s.workers| ==> Rising(Line(s, w), s.polled))
  }

  //---------------------------------------------------------------------------
  // How lines change
  //---------------------------------------------------------------------------

  function Without(a: seq<nat>, k: nat): seq<nat>
    requires k < |a|
  {
    a[..k] + a[k + 1..]
  }

  /** a, a line of requests below n, becomes b, one of requests below m. */
  ghost predicate LineMoves(a: seq<nat>, n: nat, b: seq<nat>, m: nat) {
    || (n <= m && b == a)
    || (m == n + 1 && b == a + [n])
    || (n <= m && exists k: nat :: k < |a| && b == Without(a, k))
  }

  lemma {:induction false} MovesKeepRising(a: seq<nat>, n: nat, b: seq<nat>, m: nat)
    requires Rising(a, n) && LineMoves(a, n, b, m)
    ensures Rising(b, m)
  {
    if b != a && !(m == n + 1 && b == a + [n]) {
      var k: nat :| k < |a| && b == Without(a, k);
    }
  }

  /** Every line moves. */
  ghost predicate LinesMove(s: State, s': State) {
    && s.disps != [] && |s'.disps| == |s.disps| && |s'.workers| == |s.workers| && s'.variant == s.variant
    && (forall d :: 0 <= d < |s.disps| ==> LineMoves(Queued(s, d), s.polled, Queued(s', d), s'.polled))
    && (forall w :: 0 <= w < |s.workers| ==> LineMoves(Line(s, w), s.polled, Line(s', w), s'.polled))
  }

  lemma {:induction false} LinesKeepOrder(s: State, s': State)
    requires InOrder(s) && LinesMove(s, s') && (s.variant != Cfs ==> NothingQueued(s'))
    ensures InOrder(s')
  {
    forall d | 0 <= d < |s'.disps| ensures Rising(Queued(s', d), s'.polled) {
      MovesKeepRising(Queued(s, d), s.polled, Queued(s', d), s'.polled);
    }
    forall w | 0 <= w < |s'.workers| ensures Rising(Line(s', w), s'.polled) {
      MovesKeepRising(Line(s, w), s.polled, Line(s', w), s'.polled);
    }
  }

  //---------------------------------------------------------------------------
  // Workers
  //---------------------------------------------------------------------------

  /** A worker handles the first request of what is left of its batch. */
  lemma {:induction false} StepWorkerLine(v: Variant, batch: nat, x: Worker, link: Link)
    requires WorkerOk(v, batch, x, link) && !x.pc.WAsleep?
    requires x.pc == WStart && v.GhostPrioTable? ==> x.runnable
    ensures WorkerLine(v, StepWorker(v, batch, x).0, link) == WorkerLine(v, x, link)
  {
    if x.pc.WHandle? && x.pc.k < x.num {
      HandleLine(v, batch, x, link, x.pc.k);
    } else if x.pc == WZero {
      assert x.batch[x.num..] == [];
    } else {
      SameHandled(v, batch, x);
    }
  }

  lemma {:induction false} HandleLine(v: Variant, batch: nat, x: Worker, link: Link, k: nat)
    requires WorkerOk(v, batch, x, link) && x.pc == WHandle(k) && k < x.num
    ensures WorkerLine(v, StepWorker(v, batch, x).0, link) == WorkerLine(v, x, link)
  {
    var x' := StepWorker(v, batch, x).0;
    assert x' == x.(completed := x.completed + [x.batch[k]], pc := WHandle(k + 1)) && link != Filling && link != Full;
    assert Live(v, x', link) == x.batch[k + 1..] && Live(v, x, link) == x.batch[k..];
    MoveOne(x.completed, x.batch, k);
  }

  lemma {:induction false} MoveOne(completed: seq<nat>, batch: seq<nat>, k: nat)
    requires k < |batch|
    ensures (completed + [batch[k]]) + batch[k + 1..] == completed + batch[k..]
  {
  }

  /** A step that changes one worker only. */
  lemma {:induction false} WorkerAloneOrder(s: State, w: nat, x: Worker)
    requires InOrder(s) && w < |s.workers|
    requires WorkerLine(s.variant, x, LinkTo(s, w)) == Given(s, w)
    ensures InOrder(SetWorker(s, w, x))
  {
    var s' := SetWorker(s, w, x);
    forall v | 0 <= v < |s.workers| ensures Line(s', v) == Line(s, v) {
      assert LinkTo(s', v) == LinkTo(s, v);
    }
    forall d | 0 <= d < |s.disps| ensures Queued(s', d) == Queued(s, d) { }
    LinesKeepOrder(s, s');
  }

  lemma {:induction false} WorkerOrder(s: State, w: nat)
    requires Inv(s) && InOrder(s) && WorkerEnabled(s, w)
    ensures InOrder(DoWorker(s, w))
  {
    var x := s.workers[w];
    assert WorkerOk(s.variant, s.batch, x, LinkTo(s, w));
    StepWorkerOk(s.variant, s.batch, x, LinkTo(s, w));
    StepWorkerLine(s.variant, s.batch, x, LinkTo(s, w));
    WorkerAloneOrder(s, w, StepWorker(s.variant, s.batch, x).0);
  }

  /** The worker's place in its batch does not depend on whether it is awake, marked or told to exit. */
  lemma {:induction false} SameRest(v: Variant, x: Worker, link: Link, x': Worker)
    requires x' == x.(pc := x'.pc, runnable := x'.runnable, exit := x'.exit)
    requires x'.pc == x.pc || (x.pc.WAsleep? && x'.pc in {WWait(x.pc.first), WWoken(x.pc.first)})
    ensures WorkerLine(v, x', link) == WorkerLine(v, x, link)
  {
  }

  lemma {:induction false} OtherIs(s: State, a: Action, w: nat, s': State)
    requires Enabled(s, a) && s' == Next(s, a)
    requires a.SpuriousWake? || a.ExitWorker? || a.MainMark? || a.MainWake?
    requires w == a.w
    ensures w < |s.workers| == |s'.workers| && s' == SetWorker(s, w, s'.workers[w])
    ensures var x, x' := s.workers[w], s'.workers[w];
      && x' == x.(pc := x'.pc, runnable := x'.runnable, exit := x'.exit)
      && (x'.pc == x.pc || (x.pc.WAsleep? && x'.pc in {WWait(x.pc.first), WWoken(x.pc.first)}))
  {
  }

  lemma {:induction false} OtherOrder(s: State, a: Action, s': State)
    requires InOrder(s) && Enabled(s, a) && s' == Next(s, a)
    requires a.SpuriousWake? || a.ExitWorker? || a.MainMark? || a.MainWake?
    ensures InOrder(s')
  {
    OtherIs(s, a, a.w, s');
    SameRest(s.variant, s.workers[a.w], LinkTo(s, a.w), s'.workers[a.w]);
    WorkerAloneOrder(s, a.w, s'.workers[a.w]);
  }

  //---------------------------------------------------------------------------
  // The load generator
  //---------------------------------------------------------------------------

  lemma {:induction false} GenLine(s: State, avail: bool, i: nat)
    requires i < |s.disps| && GenEnabled(s) && GenOk(s.gen, |s.disps|)
    requires i == if GenAt(s) < |s.disps| then GenAt(s) else 0
    requires DispOk(s.disps[i], i, s.gen, |s.disps|, |s.workers|)
    ensures var s' := DoGen(s, avail);
      |s'.disps| == |s.disps| && LineMoves(Queued(s, i), s.polled, Queued(s', i), s'.polled)
  {
    var s' := DoGen(s, avail);
    if s'.polled != s.polled {
      var x := s.disps[i];
      assert x.queue + (x.slot + [s.polled]) == (x.queue + x.slot) + [s.polled];
    }
  }

  lemma {:induction false} Longer(g: seq<nat>, a: seq<nat>, n: nat, b: seq<nat>, m: nat)
    requires LineMoves(a, n, b, m)
    ensures LineMoves(g + a, n, g + b, m)
  {
    if b == a && n <= m {
    } else if m == n + 1 && b == a + [n] {
      assert g + b == (g + a) + [n];
    } else {
      var k: nat :| k < |a| && b == Without(a, k);
      assert g + b == Without(g + a, |g| + k);
    }
  }

  lemma {:induction false} GenLineOf(s: State, s': State, i: nat, w: nat)
    requires s.disps != [] && GenMoves(s, s', i) && w < |s.workers|
    requires LineMoves(Queued(s, i), s.polled, Queued(s', i), s'.polled)
    requires forall d :: 0 <= d < |s.disps| && d != i ==> Queued(s', d) == Queued(s, d)
    ensures LineMoves(Line(s, w), s.polled, Line(s', w), s'.polled)
  {
    var d := Boss(s, w);
    assert LinkTo(s', w) == LinkTo(s, w) && Given(s', w) == Given(s, w);
    assert LineMoves(Queued(s, d), s.polled, Queued(s', d), s'.polled);
    Longer(Given(s, w), Queued(s, d), s.polled, Queued(s', d), s'.polled);
  }

  lemma {:induction false} GenMovesLines(s: State, s': State, i: nat)
    requires s.disps != [] && GenMoves(s, s', i)
    requires LineMoves(Queued(s, i), s.polled, Queued(s', i), s'.polled)
    ensures LinesMove(s, s')
  {
    assert s.polled <= s'.polled;
    forall d | 0 <= d < |s.disps| && d != i ensures Queued(s', d) == Queued(s, d) { }
    forall w | 0 <= w < |s.workers| ensures LineMoves(Line(s, w), s.polled, Line(s', w), s'.polled) {
      GenLineOf(s, s', i, w);
    }
  }

  lemma {:induction false} GenOrder(s: State, avail: bool)
    requires Inv(s) && InOrder(s) && GenEnabled(s)
    ensures InOrder(DoGen(s, avail))
  {
    var i := if GenAt(s) < |s.disps| then GenAt(s) else 0;
    HandOffInvariant.GenStep(s, avail);
    assert DispOk(s.disps[i], i, s.gen, |s.disps|, |s.workers|);
    GenLine(s, avail, i);
    GenMovesLines(s, DoGen(s, avail), i);
    LinesKeepOrder(s, DoGen(s, avail));
  }

  //---------------------------------------------------------------------------
  // Dispatchers
  //---------------------------------------------------------------------------

  lemma {:induction false} OtherGiven(s: State, s': State, d: nat, w: nat, v: nat)
    requires s.disps != [] && DispMoves(s, s', d, w) && v < |s.workers| && v != w
    ensures Given(s', v) == Given(s, v)
  {
    assert SameLink(LinkTo(s, v), LinkTo(s', v));
  }

  lemma {:induction false} TakeLine(v: Variant, d: nat, x: Disp, gen: LoadGen, n: nat, workers: nat)
    requires n > 0 && Taking(x.pc) && DispOk(x, d, gen, n, workers)
    ensures DispLine(Take(v, d, x), FillsSlot(gen, d)) == DispLine(x, FillsSlot(gen, d))
  {
  }

  lemma {:induction false} AloneLine(s: State, d: nat, x: Disp, s': State, v: nat)
    requires AloneOk(s, d, x) && s' == SetDisp(s, d, x) && v < |s.workers|
    requires DispLine(x, FillsSlot(s.gen, d)) == Queued(s, d)
    ensures Line(s', v) == Line(s, v)
  {
    if v != d {
      assert DispMoves(s, s', d, d);
      OtherGiven(s, s', d, d, v);
    } else {
      assert SameLink(LinkTo(s, v), LinkTo(s', v));
    }
  }

  /** Dispatcher d alone becomes x. */
  lemma {:induction false} DispAloneOrder(s: State, d: nat, x: Disp, s': State)
    requires InOrder(s) && AloneOk(s, d, x) && s' == SetDisp(s, d, x)
    requires DispLine(x, FillsSlot(s.gen, d)) == Queued(s, d)
    requires s.variant != Cfs ==> x.num == 0 && x.queue == []
    ensures InOrder(s')
  {
    forall v | 0 <= v < |s.workers| ensures LineMoves(Line(s, v), s.polled, Line(s', v), s'.polled) {
      AloneLine(s, d, x, s', v);
    }
    forall e | 0 <= e < |s.disps| ensures LineMoves(Queued(s, e), s.polled, Queued(s', e), s'.polled) { }
    LinesKeepOrder(s, s');
  }

  /** What a dispatcher's step does to its line q and that of the worker in hand, g. */
  predicate Hands(v: Variant, q: seq<nat>, g: seq<nat>, n: nat, q': seq<nat>, g': seq<nat>, m: nat) {
    || (q' == q && g' == g && m == n)
    || (v == Cfs && q != [] && q' == q[1..] && g' == g + [q[0]] && m == n)
    || (v != Cfs && q' == q && g' == g + [n] && m == n + 1)
  }

  lemma {:induction false} PushHands(
      v: Variant, batch: nat, x: Disp, w: nat, idle: seq<nat>, y: Worker, r: nat, avail: bool, f: bool)
    requires WorkerOk(v, batch, y, Filling) && x.pc == DPush(w, idle)
    ensures var (x', y', p) := Push(v, batch, x, w, idle, y, r, avail);
      var link := if x'.pc == DLoop then Apart else if x'.pc.DPush? then Filling else Full;
      Hands(v, DispLine(x, f), WorkerLine(v, y, Filling), r, DispLine(x', f), WorkerLine(v, y', link), p)
  {
    if |y.batch| >= batch || (if v == Cfs then x.queue == [] else !avail) {
    } else if v == Cfs {
      QueueHands(v, x, y, r, f);
    } else {
      assert y.completed + (y.batch + [r]) == (y.completed + y.batch) + [r];
    }
  }

  lemma {:induction false} QueueHands(v: Variant, x: Disp, y: Worker, r: nat, f: bool)
    requires v == Cfs && x.pc.DPush? && x.queue != []
    ensures Hands(v, DispLine(x, f), WorkerLine(v, y, Filling), r,
                  DispLine(x.(queue := x.queue[1..]), f),
                  WorkerLine(v, y.(batch := y.batch + [x.queue[0]]), Filling), r)
  {
    var slot := Fresh(x, f);
    assert (x.queue + slot)[1..] == x.queue[1..] + slot;
    assert y.completed + (y.batch + [x.queue[0]]) == (y.completed + y.batch) + [x.queue[0]];
  }

  /** Nothing is left of the batch of a worker without published requests. */
  lemma {:induction false} RestHands(v: Variant, y: Worker, a: Link, b: Link)
    requires y.num == 0 && a != Filling && a != Full && b != Full
    ensures Live(v, y, a) == [] && Live(v, y.(batch := []), b) == []
    ensures b != Filling ==> Live(v, y, b) == []
  {
  }

  /** The worker in hand is about to be used, or has been given its batch. */
  lemma {:induction false} BatchHands(v: Variant, batch: nat, y: Worker)
    ensures WorkerOk(v, batch, y, Full) ==> Live(v, y.(num := |y.batch|), Marking) == Live(v, y, Full)
    ensures WorkerOk(v, batch, y, Marking) ==> Live(v, y.(runnable := true), Waking) == Live(v, y, Marking)
    ensures WorkerOk(v, batch, y, Waking) ==> Live(v, Wake(y), Apart) == Live(v, y, Waking)
  {
  }

  ghost predicate StepHands(s: State, s': State, d: nat, w: nat)
    requires d < |s.disps| && w < |s.workers|
  {
    && |s'.disps| == |s.disps| && |s'.workers| == |s.workers|
    && var f := FillsSlot(s.gen, d);
    Hands(
      s.variant, DispLine(s.disps[d], f), WorkerLine(s.variant, s.workers[w], LinkOf(s.disps[d].pc, w)), s.polled,
      DispLine(s'.disps[d], f), WorkerLine(s.variant, s'.workers[w], LinkOf(s'.disps[d].pc, w)), s'.polled)
  }

  lemma {:induction false} ScanHands(s: State, d: nat, w: nat, idle: seq<nat>)
    requires Known(s, d, w) && s.disps[d].pc == DScan(w, idle) && w < |s.workers|
    ensures StepHands(s, DoScan(s, d, w, idle), d, w)
  {
    ScanIs(s, d, w, idle);
    ListMay(s, d, w, idle);
    if Assignable(s.variant, s.workers[w]) { RestHands(s.variant, s.workers[w], Apart, Listed); }
  }

  lemma {:induction false} NextHands(s: State, d: nat, w: nat, idle: seq<nat>, recent: bool)
    requires Known(s, d, w) && w < |s.workers| && s.disps[d].pc == DNext(idle) && idle != [] && idle[0] == w
    ensures StepHands(s, DoNext(s, d, w, idle[1..], recent), d, w)
  {
    var x, y := s.disps[d], s.workers[w];
    FillOk(s.variant, s.batch, y);
    if s.variant == GhostFutex && recent {
      NextMay(s, d, idle, x.(pc := DNext(idle[1..])));
      RestHands(s.variant, y, Listed, Apart);
    } else {
      NextMay(s, d, idle, x.(pc := DPush(w, idle[1..])));
      RestHands(s.variant, y, Listed, Filling);
    }
  }

  lemma {:induction false} PushStepHands(s: State, d: nat, w: nat, idle: seq<nat>, avail: bool)
    requires Known(s, d, w) && w < |s.workers| && s.disps[d].pc == DPush(w, idle)
    ensures StepHands(s, DoPush(s, d, w, idle, avail), d, w)
  {
    var x, y := s.disps[d], s.workers[w];
    var (x', y', p) := Push(s.variant, s.batch, x, w, idle, y, s.polled, avail);
    PushMay(s.variant, s.batch, x, w, idle, y, s.polled, avail);
    PushHands(s.variant, s.batch, x, w, idle, y, s.polled, avail, FillsSlot(s.gen, d));
    SameHandMay(s, d, w, idle, x'.pc);
  }

  /** The dispatcher goes on with the same worker, which becomes y. */
  lemma {:induction false} SameHands(s: State, d: nat, w: nat, idle: seq<nat>, pc: DispPc, y: Worker)
    requires Known(s, d, w) && w < |s.workers|
    requires s.disps[d].pc in {DPublish(w, idle), DCheckIdle(w, idle), DMark(w, idle), DWake(w, idle)}
    requires pc in {DNext(idle), DCheckIdle(w, idle), DMark(w, idle), DWake(w, idle)}
    requires y.completed == s.workers[w].completed
    requires Live(s.variant, y, LinkOf(pc, w)) == Live(s.variant, s.workers[w], LinkOf(s.disps[d].pc, w))
    ensures forall failed ::
      StepHands(s, Both(s, d, s.disps[d].(pc := pc), w, y, s.polled).(failed := failed), d, w)
  {
    SameHandMay(s, d, w, idle, pc);
  }

  lemma {:induction false} PublishHands(s: State, d: nat, w: nat, idle: seq<nat>)
    requires Known(s, d, w) && w < |s.workers| && s.disps[d].pc == DPublish(w, idle)
    ensures StepHands(s, DoPublish(s, d, w, idle), d, w)
  {
    var y := s.workers[w];
    var pc := if s.variant.GhostPrioTable? then DCheckIdle(w, idle) else DMark(w, idle);
    assert LinkOf(s.disps[d].pc, w) == Full && LinkOf(pc, w) == Marking;
    assert WorkerOk(s.variant, s.batch, y, Full);
    BatchHands(s.variant, s.batch, y);
    SameHands(s, d, w, idle, pc, y.(num := |y.batch|));
  }

  lemma {:induction false} CheckHands(s: State, d: nat, w: nat, idle: seq<nat>)
    requires Known(s, d, w) && w < |s.workers| && s.disps[d].pc == DCheckIdle(w, idle)
    ensures StepHands(s, DoCheckIdle(s, d, w, idle), d, w)
  {
    assert LinkOf(s.disps[d].pc, w) == Marking && LinkOf(DMark(w, idle), w) == Marking;
    SameHands(s, d, w, idle, DMark(w, idle), s.workers[w]);
  }

  lemma {:induction false} MarkHands(s: State, d: nat, w: nat, idle: seq<nat>)
    requires Known(s, d, w) && w < |s.workers| && s.disps[d].pc == DMark(w, idle)
    ensures StepHands(s, DoMark(s, d, w, idle), d, w)
  {
    var y := s.workers[w];
    assert LinkOf(s.disps[d].pc, w) == Marking && LinkOf(DWake(w, idle), w) == Waking;
    assert WorkerOk(s.variant, s.batch, y, Marking);
    BatchHands(s.variant, s.batch, y);
    SameHands(s, d, w, idle, DWake(w, idle), y.(runnable := true));
  }

  lemma {:induction false} WakeHands(s: State, d: nat, w: nat, idle: seq<nat>)
    requires Known(s, d, w) && w < |s.workers| && s.disps[d].pc == DWake(w, idle)
    ensures StepHands(s, DoWake(s, d, w, idle), d, w)
  {
    var y := s.workers[w];
    assert LinkOf(s.disps[d].pc, w) == Waking && LinkOf(DNext(idle), w) == Apart by {
      SameHandMay(s, d, w, idle, DNext(idle));
    }
    assert WorkerOk(s.variant, s.batch, y, Waking);
    BatchHands(s.variant, s.batch, y);
    SameHands(s, d, w, idle, DNext(idle), Wake(y));
  }

  lemma {:induction false} DispHands(s: State, d: nat, avail: bool, recent: bool)
    requires Structure(s) && DispEnabled(s, d)
    requires var pc := s.disps[d].pc; !Taking(pc) && pc != DNext([]) && (pc.DScan? ==> pc.w < |s.workers|)
    ensures InHandOf(s.disps[d].pc) < |s.workers|
    ensures StepHands(s, DoDisp(s, d, avail, recent), d, InHandOf(s.disps[d].pc))
  {
    DispIs(s, d, avail, recent);
    match s.disps[d].pc
    case DScan(w, idle) =>
      DispKnown(s, d);
      KnownHolds(s, d, w);
      ScanHands(s, d, w, idle);
    case DNext(idle) =>
      NextKnown(s, d, idle);
      NextHands(s, d, idle[0], idle, recent);
    case DPush(w, idle) => InHand(s, d, w, idle); PushStepHands(s, d, w, idle, avail);
    case DPublish(w, idle) => InHand(s, d, w, idle); PublishHands(s, d, w, idle);
    case DCheckIdle(w, idle) => InHand(s, d, w, idle); CheckHands(s, d, w, idle);
    case DMark(w, idle) => InHand(s, d, w, idle); MarkHands(s, d, w, idle);
    case DWake(w, idle) => InHand(s, d, w, idle); WakeHands(s, d, w, idle);
  }

  /** The line of the worker in hand, or (g the requests of another worker) that of any other. */
  lemma {:induction false} HandsMove(
      v: Variant, q: seq<nat>, g: seq<nat>, n: nat, q': seq<nat>, g': seq<nat>, m: nat, other: seq<nat>)
    requires Hands(v, q, g, n, q', g', m) && (v != Cfs ==> q == [])
    ensures LineMoves(g + q, n, g' + q', m) && LineMoves(other + q, n, other + q', m) && n <= m
  {
    if v == Cfs && q != [] && q' == q[1..] && g' == g + [q[0]] {
      assert g' + q' == g + q;
      assert other + q' == Without(other + q, |other|);
    }
  }

  lemma {:induction false} QueueMoves(s: State, s': State, d: nat, w: nat, e: nat)
    requires e < |s.disps| && Effect(s, s', d, w) && StepHands(s, s', d, w)
    requires s.variant != Cfs ==> Queued(s, d) == []
    ensures LineMoves(Queued(s, e), s.polled, Queued(s', e), s'.polled)
  {
    HandsMove(s.variant, Queued(s, d), Given(s, w), s.polled, Queued(s', d), Given(s', w), s'.polled, []);
    if e == d {
      assert [] + Queued(s, d) == Queued(s, d) && [] + Queued(s', d) == Queued(s', d);
    } else {
      assert s'.disps[e] == s.disps[e];
    }
  }

  lemma {:induction false} LineOfMoves(s: State, s': State, d: nat, w: nat, v: nat)
    requires Effect(s, s', d, w) && StepHands(s, s', d, w) && v < |s.workers|
    requires s.variant != Cfs ==> Queued(s, d) == []
    ensures LineMoves(Line(s, v), s.polled, Line(s', v), s'.polled)
  {
    HandsMove(
      s.variant, Queued(s, d), Given(s, w), s.polled, Queued(s', d), Given(s', w), s'.polled, Given(s, v));
    if v != w { OtherLineMoves(s, s', d, w, v); }
  }

  lemma {:induction false} OtherLineMoves(s: State, s': State, d: nat, w: nat, v: nat)
    requires Effect(s, s', d, w) && v < |s.workers| && v != w
    requires s.polled <= s'.polled
    requires LineMoves(Given(s, v) + Queued(s, d), s.polled, Given(s, v) + Queued(s', d), s'.polled)
    ensures LineMoves(Line(s, v), s.polled, Line(s', v), s'.polled)
  {
    assert DispMoves(s, s', d, w);
    OtherGiven(s, s', d, w, v);
    if Boss(s, v) != d { assert Queued(s', Boss(s, v)) == Queued(s, Boss(s, v)); }
  }

  lemma {:induction false} EffectOrder(s: State, s': State, d: nat, w: nat)
    requires InOrder(s) && Effect(s, s', d, w) && StepHands(s, s', d, w)
    requires s.variant != Cfs ==> s'.disps[d].num == 0 && s'.disps[d].queue == []
    ensures InOrder(s')
  {
    forall e | 0 <= e < |s.disps| ensures LineMoves(Queued(s, e), s.polled, Queued(s', e), s'.polled) {
      QueueMoves(s, s', d, w, e);
    }
    forall v | 0 <= v < |s.workers| ensures LineMoves(Line(s, v), s.polled, Line(s', v), s'.polled) {
      LineOfMoves(s, s', d, w, v);
    }
    LinesKeepOrder(s, s');
  }

  lemma {:induction false} NoTake(v: Variant, d: nat, x: Disp)
    requires v != Cfs && x.num == 0 && x.queue == [] && Taking(x.pc) && x.pc != DTake
    ensures Take(v, d, x).num == 0 && Take(v, d, x).queue == []
  {
  }

  lemma {:induction false} NoPush(
      v: Variant, batch: nat, x: Disp, w: nat, idle: seq<nat>, y: Worker, r: nat, avail: bool)
    requires v != Cfs && x.num == 0 && x.queue == []
    ensures var x' := Push(v, batch, x, w, idle, y, r, avail).0;
      x'.num == 0 && x'.queue == []
  {
  }

  /** A dispatcher that polls for itself keeps its queue and its slot empty. */
  lemma {:induction false} NoQueue(s: State, d: nat, avail: bool, recent: bool)
    requires DispEnabled(s, d) && s.variant != Cfs && NothingQueued(s)
    requires s.disps[d].pc != DTake
    ensures var s' := DoDisp(s, d, avail, recent);
      |s'.disps| == |s.disps| && s'.disps[d].num == 0 && s'.disps[d].queue == []
  {
    var x := s.disps[d];
    if Taking(x.pc) {
      NoTake(s.variant, d, x);
    } else if x.pc.DPush? && x.pc.w < |s.workers| {
      NoPush(s.variant, s.batch, x, x.pc.w, x.pc.idle, s.workers[x.pc.w], s.polled, avail);
    }
  }

  lemma {:induction false} TakeOrder(s: State, d: nat)
    requires InOrder(s) && Known(s, d, d) && Taking(s.disps[d].pc)
    ensures InOrder(SetDisp(s, d, Take(s.variant, d, s.disps[d])))
  {
    var x := s.disps[d];
    TakeAlone(s, d);
    TakeLine(s.variant, d, x, s.gen, |s.disps|, |s.workers|);
    if s.variant != Cfs { NoTake(s.variant, d, x); }
    DispAloneOrder(s, d, Take(s.variant, d, x), SetDisp(s, d, Take(s.variant, d, x)));
  }

  lemma {:induction false} EndOrder(s: State, d: nat, x: Disp)
    requires InOrder(s) && Known(s, d, d) && x == s.disps[d].(pc := x.pc)
    requires var pc := s.disps[d].pc; (pc == DNext([]) && x.pc == DLoop) || (pc.DScan? && x.pc == DNext(pc.idle))
    ensures InOrder(SetDisp(s, d, x))
  {
    if x.pc == DLoop { StopAlone(s, d); } else { EndScanAlone(s, d, s.disps[d].pc.w, s.disps[d].pc.idle); }
    DispAloneOrder(s, d, x, SetDisp(s, d, x));
  }

  lemma {:induction false} AloneOrder(s: State, d: nat, s': State)
    requires Inv(s) && InOrder(s) && DispEnabled(s, d) && s' == DoDisp(s, d, false, false)
    requires var pc := s.disps[d].pc; Taking(pc) || pc == DNext([]) || (pc.DScan? && pc.w >= |s.workers|)
    ensures InOrder(s')
  {
    var x := s.disps[d];
    KnownHolds(s, d, d);
    if Taking(x.pc) {
      TakeOrder(s, d);
      assert s' == SetDisp(s, d, Take(s.variant, d, x)) by { DispIs(s, d, false, false); }
    } else {
      var x' := x.(pc := if x.pc.DNext? then DLoop else DNext(x.pc.idle));
      EndOrder(s, d, x');
      assert s' == SetDisp(s, d, x') by { DispIs(s, d, false, false); }
    }
  }

  lemma {:induction false} DispOrder(s: State, d: nat, avail: bool, recent: bool, s': State)
    requires Inv(s) && InOrder(s) && DispEnabled(s, d) && s' == DoDisp(s, d, avail, recent)
    ensures InOrder(s')
  {
    var pc := s.disps[d].pc;
    if Taking(pc) || pc == DNext([]) || (pc.DScan? && pc.w >= |s.workers|) {
      assert s' == DoDisp(s, d, false, false);
      AloneOrder(s, d, s');
    } else {
      DispEffect(s, d, avail, recent);
      DispHands(s, d, avail, recent);
      if s.variant != Cfs { NoQueue(s, d, avail, recent); }
      EffectOrder(s, s', d, InHandOf(pc));
    }
  }

  //---------------------------------------------------------------------------
  // Runs
  //---------------------------------------------------------------------------

  lemma {:induction false} StepKeepsOrder(s: State, a: Action, s': State)
    requires Inv(s) && InOrder(s) && Enabled(s, a) && s' == Next(s, a)
    ensures InOrder(s')
  {
    if a.GenStep? {
      GenOrder(s, a.avail);
    } else if a.DispStep? {
      DispOrder(s, a.d, a.avail, a.recent, s');
    } else if a.WorkerStep? {
      WorkerOrder(s, a.w);
    } else if a.ExitGen? || a.ExitDisp? {
      SameLines(s, s');
    } else {
      OtherOrder(s, a, s');
    }
  }

  lemma {:induction false} SameLines(s: State, s': State)
    requires InOrder(s) && |s'.disps| == |s.disps| && s'.workers == s.workers
    requires s'.variant == s.variant && s'.gen == s.gen && s'.polled == s.polled
    requires forall d :: 0 <= d < |s.disps| ==> s'.disps[d] == s.disps[d].(exit := s'.disps[d].exit)
    ensures InOrder(s')
  {
    SameBags(s, s');
    forall d | 0 <= d < |s.disps| ensures Queued(s', d) == Queued(s, d) { }
    forall w | 0 <= w < |s.workers| ensures Line(s', w) == Line(s, w) { }
    LinesKeepOrder(s, s');
  }

  lemma {:induction false} InitOrder(s: State)
    requires Init(s)
    ensures InOrder(s)
  {
    forall d | 0 <= d < |s.disps| ensures Queued(s, d) == [] {
      assert s.disps[d] == Disp(0, [], [], DStart, false);
    }
    forall w | 0 <= w < |s.workers| ensures Line(s, w) == [] {
      assert s.disps[Boss(s, w)].pc == DStart;
    }
  }

  lemma {:induction false} RunKeepsOrder(states: seq<State>, actions: seq<Action>, i: nat)
    requires Run(states, actions) && i < |states|
    ensures InOrder(states[i])
  {
    if i == 0 {
      InitOrder(states[0]);
    } else {
      RunKeepsOrder(states, actions, i - 1);
      RunKeepsInv(states, actions, i - 1);
      assert Steps(states[i - 1], actions[i - 1], states[i]);
      StepKeepsOrder(states[i - 1], actions[i - 1], states[i]);
    }
  }

  lemma {:induction false} AscendingParts(a: seq<nat>, b: seq<nat>)
    requires Ascending(a + b)
    ensures Ascending(a) && Ascending(b)
    ensures forall p, q :: p in a && q in b ==> p < q
  {
    forall i, j | 0 <= i < j < |a| ensures a[i] < a[j] { assert (a + b)[i] < (a + b)[j]; }
    forall i, j | 0 <= i < j < |b| ensures b[i] < b[j] { assert (a + b)[|a| + i] < (a + b)[|a| + j]; }
    forall i, j | 0 <= i < |a| && 0 <= j < |b| ensures a[i] < b[j] { assert (a + b)[i] < (a + b)[|a| + j]; }
  }

  /**
   First come, first served.  In every run a worker's completed list and the rest of its batch are in
   the order of polling, so are its dispatcher's queue and slot, and all that is still queued there was
   polled after all that the worker has been given.
   */
  lemma {:induction false} ServedInOrder(states: seq<State>, actions: seq<Action>, i: nat, w: nat)
    requires Run(states, actions) && i < |states| && w < |states[i].workers|
    ensures var s := states[i];
      && s.disps != []
      && var x, y := s.disps[Boss(s, w)], s.workers[w];
      var given := y.completed + Live(s.variant, y, LinkTo(s, w));
      var queued := x.queue + Fresh(x, FillsSlot(s.gen, Boss(s, w)));
      && Ascending(given) && Ascending(queued)
      && forall p, q :: p in given && q in queued ==> p < q
  {
    RunKeepsOrder(states, actions, i);
    var s := states[i];
    assert Rising(Line(s, w), s.polled);
    AscendingParts(Given(s, w), Queued(s, Boss(s, w)));
  }
}
