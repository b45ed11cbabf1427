/**
 Why SkipIdleWorker must ask the PrioTable whether a worker is idle: a run of the PrioTable variant
 without that question in which a worker waits, unmarked, with a request in hand and nobody about to
 mark it; and that no other variant has such a run.
 */
module HandOffUnchecked {
  import opened HandOff
  import opened HandOffInvariant
  import opened HandOffRuns

  const UNCHECKED := GhostPrioTable(false)

  /** One assigner, one worker, batches of one. */
  function St(polled: nat, pc: DispPc, y: Worker): State {
    State(UNCHECKED, 1, polled, LgExited, false, [Disp(0, [], [], pc, false)], [y], false)
  }

  /** The last state of some run. */
  ghost predicate Arrives(s: State) {
    exists states, actions :: RunOfAny(states, actions) && states[|states| - 1] == s
  }

  lemma {:induction false} ArriveNext(s: State, a: Action)
    requires Arrives(s) && Enabled(s, a)
    ensures Arrives(Next(s, a))
  {
    var states, actions :| RunOfAny(states, actions) && states[|states| - 1] == s;
    var states', actions' := states + [Next(s, a)], actions + [a];
    forall i | 0 <= i < |actions'| ensures Steps(states'[i], actions'[i], states'[i + 1]) {
      if i < |actions| { assert Steps(states[i], actions[i], states[i + 1]); }
    }
    assert RunOfAny(states', actions') && states'[|states'| - 1] == Next(s, a);
  }

  /** The assigner takes a step that finds a request whenever it looks for one. */
  lemma {:induction false} Assigner(p: nat, pc: DispPc, y: Worker, p': nat, pc': DispPc, y': Worker)
    requires Arrives(St(p, pc, y)) && pc != DStart && pc != DExited
    requires DoDisp(St(p, pc, y), 0, true, false) == St(p', pc', y')
    ensures Arrives(St(p', pc', y'))
  {
    ArriveNext(St(p, pc, y), DispStep(0, true, false));
  }

  lemma {:induction false} WorkerGoes(p: nat, pc: DispPc, y: Worker, y': Worker)
    requires Arrives(St(p, pc, y)) && !y.pc.WAsleep? && y.pc != WExited && (y.pc == WStart ==> y.runnable)
    requires StepWorker(UNCHECKED, 1, y) == (y', true)
    ensures Arrives(St(p, pc, y'))
  {
    ArriveNext(St(p, pc, y), WorkerStep(0));
  }

  lemma {:induction false} ChoosesIt(p: nat, y: Worker)
    requires Arrives(St(p, DLoop, y)) && y.num == 0
    ensures Arrives(St(p, DPush(0, []), y.(batch := [])))
  {
    Assigner(p, DLoop, y, p, DScan(0, []), y);
    Assigner(p, DScan(0, []), y, p, DScan(1, [] + [0]), y);
    assert [] + [0] == [0];
    Assigner(p, DScan(1, [0]), y, p, DNext([0]), y);
    assert [0][1..] == [];
    Assigner(p, DNext([0]), y, p, DPush(0, []), y.(batch := []));
  }

  lemma {:induction false} FillsIt(p: nat, y: Worker)
    requires Arrives(St(p, DPush(0, []), y.(batch := []))) && y.num == 0
    ensures Arrives(St(p + 1, DPublish(0, []), y.(batch := [p])))
  {
    var y1 := y.(batch := [p]);
    assert [] + [p] == [p];
    Assigner(p, DPush(0, []), y.(batch := []), p + 1, DPush(0, []), y1);
    Assigner(p + 1, DPush(0, []), y1, p + 1, DPublish(0, []), y1);
  }

  lemma {:induction false} PublishesIt(p: nat, y: Worker)
    requires Arrives(St(p, DPublish(0, []), y)) && |y.batch| == 1
    ensures Arrives(St(p, DMark(0, []), y.(num := 1)))
  {
    Assigner(p, DPublish(0, []), y, p, DCheckIdle(0, []), y.(num := 1));
    Assigner(p, DCheckIdle(0, []), y.(num := 1), p, DMark(0, []), y.(num := 1));
  }

  lemma {:induction false} MarksIt(p: nat, y: Worker)
    requires Arrives(St(p, DMark(0, []), y)) && !y.pc.WAsleep?
    ensures Arrives(St(p, DNext([]), y.(runnable := true)))
  {
    Assigner(p, DMark(0, []), y, p, DWake(0, []), y.(runnable := true));
    Assigner(p, DWake(0, []), y.(runnable := true), p, DNext([]), y.(runnable := true));
  }

  /** A round that serves a worker with nothing to do, marked or not. */
  lemma {:induction false} ServesIt(p: nat, y: Worker)
    requires Arrives(St(p, DLoop, y)) && y.num == 0 && !y.pc.WAsleep?
    ensures Arrives(St(p + 1, DNext([]), y.(batch := [p], num := 1, runnable := true)))
  {
    ChoosesIt(p, y);
    FillsIt(p, y);
    PublishesIt(p + 1, y.(batch := [p]));
    MarksIt(p + 1, y.(batch := [p], num := 1));
  }

  /** The worker handles its first request, and stores 0 before it marks itself idle. */
  lemma {:induction false} WorksUntilIdle(p: nat, y: Worker)
    requires Arrives(St(p, DNext([]), y)) && y == Worker(1, [0], true, [], WStart, false)
    ensures Arrives(St(p, DNext([]), Worker(0, [0], true, [0], WIdle, false)))
  {
    var done := y.(completed := [0]);
    assert [] + [0] == [0];
    WorkerGoes(p, DNext([]), y, y.(pc := WLoad));
    WorkerGoes(p, DNext([]), y.(pc := WLoad), y.(pc := WHandle(0)));
    WorkerGoes(p, DNext([]), y.(pc := WHandle(0)), done.(pc := WHandle(1)));
    WorkerGoes(p, DNext([]), done.(pc := WHandle(1)), done.(pc := WZero));
    WorkerGoes(p, DNext([]), done.(pc := WZero), done.(num := 0, pc := WIdle));
  }

  /** The worker waits with requests in hand, unmarked, and its dispatcher is not about to mark it. */
  predicate Lost(s: State, w: nat)
    requires s.disps != [] && w < |s.workers|
  {
    var x := s.workers[w];
    x.num > 0 && Waiting(x.pc) && !x.runnable && !x.exit && !AboutToMark(s, w)
  }

  /** Some run of the variant loses a worker. */
  ghost predicate Loses(v: Variant) {
    exists states: seq<State>, actions, i: nat, w: nat ::
      RunOfAny(states, actions) && states[0].variant == v && LosesAt(states, i, w)
  }

  predicate LosesAt(states: seq<State>, i: nat, w: nat) {
    i < |states| && states[i].disps != [] && w < |states[i].workers| && Lost(states[i], w)
  }

  const FRESH := Worker(0, [], false, [], WStart, false)

  lemma {:induction false} Begins()
    ensures Arrives(St(0, DLoop, FRESH))
  {
    var s0 := St(0, DStart, FRESH);
    assert RunOfAny([s0], []) && [s0][|[s0]| - 1] == s0;
    ArriveNext(s0, DispStep(0, true, false));
    assert DoDisp(s0, 0, true, false) == St(0, DLoop, FRESH);
  }

  /** The worker after its first batch, served again before it has marked itself idle. */
  lemma {:induction false} ServedTooEarly()
    ensures Arrives(St(2, DNext([]), Worker(1, [1], true, [0], WIdle, false)))
  {
    Begins();
    ServesIt(0, FRESH);
    var y := Worker(0, [0], true, [0], WIdle, false);
    WorksUntilIdle(1, Worker(1, [0], true, [], WStart, false));
    Assigner(1, DNext([]), y, 1, DLoop, y);
    ServesIt(1, y);
  }

  const LOST := St(2, DNext([]), Worker(1, [1], false, [0], WWait(false), false))

  /** A reachable state in which a worker is lost. */
  lemma {:induction false} LostWorker()
    ensures Arrives(LOST) && Lost(LOST, 0)
  {
    ServedTooEarly();
    var y := Worker(1, [1], true, [0], WIdle, false);
    WorkerGoes(2, DNext([]), y, y.(runnable := false, pc := WWait(false)));
    assert Boss(LOST, 0) == 0;
  }

  lemma {:induction false} VariantIsFixed(states: seq<State>, actions: seq<Action>, i: nat)
    requires RunOfAny(states, actions) && i < |states|
    ensures states[i].variant == states[0].variant
  {
    if i > 0 {
      VariantIsFixed(states, actions, i - 1);
      assert Steps(states[i - 1], actions[i - 1], states[i]);
      NextKeepsVariant(states[i - 1], actions[i - 1]);
    }
  }

  lemma {:induction false} NextKeepsVariant(s: State, a: Action)
    requires Enabled(s, a)
    ensures Next(s, a).variant == s.variant
  {
  }

  /** A worker can be lost exactly in the PrioTable variant that does not ask for IsIdle. */
  lemma {:induction false} IdleCheckDecides(v: Variant)
    ensures Loses(v) <==> v == GhostPrioTable(false)
  {
    if v == UNCHECKED {
      LostWorker();
      var states, actions :| RunOfAny(states, actions) && states[|states| - 1] == LOST;
      VariantIsFixed(states, actions, |states| - 1);
      assert LosesAt(states, |states| - 1, 0);
    } else {
      forall states: seq<State>, actions, i: nat, w: nat | RunOfAny(states, actions) && states[0].variant == v
        ensures !LosesAt(states, i, w)
      {
        if i < |states| && w < |states[i].workers| { NoLostWakeup(states, actions, i, w); }
      }
    }
  }
}
