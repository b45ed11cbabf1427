/** What every run of the hand-off guarantees, in all three variants. */
module HandOffRuns {
  import opened HandOff
  import opened HandOffInvariant

  ghost predicate Steps(s: State, a: Action, s': State) { Enabled(s, a) && s' == Next(s, a) }

  /** A run of any variant. */
  ghost predicate RunOfAny(states: seq<State>, actions: seq<Action>) {
    && |states| == |actions| + 1 && Start(states[0])
    && forall i :: 0 <= i < |actions| ==> Steps(states[i], actions[i], states[i + 1])
  }

  /** A run of what the code does. */
  ghost predicate Run(states: seq<State>, actions: seq<Action>) {
    |states| > 0 && IsCode(states[0].variant) && RunOfAny(states, actions)
  }

  lemma {:induction false} RunKeepsInv(states: seq<State>, actions: seq<Action>, i: nat)
    requires Run(states, actions) && i < |states|
    ensures Inv(states[i])
  {
    if i == 0 {
      InitHolds(states[0]);
    } else {
      RunKeepsInv(states, actions, i - 1);
      assert Steps(states[i - 1], actions[i - 1], states[i]);
      StepKeeps(states[i - 1], actions[i - 1]);
    }
  }

  /** No CHECK fails: a woken worker of CfsOrchestrator has requests, counts match, and nobody is assigned twice. */
  lemma {:induction false} ChecksNeverFail(states: seq<State>, actions: seq<Action>, i: nat)
    requires Run(states, actions) && i < |states|
    ensures !states[i].failed
  {
    RunKeepsInv(states, actions, i);
  }

  //---------------------------------------------------------------------------
  // Exactly once
  //---------------------------------------------------------------------------

  datatype Place = InSlot(i: nat) | InQueue(i: nat) | InBatch(i: nat) | Completed(i: nat)

  predicate IsPlace(s: State, p: Place) {
    p.i < if p.InSlot? || p.InQueue? then |s.disps| else |s.workers|
  }

  /** The requests at a place; stale copies in a slot or batch that was handed on do not count. */
  function At(s: State, p: Place): multiset<nat>
    requires s.disps != [] && IsPlace(s, p)
  {
    match p
    case InSlot(d) => SlotBag(s.disps[d], FillsSlot(s.gen, d))
    case InQueue(d) => multiset(s.disps[d].queue)
    case InBatch(w) => BatchBag(s.variant, s.workers[w], LinkTo(s, w))
    case Completed(w) => multiset(s.workers[w].completed)
  }

  lemma {:induction false} SumHas(bags: seq<multiset<nat>>, r: nat)
    ensures forall i :: 0 <= i < |bags| ==> bags[i][r] <= Sum(bags)[r]
    ensures forall i, j :: 0 <= i < j < |bags| ==> bags[i][r] + bags[j][r] <= Sum(bags)[r]
    ensures Sum(bags)[r] > 0 ==> exists i :: 0 <= i < |bags| && bags[i][r] > 0
  {
    if bags != [] {
      var rest := bags[1..];
      SumHas(rest, r);
      assert forall i :: 0 < i < |bags| ==> bags[i] == rest[i - 1];
      if bags[0][r] == 0 && Sum(bags)[r] > 0 {
        var i :| 0 <= i < |rest| && rest[i][r] > 0;
        assert bags[i + 1][r] > 0;
      }
    }
  }

  lemma {:induction false} UpToHas(n: nat, r: nat)
    ensures UpTo(n)[r] == if r < n then 1 else 0
  {
    if n > 0 { UpToHas(n - 1, r); }
  }

  ghost predicate OnlyAt(s: State, r: nat, p: Place)
    requires s.disps != []
  {
    && IsPlace(s, p) && At(s, p)[r] == 1
    && forall q :: IsPlace(s, q) && q != p ==> At(s, q)[r] == 0
  }

  /** The total count of r over the two places of dispatcher d, and over those of worker w. */
  lemma {:induction false} Counts(s: State, r: nat)
    requires s.disps != [] && Conserved(s)
    ensures Sum(DispBags(s))[r] + Sum(WorkerBags(s))[r] == if r < s.polled then 1 else 0
  {
    UpToHas(s.polled, r);
    assert (Sum(DispBags(s)) + Sum(WorkerBags(s)))[r] == UpTo(s.polled)[r];
  }

  lemma {:induction false} DispPlaces(s: State, r: nat, d: nat)
    requires d < |s.disps|
    ensures At(s, InSlot(d))[r] + At(s, InQueue(d))[r] == DispBags(s)[d][r]
  {
    assert DispBags(s)[d] == At(s, InSlot(d)) + At(s, InQueue(d));
  }

  lemma {:induction false} WorkerPlaces(s: State, r: nat, w: nat)
    requires s.disps != [] && w < |s.workers|
    ensures At(s, InBatch(w))[r] + At(s, Completed(w))[r] == WorkerBags(s)[w][r]
  {
    assert WorkerBags(s)[w] == At(s, InBatch(w)) + At(s, Completed(w));
  }

  /** Count of r over both places of the dispatcher or worker that p belongs to. */
  function GroupCount(s: State, r: nat, p: Place): nat
    requires s.disps != [] && IsPlace(s, p)
  {
    if p.InSlot? || p.InQueue? then DispBags(s)[p.i][r] else WorkerBags(s)[p.i][r]
  }

  lemma {:induction false} PlaceInGroup(s: State, r: nat, p: Place)
    requires s.disps != [] && IsPlace(s, p)
    ensures At(s, p)[r] <= GroupCount(s, r, p)
  {
    if p.InSlot? || p.InQueue? { DispPlaces(s, r, p.i); } else { WorkerPlaces(s, r, p.i); }
  }

  predicate AtDisp(p: Place) { p.InSlot? || p.InQueue? }

  /** Two places have no more of r than there is in all. */
  lemma {:induction false} PairCount(s: State, r: nat, p: Place, q: Place)
    requires s.disps != [] && IsPlace(s, p) && IsPlace(s, q) && p != q
    ensures At(s, p)[r] + At(s, q)[r] <= Sum(DispBags(s))[r] + Sum(WorkerBags(s))[r]
  {
    if AtDisp(p) == AtDisp(q) && p.i == q.i {
      SumHas(DispBags(s), r);
      SumHas(WorkerBags(s), r);
      if AtDisp(p) { DispPlaces(s, r, p.i); } else { WorkerPlaces(s, r, p.i); }
    } else {
      SumHas(DispBags(s), r);
      SumHas(WorkerBags(s), r);
      PlaceInGroup(s, r, p);
      PlaceInGroup(s, r, q);
    }
  }

  lemma {:induction false} TwoPlaces(s: State, r: nat, p: Place, q: Place)
    requires s.disps != [] && Conserved(s) && IsPlace(s, p) && IsPlace(s, q) && p != q && At(s, p)[r] > 0
    ensures r < s.polled && At(s, p)[r] == 1 && At(s, q)[r] == 0
  {
    Counts(s, r);
    PairCount(s, r, p, q);
  }

  lemma {:induction false} SomePlace(s: State, r: nat) returns (p: Place)
    requires s.disps != [] && Conserved(s) && r < s.polled
    ensures IsPlace(s, p) && At(s, p)[r] > 0
  {
    Counts(s, r);
    SumHas(DispBags(s), r);
    SumHas(WorkerBags(s), r);
    if Sum(DispBags(s))[r] > 0 {
      var d :| 0 <= d < |DispBags(s)| && DispBags(s)[d][r] > 0;
      DispPlaces(s, r, d);
      p := if At(s, InSlot(d))[r] > 0 then InSlot(d) else InQueue(d);
    } else {
      var w :| 0 <= w < |WorkerBags(s)| && WorkerBags(s)[w][r] > 0;
      WorkerPlaces(s, r, w);
      p := if At(s, InBatch(w))[r] > 0 then InBatch(w) else Completed(w);
    }
  }

  /**
   Every request polled so far is in exactly one place, once: a hand-off slot, a dispatcher queue, a
   worker's batch or a completed list; and nothing else is anywhere.
   */
  lemma {:induction false} ExactlyOnce(states: seq<State>, actions: seq<Action>, i: nat, r: nat)
    requires Run(states, actions) && i < |states|
    ensures var s := states[i];
      && s.disps != []
      && (r < s.polled ==> exists p :: OnlyAt(s, r, p))
      && (r >= s.polled ==> forall p :: IsPlace(s, p) ==> At(s, p)[r] == 0)
  {
    RunKeepsInv(states, actions, i);
    var s := states[i];
    if r < s.polled {
      var p := SomePlace(s, r);
      forall q | IsPlace(s, q) && q != p ensures At(s, q)[r] == 0 && At(s, p)[r] == 1 { TwoPlaces(s, r, p, q); }
      assert At(s, p)[r] == 1 by {
        TwoPlaces(s, r, p, if p == InSlot(0) then InQueue(0) else InSlot(0));
      }
      assert OnlyAt(s, r, p);
    } else {
      forall p | IsPlace(s, p) ensures At(s, p)[r] == 0 {
        Counts(s, r);
        SumHas(DispBags(s), r);
        SumHas(WorkerBags(s), r);
        PlaceInGroup(s, r, p);
      }
    }
  }

  //---------------------------------------------------------------------------
  // No lost wake-up
  //---------------------------------------------------------------------------

  /** The dispatcher of w has published requests for it and is about to mark it runnable. */
  predicate AboutToMark(s: State, w: nat)
    requires s.disps != []
  {
    var pc := s.disps[Boss(s, w)].pc;
    (pc.DCheckIdle? || pc.DMark?) && pc.w == w
  }

  predicate AboutToWake(s: State, w: nat)
    requires s.disps != []
  {
    var pc := s.disps[Boss(s, w)].pc;
    pc.DWake? && pc.w == w
  }

  /**
   A worker that has requests and waits is marked runnable or about to be; one that sleeps although
   it is marked is about to be woken, or the process is terminating.
   */
  lemma {:induction false} NoLostWakeup(states: seq<State>, actions: seq<Action>, i: nat, w: nat)
    requires Run(states, actions) && i < |states| && w < |states[i].workers|
    ensures var s, x := states[i], states[i].workers[w];
      && s.disps != []
      && (x.num > 0 && Waiting(x.pc) ==> x.runnable || AboutToMark(s, w))
      && (x.pc.WAsleep? && x.runnable ==> AboutToWake(s, w) || x.exit)
  {
    RunKeepsInv(states, actions, i);
    WorkerIsOk(states[i], w);
  }

  lemma {:induction false} WorkerIsOk(s: State, w: nat)
    requires Structure(s) && w < |s.workers|
    ensures s.disps != [] && WorkerOk(s.variant, s.batch, s.workers[w], LinkTo(s, w))
  {
  }

  /** A waiting worker that is marked runnable has requests, unless the process terminates. */
  lemma {:induction false} NoIdleWakeup(states: seq<State>, actions: seq<Action>, i: nat, w: nat)
    requires Run(states, actions) && i < |states| && w < |states[i].workers|
    ensures var x := states[i].workers[w];
      && (Waiting(x.pc) && x.runnable ==> x.num > 0 || x.exit)
      && (x.pc == WLoad ==> x.num > 0 || (x.exit && states[i].variant != Cfs))
      && (x.num > 0 ==> x.num == |x.batch| <= states[i].batch)
  {
    RunKeepsInv(states, actions, i);
    WorkerIsOk(states[i], w);
  }
}
