/** One notification with any number of waiters and one notifier. */
module NotificationOnce {
  import opened Notifications

  datatype State = State(word: Word, waiters: seq<Wait>, notifier: Notify, failed: bool)

  datatype Action =
    | WaiterStep(w: nat, fluke: bool)
    | SpuriousWake(w: nat, interrupted: bool)
    | NotifierStep(fluke: bool)

  predicate Enabled(s: State, a: Action) {
    match a
    case WaiterStep(w, _) => w < |s.waiters| && s.waiters[w] != Asleep && s.waiters[w] != Returned
    case SpuriousWake(w, _) => w < |s.waiters| && s.waiters[w] == Asleep
    case NotifierStep(_) => s.notifier != NotifyDone
  }

  function WakeAll(waiters: seq<Wait>): seq<Wait> {
    seq(|waiters|, i requires 0 <= i < |waiters| => if waiters[i] == Asleep then Woken else waiters[i])
  }

  function Next(s: State, a: Action): State
    requires Enabled(s, a)
  {
    match a
    case WaiterStep(w, fluke) =>
      var (word, pc) := WaitStep(s.word, s.waiters[w], fluke);
      s.(word := word, waiters := s.waiters[w := pc])
    case SpuriousWake(w, interrupted) => s.(waiters := s.waiters[w := if interrupted then FutexCall else Woken])
    case NotifierStep(fluke) =>
      var (word, pc) := NotifyStep(s.word, s.notifier, fluke);
      s.(word := word, notifier := pc, failed := s.failed || CheckFails(s.word, s.notifier),
         waiters := if s.notifier == NotifyWake then WakeAll(s.waiters) else s.waiters)
  }

  predicate Init(s: State) {
    && s.word == NoWaiter && s.notifier == NotifyLoad && !s.failed
    && forall w :: 0 <= w < |s.waiters| ==> s.waiters[w] == WaitLoad
  }

  predicate WaiterOk(s: State, pc: Wait) {
    && (Committed(pc) ==> s.word != NoWaiter)
    && (pc == Asleep ==> s.word == Waiter || s.notifier == NotifyWake)
    && (pc == Returned ==> s.word == Notified)
  }

  ghost predicate Inv(s: State) {
    && !s.failed
    && (s.word == Notified <==> s.notifier == NotifyWake || s.notifier == NotifyDone)
    && (s.notifier.NotifyCheck? || s.notifier.NotifyCas? ==> s.notifier.v != Notified)
    && forall w :: 0 <= w < |s.waiters| ==> WaiterOk(s, s.waiters[w])
  }

  lemma {:induction false} StepKeeps(s: State, a: Action)
    requires Inv(s) && Enabled(s, a)
    ensures Inv(Next(s, a))
  {
    var s' := Next(s, a);
    forall w | 0 <= w < |s'.waiters| ensures WaiterOk(s', s'.waiters[w]) {
      assert WaiterOk(s, s.waiters[w]);
    }
  }

  ghost predicate Steps(s: State, a: Action, s': State) { Enabled(s, a) && s' == Next(s, a) }

  ghost predicate Run(states: seq<State>, actions: seq<Action>) {
    && |states| == |actions| + 1 && Init(states[0])
    && forall i :: 0 <= i < |actions| ==> Steps(states[i], actions[i], states[i + 1])
  }

  lemma {:induction false} RunKeepsInv(states: seq<State>, actions: seq<Action>, i: nat)
    requires Run(states, actions) && i < |states|
    ensures Inv(states[i])
  {
    if i > 0 {
      RunKeepsInv(states, actions, i - 1);
      assert Steps(states[i - 1], actions[i - 1], states[i]);
      StepKeeps(states[i - 1], actions[i - 1]);
    }
  }

  /** No waiter returns before the notification, and once Notify has returned none is asleep. */
  lemma {:induction false} NobodyEarlyNobodyAsleep(states: seq<State>, actions: seq<Action>, i: nat, w: nat)
    requires Run(states, actions) && i < |states| && w < |states[i].waiters|
    ensures !states[i].failed
    ensures states[i].waiters[w] == Returned ==> states[i].word == Notified
    ensures states[i].notifier == NotifyDone ==> states[i].word == Notified && states[i].waiters[w] != Asleep
  {
    RunKeepsInv(states, actions, i);
    assert WaiterOk(states[i], states[i].waiters[w]);
  }

  /** How many steps of its own a waiter still needs after Notify, apart from flukes. */
  function StepsLeft(pc: Wait): nat {
    match pc
    case Returned => 0
    case WaitCas => 2
    case _ => 1
  }

  /** After Notify has returned every waiter returns: it can always step, and each step brings it closer. */
  lemma {:induction false} EveryWaiterReturns(states: seq<State>, actions: seq<Action>, i: nat, w: nat)
    requires Run(states, actions) && i < |states| && w < |states[i].waiters|
    requires states[i].notifier == NotifyDone && states[i].waiters[w] != Returned
    ensures Enabled(states[i], WaiterStep(w, false))
    ensures StepsLeft(Next(states[i], WaiterStep(w, false)).waiters[w]) < StepsLeft(states[i].waiters[w])
  {
    RunKeepsInv(states, actions, i);
    assert WaiterOk(states[i], states[i].waiters[w]);
  }

  /** How many steps Notify still needs while nobody changes the word. */
  function NotifyLeft(word: Word, pc: Notify): nat {
    match pc
    case NotifyDone => 0
    case NotifyWake => 1
    case NotifyCas(v) => if v == word then 2 else 5
    case NotifyCheck(v) => if v == word then 3 else 6
    case NotifyLoad => 4
  }

  /** Notify returns: each step that loses no exchange brings it closer, and at the end the word is Notified. */
  lemma {:induction false} NotifyReturns(states: seq<State>, actions: seq<Action>, i: nat)
    requires Run(states, actions) && i < |states| && states[i].notifier != NotifyDone
    ensures var s, s' := states[i], Next(states[i], NotifierStep(false));
      && NotifyLeft(s'.word, s'.notifier) < NotifyLeft(s.word, s.notifier)
      && (s'.notifier == NotifyDone ==> s'.word == Notified)
  {
    RunKeepsInv(states, actions, i);
  }
}
