/** One item of the PrioTable from its writers to the scheduling parameters the agent keeps of it. */
module PrioTableSync {
  /*
   SetSchedItem and MarkRunnability are on one side, RefreshSchedParams and MakeEngineRunnable on the
   other.  A mark, a call of NextUpdatedIndex and a copy are single steps here and the counter is
   unbounded; module PrioTableProtocol shows that the real ones, access by access, do nothing else.
   */

  /** The fields of a sched_item that are copied. */
  datatype Item = Item(flags: int, wcid: int, gpid: int, rest: seq<int>)

  /** Some thread holds the sequence counter, or has released it and not yet marked the index. */
  datatype Writer = Away | Writing | ToMark

  /**
   Where the agent is: before NextUpdatedIndex, in it, about to refresh, copying; or in
   MakeEngineRunnable, about to load the flags of the item, or to store them.  stamp is what stores
   was at the load.
   */
  datatype Agent =
    | Waiting
    | Polling
    | Refreshing
    | Copying(begin: nat)
    | Loading
    | Storing(loaded: int, stamp: nat)

  /**
   version counts write_begin and write_end; item is the last completed write, with the flags that
   its writer stored.  word is the flags word in memory, which the agent stores as well; wrote is what
   writers last stored in it and stores how often they did.  straddled says that the agent has since
   stored flags that it had loaded before.  pending is a mark not yet reported, before what it was when
   NextUpdatedIndex was called.  seen and params are the agent's own copy.  repeating are the
   repeating work classes.
   */
  datatype State = State(
    version: nat, item: Item, writers: seq<Writer>, word: int, wrote: int, stores: nat, straddled: bool,
    pending: bool, before: bool, agent: Agent, seen: nat, params: Item, repeating: set<int>)

  datatype Action =
    | BeginWrite(w: nat)
    | StoreFlags(w: nat, flags: int)
    | EndWrite(w: nat, item: Item)
    | Mark(w: nat)
    | Call
    | Report
    | ReportNothing
    | ReportOther
    | BeginRead
    | EndRead(copy: Item)
    | SetRunnable
    | LoadFlags
    | StoreRunnable

  /** SCHED_ITEM_RUNNABLE is the lowest bit. */
  predicate Runnable(flags: int) { flags % 2 == 1 }

  /** flags | SCHED_ITEM_RUNNABLE: the lowest bit is set and the others are kept. */
  function WithRunnable(flags: int): (r: int)
    ensures Runnable(r) && r / 2 == flags / 2
  {
    if Runnable(flags) then flags else flags + 1
  }

  /** What the memory holds while nobody writes. */
  function Memory(s: State): Item { s.item.(flags := s.word) }

  predicate Accepted(begin: nat, s: State) { begin % 2 == 0 && begin == s.version }

  /** When the agent makes an engine runnable: that of a worker which has no work in a repeating class. */
  predicate CanMakeRunnable(s: State) {
    s.agent == Waiting && s.params.wcid in s.repeating && s.params.gpid != 0 && !Runnable(s.params.flags)
  }

  /** What read_end accepts is in memory; what it rejects may be anything. */
  predicate Enabled(s: State, a: Action) {
    match a
    case BeginWrite(w) => w < |s.writers| && s.writers[w] == Away && s.version % 2 == 0
    case StoreFlags(w, _) => w < |s.writers| && s.writers[w] == Writing
    case EndWrite(w, item) => w < |s.writers| && s.writers[w] == Writing && item.flags == s.wrote
    case Mark(w) => w < |s.writers| && s.writers[w] == ToMark
    case Call => s.agent == Waiting
    case Report => s.agent == Polling
    case ReportNothing => s.agent == Polling && !s.before
    case ReportOther => s.agent == Polling
    case BeginRead => s.agent == Refreshing
    case EndRead(copy) => s.agent.Copying? && (Accepted(s.agent.begin, s) ==> copy == Memory(s))
    case SetRunnable => CanMakeRunnable(s)
    case LoadFlags => s.agent == Loading
    case StoreRunnable => s.agent.Storing?
  }

  function DoBeginRead(s: State): State {
    s.(agent := if s.seen == s.version then Waiting else Copying(s.version))
  }

  function MakeRunnable(item: Item): Item { item.(flags := WithRunnable(item.flags)) }

  /** The rest of SeqCopyParams. */
  function DoEndRead(s: State, copy: Item): State
    requires s.agent.Copying?
  {
    var begin := s.agent.begin;
    if Accepted(begin, s) then s.(agent := Waiting, seen := begin, params := copy)
    else if !Runnable(s.params.flags) then s.(agent := Waiting, seen := begin, params := MakeRunnable(s.params))
    else s.(agent := Waiting)
  }

  function Next(s: State, a: Action): State
    requires Enabled(s, a)
  {
    match a
    case BeginWrite(w) => s.(version := s.version + 1, writers := s.writers[w := Writing])
    case StoreFlags(w, flags) => s.(word := flags, wrote := flags, stores := s.stores + 1, straddled := false)
    case EndWrite(w, item) => s.(version := s.version + 1, item := item, writers := s.writers[w := ToMark])
    case Mark(w) => s.(pending := true, writers := s.writers[w := Away])
    case Call => s.(agent := Polling, before := s.pending)
    case Report => s.(agent := Refreshing, pending := false)
    case ReportNothing => s.(agent := Waiting)
    case ReportOther => s.(agent := Waiting)
    case BeginRead => DoBeginRead(s)
    case EndRead(copy) => DoEndRead(s, copy)
    case SetRunnable => s.(agent := Loading, params := MakeRunnable(s.params))
    case LoadFlags => s.(agent := Storing(s.word, s.stores))
    case StoreRunnable =>
      s.(agent := Waiting, word := WithRunnable(s.agent.loaded),
         straddled := s.straddled || s.agent.stamp != s.stores)
  }

  /** A new table is all zeros, and so is what the agent keeps; its counter reads version 0. */
  predicate Init(s: State) {
    && s.version == 0 && s.item == Item(0, 0, 0, s.item.rest) && s.params == s.item && s.seen == 0
    && s.word == 0 && s.wrote == 0 && s.stores == 0 && !s.straddled
    && !s.pending && !s.before && (s.agent == Waiting || s.agent == Refreshing)
    && forall w :: 0 <= w < |s.writers| ==> s.writers[w] == Away
  }

  //---------------------------------------------------------------------------
  // Invariant
  //---------------------------------------------------------------------------

  predicate Busy(s: State) { exists w :: 0 <= w < |s.writers| && s.writers[w] != Away }

  /** The flags are the given ones but for SCHED_ITEM_RUNNABLE, which may have been added. */
  predicate UpToRunnable(flags: int, given: int) { flags == given || flags == WithRunnable(given) }

  /** The same item, but for flags that the agent has set or put back. */
  predicate SameItem(params: Item, item: Item, straddled: bool) {
    params.(flags := item.flags) == item && (!straddled ==> UpToRunnable(params.flags, item.flags))
  }

  predicate Fresh(s: State) { s.seen == s.version && s.version % 2 == 0 && SameItem(s.params, s.item, s.straddled) }

  /** A change that the agent may not have seen is on its way to it. */
  predicate Announced(s: State) { Busy(s) || s.pending }

  /** The agent is not between a report and the end of the refresh that it causes. */
  predicate Settled(agent: Agent) { !agent.Refreshing? && !agent.Copying? }

  predicate FlagsOk(s: State) {
    && (s.version % 2 == 0 ==> s.wrote == s.item.flags)
    && (!s.straddled ==> UpToRunnable(s.word, s.wrote))
    && (s.agent.Storing? ==> s.agent.stamp <= s.stores)
    && (s.agent.Storing? && s.agent.stamp == s.stores ==> s.agent.loaded == s.word)
  }

  ghost predicate Inv(s: State) {
    && (s.version % 2 == 1 <==> exists w :: 0 <= w < |s.writers| && s.writers[w] == Writing)
    && (forall v, w :: 0 <= v < w < |s.writers| ==> !(s.writers[v] == Writing && s.writers[w] == Writing))
    && s.seen <= s.version && FlagsOk(s)
    && (s.seen == s.version && s.version % 2 == 0 ==> Fresh(s))
    && (Settled(s.agent) ==> Fresh(s) || Announced(s))
    && (s.agent.Copying? ==>
          s.agent.begin <= s.version && (!Accepted(s.agent.begin, s) ==> Announced(s)))
  }

  predicate IsWriters(a: Action) { a.BeginWrite? || a.StoreFlags? || a.EndWrite? || a.Mark? }

  lemma {:induction false} WriterKeeps(s: State, a: Action)
    requires Inv(s) && Enabled(s, a) && IsWriters(a)
    ensures Inv(Next(s, a))
  {
    var s', w := Next(s, a), a.w;
    assert a.BeginWrite? ==> s'.writers[w] == Writing;
    assert a.EndWrite? ==> s'.writers[w] == ToMark;
    assert forall v :: 0 <= v < |s.writers| && v != w ==> s'.writers[v] == s.writers[v];
    if a.Mark? && s.version % 2 == 1 {
      var v :| 0 <= v < |s.writers| && s.writers[v] == Writing;
      assert s'.writers[v] == Writing;
    }
  }

  predicate IsEngines(a: Action) { a.SetRunnable? || a.LoadFlags? || a.StoreRunnable? }

  lemma {:induction false} EngineKeeps(s: State, a: Action)
    requires Inv(s) && Enabled(s, a) && IsEngines(a)
    ensures Inv(Next(s, a))
  {
    assert s.version % 2 == 1 ==> Busy(s);
  }

  lemma {:induction false} RefreshKeeps(s: State, a: Action)
    requires Inv(s) && Enabled(s, a) && !IsWriters(a) && !IsEngines(a)
    ensures Inv(Next(s, a))
  {
    assert s.version % 2 == 1 ==> Busy(s);
  }

  lemma {:induction false} StepKeeps(s: State, a: Action)
    requires Inv(s) && Enabled(s, a)
    ensures Inv(Next(s, a))
  {
    if IsWriters(a) {
      WriterKeeps(s, a);
    } else if IsEngines(a) {
      EngineKeeps(s, a);
    } else {
      RefreshKeeps(s, a);
    }
  }

  //---------------------------------------------------------------------------
  // Items whose work classes do not repeat
  //---------------------------------------------------------------------------

  /** The agent never makes the engine of such an item runnable. */
  predicate IsPlain(item: Item, repeating: set<int>) { item.gpid == 0 || item.wcid !in repeating }

  predicate Plain(s: State) {
    && IsPlain(s.item, s.repeating) && IsPlain(s.params, s.repeating)
    && !s.straddled && s.word == s.wrote && !s.agent.Loading? && !s.agent.Storing?
    && (s.seen == s.version && s.version % 2 == 0 ==> s.params == s.item)
  }

  /** The write that the step completes, if any, is of one of these work classes. */
  predicate OfClasses(a: Action, classes: set<int>) { a.EndWrite? ==> a.item.wcid in classes }

  lemma {:induction false} PlainKeeps(s: State, a: Action, classes: set<int>)
    requires Inv(s) && Plain(s) && Enabled(s, a) && OfClasses(a, classes) && classes !! s.repeating
    ensures Plain(Next(s, a))
  {
  }

  //---------------------------------------------------------------------------
  // Every run
  //---------------------------------------------------------------------------

  ghost predicate Steps(s: State, a: Action, s': State) { Enabled(s, a) && s' == Next(s, a) }

  ghost predicate Run(states: seq<State>, actions: seq<Action>) {
    && |states| == |actions| + 1 && Init(states[0])
    && forall i :: 0 <= i < |actions| ==> Steps(states[i], actions[i], states[i + 1])
  }

  lemma {:induction false} RunKeepsInv(states: seq<State>, actions: seq<Action>, i: nat)
    requires Run(states, actions) && i < |states|
    ensures Inv(states[i])
  {
    if i > 0 {
      RunKeepsInv(states, actions, i - 1);
      var s, a := states[i - 1], actions[i - 1];
      assert Steps(s, a, states[i]);
      StepKeeps(s, a);
    }
  }

  /**
   In every run, outside a refresh, the agent's parameters are those of the last completed write, but
   for SCHED_ITEM_RUNNABLE which the agent may have added, or a writer is still at work, or the index
   is marked and will be reported.  Only if the agent stored flags that it had loaded before a writer
   stored its own can the other flags differ.
   */
  lemma {:induction false} OnlyFlagsDiffer(states: seq<State>, actions: seq<Action>, i: nat)
    requires Run(states, actions) && i < |states| && Settled(states[i].agent)
    ensures SameItem(states[i].params, states[i].item, states[i].straddled) || Announced(states[i])
  {
    RunKeepsInv(states, actions, i);
  }

  /** All writes of the run are of these work classes; some classes repeat. */
  ghost predicate RunOfClasses(states: seq<State>, actions: seq<Action>, repeating: set<int>, classes: set<int>) {
    && Run(states, actions) && states[0].repeating == repeating
    && forall i :: 0 <= i < |actions| ==> OfClasses(actions[i], classes)
  }

  lemma {:induction false} RunKeepsPlain(
      states: seq<State>, actions: seq<Action>, repeating: set<int>, classes: set<int>, i: nat)
    requires RunOfClasses(states, actions, repeating, classes) && i < |states| && classes !! repeating
    ensures Plain(states[i]) && states[i].repeating == repeating
  {
    if i > 0 {
      RunKeepsPlain(states, actions, repeating, classes, i - 1);
      RunKeepsInv(states, actions, i - 1);
      assert Steps(states[i - 1], actions[i - 1], states[i]);
      PlainKeeps(states[i - 1], actions[i - 1], classes);
    }
  }

  /** Outside a refresh the agent's parameters are the last completed write, or a change is announced. */
  predicate UpToDate(s: State) { Settled(s.agent) ==> s.params == s.item || Announced(s) }

  /** The agent is never left with stale parameters of an item whose classes do not repeat. */
  lemma {:induction false} NeverStaleUnannounced(
      states: seq<State>, actions: seq<Action>, repeating: set<int>, classes: set<int>, i: nat)
    requires RunOfClasses(states, actions, repeating, classes) && i < |states| && classes !! repeating
    ensures UpToDate(states[i])
  {
    RunKeepsInv(states, actions, i);
    RunKeepsPlain(states, actions, repeating, classes, i);
  }

  /**
   When NextUpdatedIndex finds nothing and no writer was at work since, the agent is up to date, in
   the flags too if no class of the item repeats.
   */
  lemma {:induction false} QuietMeansUpToDate(
      states: seq<State>, actions: seq<Action>, repeating: set<int>, classes: set<int>, i: nat)
    requires RunOfClasses(states, actions, repeating, classes) && i < |actions| && actions[i] == ReportNothing
    requires !Busy(states[i]) && !states[i].pending
    ensures var s := states[i + 1];
      SameItem(s.params, s.item, s.straddled) && (classes !! repeating ==> s.params == s.item)
  {
    RunKeepsInv(states, actions, i);
    assert Steps(states[i], actions[i], states[i + 1]);
    if classes !! repeating { RunKeepsPlain(states, actions, repeating, classes, i); }
  }

  //---------------------------------------------------------------------------
  // What a refresh does to the agent's parameters
  //---------------------------------------------------------------------------

  /** While a writer that the agent has already met is at work, the item counts as runnable. */
  predicate KeptRunning(s: State) { s.seen == s.version && s.version % 2 == 1 ==> Runnable(s.params.flags) }

  lemma {:induction false} RunKeepsRunning(states: seq<State>, actions: seq<Action>, i: nat)
    requires Run(states, actions) && i < |states|
    ensures KeptRunning(states[i])
  {
    if i > 0 {
      RunKeepsRunning(states, actions, i - 1);
      RunKeepsInv(states, actions, i - 1);
      assert Steps(states[i - 1], actions[i - 1], states[i]);
    }
  }

  /**
   A refresh that elides the copy may do so: the agent has what was last written, up to flags that it set
   itself, or the item counts as runnable while a writer is at work.
   */
  lemma {:induction false} ElidedCopyIsKnown(states: seq<State>, actions: seq<Action>, i: nat)
    requires Run(states, actions) && i < |actions| && actions[i] == BeginRead
    ensures states[i + 1] == states[i].(agent := states[i + 1].agent)
    ensures states[i + 1].agent == Waiting <==> states[i].seen == states[i].version
    ensures states[i + 1].agent == Waiting ==> var s := states[i];
      (SameItem(s.params, s.item, s.straddled) || (Busy(s) && Runnable(s.params.flags)))
  {
    RunKeepsInv(states, actions, i);
    RunKeepsRunning(states, actions, i);
    assert Steps(states[i], actions[i], states[i + 1]);
  }

  /**
   A copy that no write overlapped becomes the agent's parameters.  After any other the agent keeps what
   it has, but takes the item for runnable, so as not to take the CPU from a thread that writes it.
   */
  lemma {:induction false} RefreshLeaves(states: seq<State>, actions: seq<Action>, i: nat, copy: Item)
    requires Run(states, actions) && i < |actions| && actions[i] == EndRead(copy)
    ensures var s, s' := states[i], states[i + 1];
      && s.agent.Copying? && s'.agent == Waiting && s' == s.(agent := Waiting, seen := s'.seen, params := s'.params)
      && if s.agent.begin % 2 == 0 && s.agent.begin == s.version then s'.params == Memory(s) && s'.seen == s.version
         else
           && s'.params == s.params.(flags := s'.params.flags) && Runnable(s'.params.flags)
           && UpToRunnable(s'.params.flags, s.params.flags)
           && (s'.seen == s.seen <==> Runnable(s.params.flags) || s.agent.begin == s.seen)
  {
    assert Steps(states[i], actions[i], states[i + 1]);
  }

  //---------------------------------------------------------------------------
  // What a straddling store does
  //---------------------------------------------------------------------------

  ghost predicate Reachable(s: State) {
    exists states: seq<State>, actions: seq<Action> :: Run(states, actions) && states[|actions|] == s
  }

  lemma {:induction false} Reach(s: State, a: Action)
    requires Reachable(s) && Enabled(s, a)
    ensures Reachable(Next(s, a))
  {
    var states: seq<State>, actions: seq<Action> :| Run(states, actions) && states[|actions|] == s;
    var states', actions' := states + [Next(s, a)], actions + [a];
    forall i | 0 <= i < |actions'| ensures Steps(states'[i], actions'[i], states'[i + 1]) {
      if i < |actions| { assert Steps(states[i], actions[i], states[i + 1]); }
    }
    assert Run(states', actions') && states'[|actions'|] == Next(s, a);
  }

  /** A write by thread w, marked. */
  lemma {:induction false} ReachWritten(s: State, w: nat, item: Item)
    requires Reachable(s) && Enabled(s, BeginWrite(w))
    ensures Reachable(s.(version := s.version + 2, item := item, word := item.flags, wrote := item.flags,
                         stores := s.stores + 1, straddled := false, pending := true))
  {
    var s1 := s.(version := s.version + 1, writers := s.writers[w := Writing]);
    Reach(s, BeginWrite(w));
    Reach(s1, StoreFlags(w, item.flags));
    var s2 := s1.(word := item.flags, wrote := item.flags, stores := s.stores + 1, straddled := false);
    Reach(s2, EndWrite(w, item));
    var s3 := s2.(version := s.version + 2, item := item, writers := s2.writers[w := ToMark]);
    Reach(s3, Mark(w));
    assert s3.writers[w := Away] == s.writers;
  }

  /** The report and the refresh that follow. */
  lemma {:induction false} ReachRefreshed(s: State)
    requires Reachable(s) && s.agent == Waiting && s.version % 2 == 0 && s.seen != s.version
    ensures Reachable(s.(pending := false, before := s.pending, seen := s.version, params := Memory(s)))
  {
    Reach(s, Call);
    Reach(s.(agent := Polling, before := s.pending), Report);
    var s1 := s.(agent := Refreshing, before := s.pending, pending := false);
    Reach(s1, BeginRead);
    Reach(s1.(agent := Copying(s.version)), EndRead(Memory(s)));
  }

  /**
   While the agent has loaded the flags and not stored them, let a thread write the item with any other
   flags.  The agent puts the old ones back, refreshes, and is then settled on them: nothing announces
   that they are not those of the last completed write.
   */
  lemma {:induction false} StraddlePutsBack(s: State, w: nat, item: Item) returns (s': State)
    requires Reachable(s) && s.agent.Storing? && Enabled(s, BeginWrite(w)) && !Busy(s)
    requires !UpToRunnable(WithRunnable(s.agent.loaded), item.flags)
    ensures Reachable(s') && s'.agent == Waiting && !Announced(s') && s'.straddled && s'.item == item
    ensures s'.params == item.(flags := WithRunnable(s.agent.loaded)) && s'.seen == s'.version
  {
    var states: seq<State>, actions: seq<Action> :| Run(states, actions) && states[|actions|] == s;
    RunKeepsInv(states, actions, |actions|);
    ReachWritten(s, w, item);
    var s1 := s.(version := s.version + 2, item := item, word := item.flags, wrote := item.flags,
                 stores := s.stores + 1, straddled := false, pending := true);
    Reach(s1, StoreRunnable);
    var s2 := s1.(agent := Waiting, word := WithRunnable(s.agent.loaded), straddled := true);
    ReachRefreshed(s2);
    s' := s2.(pending := false, before := true, seen := s2.version, params := Memory(s2));
  }
}
