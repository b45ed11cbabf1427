/** When an agent loses a transaction that it owns. */
module RunRequestRaces {
  /*
   In every run, whatever callers do: neither Abort nor ReleaseSyncRequests asks whose the transaction is.
   */

  import opened Common
  import opened RunRequest
  import opened RunRequestOwnership

  //---------------------------------------------------------------------------
  // One step
  //---------------------------------------------------------------------------

  /** Agent a is about to clear the owner of transaction c. */
  predicate Releases(s: State, a: nat, c: nat) {
    && a < |s.agents| && c < |s.txns| && var pc := s.agents[a];
    || (pc.AbortRelease? && pc.c == c)
    || (pc.SyncRelease? && pc.i < |pc.group| && pc.group[pc.i] == c && IsCommitted(s.txns[c].state))
  }

  /** The step ends whatever ownership there is of transaction c. */
  predicate Ends(s: State, act: Action, c: nat) {
    (act.AgentStep? && Releases(s, act.a, c)) || (act.SyncSucceeds? && c in act.group)
  }

  /** The step makes agent b the owner of transaction c. */
  predicate Takes(s: State, act: Action, b: nat, c: nat) {
    act == AgentStep(b) && b < |s.agents| && s.agents[b].OpenOwner? && s.agents[b].c == c && s.agents[b].owned
  }

  /** Nobody owns a transaction whose fields are being written. */
  predicate OpensUnowned(s: State) {
    forall a :: 0 <= a < |s.agents| ==> OpenUnowned(s.txns, s.agents[a])
  }

  predicate OpenUnowned(txns: seq<Txn>, pc: Agent) {
    (pc.OpenWrite? || pc.OpenOwner?) && pc.c < |txns| ==> txns[pc.c].owner == None
  }

  lemma {:induction false} OneStep(t: Txn, a: nat, pc: Agent)
    requires OnOne(pc) && CallOk(t, a, pc) && (pc.OpenWrite? || pc.OpenOwner? ==> t.owner == None)
    ensures var (t', pc', _) := StepOne(t, a, pc);
      && (t'.owner != t.owner ==> t'.owner == None || (pc.OpenOwner? && pc.owned && t'.owner == Some(a)))
      && (pc'.OpenWrite? || pc'.OpenOwner? ==> pc'.c == pc.c && t'.owner == None)
      && (t.owner.Some? && t'.owner != t.owner ==> pc.AbortRelease?)
      && (pc.AbortRelease? ==> t'.owner == None)
      && (pc.OpenOwner? && pc.owned ==> t'.owner == Some(a))
  {
  }

  lemma {:induction false} AgentStepEnds(s: State, a: nat, c: nat)
    requires Inv(s) && OpensUnowned(s) && Enabled(s, AgentStep(a)) && c < |s.txns|
    ensures c < |Next(s, AgentStep(a)).txns|
    ensures var o, o' := s.txns[c].owner, Next(s, AgentStep(a)).txns[c].owner;
      && (o.Some? ==> o' == if Releases(s, a, c) then None else o)
      && (o == None ==> o' == if Takes(s, AgentStep(a), a, c) then Some(a) else None)
  {
    var pc := s.agents[a];
    assert AgentOk(s.txns, a, pc) && OpenUnowned(s.txns, pc);
    if OnOne(pc) { OneStep(s.txns[pc.c], a, pc); }
  }

  /** What becomes of the owner in a step, by whoever takes it. */
  lemma {:induction false} OwnerAfter(s: State, act: Action, c: nat)
    requires Inv(s) && OpensUnowned(s) && Enabled(s, act) && c < |s.txns|
    ensures c < |Next(s, act).txns|
    ensures var o, o' := s.txns[c].owner, Next(s, act).txns[c].owner;
      && (o.Some? ==> o' == if Ends(s, act, c) then None else o)
      && (o == None ==> forall b: nat :: o' == Some(b) <==> Takes(s, act, b, c))
      && (act.SyncSucceeds? && c in act.group ==> o == Some(act.a))
  {
    if act.AgentStep? {
      AgentStepEnds(s, act.a, c);
    } else if IsKernels(act) {
      KernelActs(s, act);
    } else if act.SyncSucceeds? {
      SucceedAllIs(s.txns, act.group);
    } else if act.SyncFails? {
      FailAllIs(s.txns, act.group, act.fates);
      assert KernelStep(s.txns[c], Next(s, act).txns[c]);
    }
  }

  lemma {:induction false} OpensKeep(s: State, act: Action)
    requires Inv(s) && OpensUnowned(s) && Enabled(s, act)
    ensures OpensUnowned(Next(s, act))
  {
    var s' := Next(s, act);
    forall b | 0 <= b < |s'.agents| ensures OpenUnowned(s'.txns, s'.agents[b]) {
      OpenKeeps(s, act, b);
    }
  }

  lemma {:induction false} OpenKeeps(s: State, act: Action, b: nat)
    requires Inv(s) && OpensUnowned(s) && Enabled(s, act) && b < |Next(s, act).agents|
    ensures OpenUnowned(Next(s, act).txns, Next(s, act).agents[b])
  {
    var s' := Next(s, act);
    var pc' := s'.agents[b];
    if (pc'.OpenWrite? || pc'.OpenOwner?) && pc'.c < |s'.txns| {
      if act == AgentStep(b) {
        assert AgentOk(s.txns, b, s.agents[b]) && OpenUnowned(s.txns, s.agents[b]);
        if OnOne(s.agents[b]) { OneStep(s.txns[s.agents[b].c], b, s.agents[b]); }
      } else {
        OtherKeeps(s, act, b);
      }
    }
  }

  /** Nobody else takes ownership of what agent b, holding the lock, is opening. */
  lemma {:induction false} OtherKeeps(s: State, act: Action, b: nat)
    requires Inv(s) && OpensUnowned(s) && Enabled(s, act) && b < |Next(s, act).agents| && act != AgentStep(b)
    requires var pc := Next(s, act).agents[b];
      (pc.OpenWrite? || pc.OpenOwner?) && pc.c < |Next(s, act).txns|
    ensures Next(s, act).txns[Next(s, act).agents[b].c].owner == None
  {
    var pc := s.agents[b];
    assert pc == Next(s, act).agents[b] && AgentOk(s.txns, b, pc) && OpenUnowned(s.txns, pc);
    OwnerAfter(s, act, pc.c);
    if act.AgentStep? { assert AgentOk(s.txns, act.a, s.agents[act.a]); }
  }

  //---------------------------------------------------------------------------
  // Every run
  //---------------------------------------------------------------------------

  lemma {:induction false} RunKeepsOpens(states: seq<State>, actions: seq<Action>, i: nat)
    requires Run(states, actions) && i < |states|
    ensures Inv(states[i]) && OpensUnowned(states[i])
  {
    RunKeepsInv(states, actions, i);
    if i > 0 {
      RunKeepsOpens(states, actions, i - 1);
      assert Steps(states[i - 1], actions[i - 1], states[i]);
      OpensKeep(states[i - 1], actions[i - 1]);
    }
  }

  /**
   In every run a step ends the ownership of a transaction exactly if it is the release of an Abort of
   that transaction, or of a failed sync commit that has it committed in its group, by whatever agent; or
   the kernel's release in a successful sync commit, which is the owner's own.  Nothing passes ownership
   on from one agent to another.
   */
  lemma {:induction false} OwnershipEndsIff(states: seq<State>, actions: seq<Action>, i: nat, c: nat, b: nat)
    requires Run(states, actions) && i < |actions| && c < |states[i].txns| && states[i].txns[c].owner == Some(b)
    ensures c < |states[i + 1].txns|
    ensures states[i + 1].txns[c].owner != Some(b) <==> Ends(states[i], actions[i], c)
    ensures states[i + 1].txns[c].owner == Some(b) || states[i + 1].txns[c].owner == None
    ensures actions[i].SyncSucceeds? && c in actions[i].group ==> actions[i].a == b
  {
    RunKeepsOpens(states, actions, i);
    assert Steps(states[i], actions[i], states[i + 1]);
    OwnerAfter(states[i], actions[i], c);
  }

  /** From i to j no step ends the ownership of transaction c. */
  ghost predicate Unended(states: seq<State>, actions: seq<Action>, i: nat, j: nat, c: nat) {
    j <= |actions| && j <= |states| && forall k :: i <= k < j ==> !Ends(states[k], actions[k], c)
  }

  /** Agent b became the owner of transaction c right before state k, or is so in state i == k. */
  predicate OwnerSince(states: seq<State>, actions: seq<Action>, i: nat, k: nat, b: nat, c: nat)
    requires i <= k < |states| && |states| == |actions| + 1
  {
    if k == i then c < |states[i].txns| && states[i].txns[c].owner == Some(b)
    else Takes(states[k - 1], actions[k - 1], b, c)
  }

  /** Agent b owned the transaction in state i, or took it later, and it has not been released since. */
  ghost predicate OwnsStill(states: seq<State>, actions: seq<Action>, i: nat, j: nat, b: nat, c: nat)
    requires |states| == |actions| + 1
  {
    exists k ::
      i <= k <= j && k < |states| && OwnerSince(states, actions, i, k, b, c) && Unended(states, actions, k, j, c)
  }

  lemma {:induction false} OwnsStillIff(states: seq<State>, actions: seq<Action>, i: nat, j: nat, b: nat, c: nat)
    requires Run(states, actions) && i <= j < |states| && c < |states[i].txns|
    ensures c < |states[j].txns|
    ensures states[j].txns[c].owner == Some(b) <==> OwnsStill(states, actions, i, j, b, c)
    decreases j
  {
    if i == j {
      assert OwnerSince(states, actions, i, i, b, c) ==> Unended(states, actions, i, j, c);
    } else {
      OwnsStillIff(states, actions, i, j - 1, b, c);
      StillNext(states, actions, i, j, b, c);
      RunKeepsOpens(states, actions, j - 1);
      assert Steps(states[j - 1], actions[j - 1], states[j]);
      OwnerAfter(states[j - 1], actions[j - 1], c);
    }
  }

  /** One more step. */
  lemma {:induction false} StillNext(states: seq<State>, actions: seq<Action>, i: nat, j: nat, b: nat, c: nat)
    requires i < j < |states| && |states| == |actions| + 1
    ensures OwnsStill(states, actions, i, j, b, c) <==>
      || (OwnsStill(states, actions, i, j - 1, b, c) && !Ends(states[j - 1], actions[j - 1], c))
      || Takes(states[j - 1], actions[j - 1], b, c)
  {
    if OwnsStill(states, actions, i, j, b, c) {
      var k :| i <= k <= j && OwnerSince(states, actions, i, k, b, c) && Unended(states, actions, k, j, c);
      if k < j { assert Unended(states, actions, k, j - 1, c); }
    }
    if OwnsStill(states, actions, i, j - 1, b, c) && !Ends(states[j - 1], actions[j - 1], c) {
      var k :| i <= k <= j - 1 && OwnerSince(states, actions, i, k, b, c) && Unended(states, actions, k, j - 1, c);
      assert Unended(states, actions, k, j, c);
    }
    if Takes(states[j - 1], actions[j - 1], b, c) {
      assert OwnerSince(states, actions, i, j, b, c) && Unended(states, actions, j, j, c);
    }
  }

  /** At x the exchange of agent a's Abort of transaction c succeeds, at y that Abort clears the owner. */
  predicate AbortAt(states: seq<State>, actions: seq<Action>, x: nat, y: nat, a: nat, c: nat) {
    && x < y < |actions| && |states| == |actions| + 1 && actions[x] == actions[y] == AgentStep(a)
    && a < |states[x].agents| && c < |states[x].txns| && states[x].agents[a] == AbortCas(c)
    && IsOpen(states[x].txns[c].state) && forall k :: x < k < y ==> actions[k] != AgentStep(a)
  }

  /**
   An Abort takes away what agent b owns if and only if b owned the transaction when the exchange
   succeeded, or became its owner before the release, and it has not been released in between.
   */
  lemma {:induction false} AbortTakesIff(
      states: seq<State>, actions: seq<Action>, x: nat, y: nat, a: nat, b: nat, c: nat)
    requires Run(states, actions) && AbortAt(states, actions, x, y, a, c)
    ensures c < |states[y].txns| && c < |states[y + 1].txns| && states[y + 1].txns[c].owner == None
    ensures states[y].txns[c].owner == Some(b) <==> OwnsStill(states, actions, x, y, b, c)
  {
    OwnsStillIff(states, actions, x, y, b, c);
    StaysAtRelease(states, actions, x, y, a, c);
    RunKeepsOpens(states, actions, y);
    assert Steps(states[y], actions[y], states[y + 1]);
    OwnerAfter(states[y], actions[y], c);
    if states[y].txns[c].owner == None {
      assert Takes(states[y], actions[y], a, c) ==> states[y].agents[a].OpenOwner?;
    }
  }

  lemma {:induction false} StaysAtRelease(
      states: seq<State>, actions: seq<Action>, x: nat, j: nat, a: nat, c: nat)
    requires Run(states, actions) && x < j < |states| && j <= |actions| && actions[x] == AgentStep(a)
    requires a < |states[x].agents| && c < |states[x].txns| && states[x].agents[a] == AbortCas(c)
    requires IsOpen(states[x].txns[c].state) && forall k :: x < k < j ==> actions[k] != AgentStep(a)
    ensures a < |states[j].agents| && states[j].agents[a].AbortRelease? && states[j].agents[a].c == c
    decreases j
  {
    assert Steps(states[j - 1], actions[j - 1], states[j]);
    if x + 1 < j { StaysAtRelease(states, actions, x, j - 1, a, c); }
  }

  /**
   A failed sync commit of agent a that releases transaction c takes away what another agent owns if
   and only if that agent has become the owner since the commit was answered, and it has not been released
   in between.
   */
  lemma {:induction false} SyncTakesIff(
      states: seq<State>, actions: seq<Action>, x: nat, y: nat, a: nat, b: nat, c: nat)
    requires Run(states, actions) && x < y < |actions| && a != b
    requires actions[x].SyncFails? && actions[x].a == a && c in actions[x].group
    requires actions[y] == AgentStep(a) && Releases(states[y], a, c) && states[y].agents[a].SyncRelease?
    ensures c < |states[y].txns| && c < |states[y + 1].txns| && states[y + 1].txns[c].owner == None
    ensures states[y].txns[c].owner == Some(b) <==> OwnsStill(states, actions, x + 1, y, b, c)
    ensures c < |states[x + 1].txns| && states[x + 1].txns[c].owner == Some(a)
  {
    assert Steps(states[x], actions[x], states[x + 1]);
    RunKeepsOpens(states, actions, x);
    OwnerAfter(states[x], actions[x], c);
    OwnsStillIff(states, actions, x + 1, y, b, c);
    RunKeepsOpens(states, actions, y);
    assert Steps(states[y], actions[y], states[y + 1]);
    OwnerAfter(states[y], actions[y], c);
  }

  //---------------------------------------------------------------------------
  // When only owners release
  //---------------------------------------------------------------------------

  /** Whoever clears the owner of transaction c is its owner. */
  predicate OwnRelease(s: State, act: Action, c: nat) {
    act.AgentStep? && Releases(s, act.a, c) && s.txns[c].owner.Some? ==> s.txns[c].owner == Some(act.a)
  }

  /** The step leaves transaction c to the agent that owns it, unless it is that agent's own. */
  predicate LeftToOwner(s: State, act: Action, s': State, c: nat) {
    c < |s.txns| && c < |s'.txns| && s.txns[c].owner.Some? && s'.txns[c].owner != s.txns[c].owner ==>
      (act.AgentStep? || act.SyncSucceeds?) && s.txns[c].owner == Some(act.a)
  }

  /** In step i ownership of transaction c is given up, if at all, by the owner. */
  predicate LeftAt(states: seq<State>, actions: seq<Action>, i: nat, c: nat)
    requires |states| == |actions| + 1 && i < |actions|
  {
    LeftToOwner(states[i], actions[i], states[i + 1], c)
  }

  predicate OwnReleaseAt(states: seq<State>, actions: seq<Action>, i: nat, c: nat)
    requires |states| == |actions| + 1 && i < |actions|
  {
    OwnRelease(states[i], actions[i], c)
  }

  lemma {:induction false} LeftAtIff(states: seq<State>, actions: seq<Action>, i: nat, c: nat)
    requires Run(states, actions) && i < |actions|
    ensures LeftAt(states, actions, i, c) <==> OwnReleaseAt(states, actions, i, c)
  {
    if c < |states[i].txns| && states[i].txns[c].owner.Some? {
      OwnershipEndsIff(states, actions, i, c, states[i].txns[c].owner.value);
    }
  }

  /** In every run, only owners give up ownership if and only if every release is made by the owner. */
  lemma {:induction false} OnlyOwnerReleases(states: seq<State>, actions: seq<Action>, c: nat)
    requires Run(states, actions)
    ensures (forall i :: 0 <= i < |actions| ==> LeftAt(states, actions, i, c)) <==>
            (forall i :: 0 <= i < |actions| ==> OwnReleaseAt(states, actions, i, c))
  {
    forall i | 0 <= i < |actions| ensures LeftAt(states, actions, i, c) <==> OwnReleaseAt(states, actions, i, c) {
      LeftAtIff(states, actions, i, c);
    }
  }

  /** When callers keep their side, every release is made by the owner. */
  lemma {:induction false} PromiseKeepsOwners(states: seq<State>, actions: seq<Action>, i: nat, c: nat)
    requires KeptRun(states, actions) && i < |actions|
    ensures OwnReleaseAt(states, actions, i, c) && LeftAt(states, actions, i, c)
  {
    var s, act := states[i], actions[i];
    RunKeepsOwned(states, actions, i);
    assert Steps(s, act, states[i + 1]);
    if act.AgentStep? { assert InOrder(s.txns, act.a, s.agents[act.a]); }
    LeftAtIff(states, actions, i, c);
  }

  //---------------------------------------------------------------------------
  // The two ways to lose a transaction
  //---------------------------------------------------------------------------

  /** An Abort by agent a that nothing overlaps. */
  function AbortAlone(s: State, a: nat, c: nat): State
    requires Enabled(s, StartAbort(a, c))
  {
    var s1 := Next(s, StartAbort(a, c));
    var s2 := Next(s1, AgentStep(a));
    if s2.agents[a].AbortDone? then s2
    else
      var s3 := Next(s2, AgentStep(a));
      if s3.agents[a].AbortDone? then s3 else Next(s3, AgentStep(a))
  }

  /** It takes away whatever ownership there is if and only if the transaction is open before the call. */
  lemma {:induction false} AbortAloneTakesIff(s: State, a: nat, b: nat, c: nat)
    requires Enabled(s, StartAbort(a, c)) && s.txns[c].owner == Some(b)
    ensures c < |AbortAlone(s, a, c).txns|
    ensures AbortAlone(s, a, c).txns[c].owner != Some(b) <==> IsOpen(s.txns[c].state)
  {
  }

  ghost predicate Reachable(s: State) {
    exists states: seq<State>, actions: seq<Action> :: Run(states, actions) && states[|actions|] == s
  }

  lemma {:induction false} Reach(s: State, act: Action)
    requires Reachable(s) && Enabled(s, act)
    ensures Reachable(Next(s, act))
  {
    var states: seq<State>, actions: seq<Action> :| Run(states, actions) && states[|actions|] == s;
    var states', actions' := states + [Next(s, act)], actions + [act];
    forall i | 0 <= i < |actions'| ensures Steps(states'[i], actions'[i], states'[i + 1]) {
      if i < |actions| { assert Steps(states[i], actions[i], states[i + 1]); }
    }
    assert Run(states', actions') && states'[|actions'|] == Next(s, act);
  }

  /** The fields are written one at a time. */
  lemma {:induction false} ReachWritten(s: State, a: nat, c: nat, fields: seq<int>, owned: bool, k: nat)
    requires a < |s.agents| && c < |s.txns| && |fields| == |s.txns[c].fields| == NUM_FIELDS && k <= NUM_FIELDS
    requires !s.failed && s.txns[c].fields[..k] == fields[..k]
    requires Reachable(s.(agents := s.agents[a := OpenWrite(c, fields, owned, k)]))
    ensures Reachable(Set(s, a, OpenOwner(c, fields, owned), c, s.txns[c].(fields := fields)))
    decreases NUM_FIELDS - k
  {
    var now := s.(agents := s.agents[a := OpenWrite(c, fields, owned, k)]);
    Reach(now, AgentStep(a));
    var t := s.txns[c];
    if k < NUM_FIELDS {
      var s' := s.(txns := s.txns[c := t.(fields := t.fields[k := fields[k]])]);
      assert s'.txns[c].fields[..k + 1] == fields[..k + 1];
      assert Next(now, AgentStep(a)) == s'.(agents := s'.agents[a := OpenWrite(c, fields, owned, k + 1)]);
      ReachWritten(s', a, c, fields, owned, k + 1);
      assert s'.txns[c := s'.txns[c].(fields := fields)] == s.txns[c := t.(fields := fields)];
    } else {
      assert t.fields == fields;
      assert Next(now, AgentStep(a)) == Set(s, a, OpenOwner(c, fields, owned), c, t.(fields := fields));
    }
  }

  /** What Open makes of a transaction. */
  function Opened(t: Txn, a: nat, fields: seq<int>, owned: bool): Txn {
    t.(fields := fields, owner := if owned then Some(a) else t.owner, state := READY, opens := t.opens + [fields])
  }

  predicate CanOpen(s: State, a: nat, c: nat) {
    && !s.failed && IsFree(s, a) && c < |s.txns| && IsCommitted(s.txns[c].state)
    && s.txns[c].owner == None && s.txns[c].lock == None
  }

  lemma {:induction false} ReachLocked(s: State, a: nat, c: nat, fields: seq<int>, owned: bool)
    requires Reachable(s) && CanOpen(s, a, c) && |fields| == |s.txns[c].fields| == NUM_FIELDS
    ensures Reachable(Set(s, a, OpenOwner(c, fields, owned), c, s.txns[c].(lock := Some(a), fields := fields)))
  {
    var s' := s.(txns := s.txns[c := s.txns[c].(lock := Some(a))]);
    Reach(s, StartOpen(a, c, fields, owned));
    Reach(Set(s, a, OpenWait(c, fields, owned), c, s'.txns[c]), AgentStep(a));
    assert s'.(agents := s'.agents[a := OpenWrite(c, fields, owned, 0)]) ==
      Next(Set(s, a, OpenWait(c, fields, owned), c, s'.txns[c]), AgentStep(a));
    ReachWritten(s', a, c, fields, owned, 0);
  }

  lemma {:induction false} ReachOpened(s: State, a: nat, c: nat, fields: seq<int>, owned: bool)
    requires Reachable(s) && CanOpen(s, a, c) && |fields| == |s.txns[c].fields| == NUM_FIELDS
    ensures Reachable(s.(txns := s.txns[c := Opened(s.txns[c], a, fields, owned)]))
  {
    ReachLocked(s, a, c, fields, owned);
    var t := s.txns[c].(lock := Some(a), fields := fields);
    var t' := if owned then t.(owner := Some(a)) else t;
    Reach(Set(s, a, OpenOwner(c, fields, owned), c, t), AgentStep(a));
    assert Next(Set(s, a, OpenOwner(c, fields, owned), c, t), AgentStep(a)) ==
      Set(s, a, OpenReady(c, fields, owned), c, t');
    Reach(Set(s, a, OpenReady(c, fields, owned), c, t'), AgentStep(a));
    assert Next(Set(s, a, OpenReady(c, fields, owned), c, t'), AgentStep(a)) ==
      s.(txns := s.txns[c := Opened(s.txns[c], a, fields, owned)]);
  }

  lemma {:induction false} ReachAborted(s: State, a: nat, c: nat)
    requires Reachable(s) && !s.failed && IsFree(s, a) && c < |s.txns| && IsOpen(s.txns[c].state)
    ensures Reachable(Set(s, a, AbortRelease(c, |s.txns[c].opens|), c, Finish(s.txns[c], ABORTED)))
  {
    Reach(s, StartAbort(a, c));
    Reach(s.(agents := s.agents[a := AbortLoad(c)]), AgentStep(a));
    assert Next(s.(agents := s.agents[a := AbortLoad(c)]), AgentStep(a)) == s.(agents := s.agents[a := AbortCas(c)]);
    Reach(s.(agents := s.agents[a := AbortCas(c)]), AgentStep(a));
    assert Next(s.(agents := s.agents[a := AbortCas(c)]), AgentStep(a)) ==
      Set(s, a, AbortRelease(c, |s.txns[c].opens|), c, Finish(s.txns[c], ABORTED));
  }

  /**
   The first way: in every state in which agent b owns an open transaction and another agent is free,
   an Abort by that agent takes it away, in four steps and without any overlap.
   */
  lemma {:induction false} AbortTakesOwned(s: State, a: nat, b: nat, c: nat) returns (s': State)
    requires Reachable(s) && !s.failed && IsFree(s, a) && a != b
    requires c < |s.txns| && IsOpen(s.txns[c].state) && s.txns[c].owner == Some(b)
    ensures Reachable(s') && !s'.failed && IsFree(s', a) && c < |s'.txns| && s'.txns[c].owner == None
    ensures s' == s.(txns := s.txns[c := Finish(s.txns[c], ABORTED).(owner := None)])
  {
    ReachAborted(s, a, c);
    var n, t := |s.txns[c].opens|, Finish(s.txns[c], ABORTED);
    var s1 := Set(s, a, AbortRelease(c, n), c, t);
    Reach(s1, AgentStep(a));
    var s2 := Set(s, a, AbortDone(c, n, true), c, t.(owner := None));
    assert Next(s1, AgentStep(a)) == s2;
    Reach(s2, Return(a));
    s' := s.(txns := s.txns[c := t.(owner := None)]);
    assert Next(s2, Return(a)) == s';
  }

  /**
   The second way: from every state in which a transaction can be opened and two agents are free, the
   system reaches one in which agent b has opened it with ownership and the next step of agent a, still
   inside Abort, clears the owner.
   */
  lemma {:induction false} AbortMayDropOwner(s: State, a: nat, b: nat, c: nat, fields: seq<int>) returns (s': State)
    requires Reachable(s) && CanOpen(s, a, c) && IsFree(s, b) && a != b && |fields| == NUM_FIELDS
    ensures Reachable(s') && Enabled(s', AgentStep(a)) && c < |s'.txns|
    ensures IsOpen(s'.txns[c].state) && s'.txns[c].owner == Some(b) && IsFree(s', b)
    ensures var t := Next(s', AgentStep(a)).txns[c];
      IsOpen(t.state) && t.owner == None
  {
    var states: seq<State>, actions: seq<Action> :| Run(states, actions) && states[|actions|] == s;
    RunKeepsInv(states, actions, |actions|);
    var t := s.txns[c];
    assert TxnOk(t);
    var first := Opened(t, a, fields, false);
    ReachOpened(s, a, c, fields, false);
    var s1 := s.(txns := s.txns[c := first]);
    ReachAborted(s1, a, c);
    var s2 := Set(s1, a, AbortRelease(c, |first.opens|), c, Finish(first, ABORTED));
    ReachOpened(s2, b, c, fields, true);
    s' := s2.(txns := s2.txns[c := Opened(Finish(first, ABORTED), b, fields, true)]);
  }
}
