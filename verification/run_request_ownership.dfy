/**
 Run-request transactions when callers keep their side: who owns which transaction, and which CHECKs
 cannot fail.

 Callers commit an unowned transaction before they open it again, do not open what another agent waits
 to see committed, do not abort what another agent owns, and take no ownership of what is being aborted.
 */
module RunRequestOwnership {
  import opened Common
  import opened RunRequest

  //---------------------------------------------------------------------------
  // What callers promise
  //---------------------------------------------------------------------------

  predicate Aborting(pc: Agent, c: nat) { (pc.AbortLoad? || pc.AbortCas? || pc.AbortRelease?) && pc.c == c }

  predicate Committing(pc: Agent, c: nat) { (pc.CompleteWait? || pc.CompleteRead?) && pc.c == c }

  predicate Opening(pc: Agent, c: nat) {
    (pc.OpenWait? || pc.OpenWrite? || pc.OpenOwner? || pc.OpenReady?) && pc.c == c
  }

  /** Inside an Open that has yet to take ownership of the transaction. */
  predicate TakingOwnership(pc: Agent, c: nat) {
    (pc.OpenWait? || pc.OpenWrite? || pc.OpenOwner?) && pc.c == c && pc.owned
  }

  /**
   An unowned transaction is committed before it is opened again.  Nobody opens what another agent
   is waiting to see committed.  Nobody aborts what another agent owns, or takes ownership of what
   an agent that does not own it is aborting.
   */
  predicate Promised(s: State, act: Action)
    requires Enabled(s, act)
  {
    match act
    case StartOpen(a, c, _, owned) =>
      && (if s.txns[c].owner.Some? then owned else IsCommitted(s.txns[c].state))
      && (forall b :: 0 <= b < |s.agents| ==> !Committing(s.agents[b], c))
      && (owned ==> forall b :: 0 <= b < |s.agents| && Aborting(s.agents[b], c) ==> s.txns[c].owner == Some(b))
    case StartAbort(a, c) =>
      || s.txns[c].owner == Some(a)
      || (s.txns[c].owner == None && forall b :: 0 <= b < |s.agents| ==> !TakingOwnership(s.agents[b], c))
    case StartCommit(a, c) => forall b :: 0 <= b < |s.agents| ==> !Opening(s.agents[b], c)
    case _ => true
  }

  //---------------------------------------------------------------------------
  // Invariant
  //---------------------------------------------------------------------------

  /** No other agent owns the transaction. */
  predicate Clear(t: Txn, a: nat) { t.owner == None || t.owner == Some(a) }

  /** Who owns the transaction that the call of agent a is about. */
  predicate OwnerOk(t: Txn, a: nat, pc: Agent) {
    match pc
    case OpenWait(_, _, owned) => if t.owner.Some? then owned else IsCommitted(t.state)
    case OpenWrite(_, _, _, _) => t.owner == None
    case OpenOwner(_, _, _) => t.owner == None
    case OpenReady(_, _, owned) => t.owner == if owned then Some(a) else None
    case AbortLoad(_) => Clear(t, a)
    case AbortCas(_) => Clear(t, a)
    case AbortRelease(_, _) => Clear(t, a) && (t.owner == Some(a) ==> IsCommitted(t.state))
    case CompleteRead(_, _) => IsCommitted(t.state)
    case _ => true
  }

  predicate Failed(txns: seq<Txn>, group: seq<nat>, nths: seq<nat>, j: nat)
    requires |nths| == |group| && InRange(txns, group) && j < |group|
  {
    0 < nths[j] <= |txns[group[j]].outcomes| && txns[group[j]].outcomes[nths[j] - 1] != COMPLETE
  }

  /** Some transaction of the group, as it was opened then, did not complete. */
  predicate SomeFailed(txns: seq<Txn>, group: seq<nat>, nths: seq<nat>)
    requires |nths| == |group| && InRange(txns, group)
  {
    exists j :: 0 <= j < |group| && Failed(txns, group, nths, j)
  }

  predicate GroupOk(txns: seq<Txn>, a: nat, pc: Agent) {
    match pc
    case SyncComplete(group, nths, i, failure) =>
      && NoRepeats(group) && InRange(txns, group) && |nths| == |group| && i <= |group|
      && (forall j :: 0 <= j < |group| ==> var t := txns[group[j]];
            t.owner == Some(a) && !IsOpen(t.state) && nths[j] == |t.opens| > 0)
      && (forall j :: 0 <= j < i ==> IsCommitted(txns[group[j]].state))
      && (failure <==> exists j :: 0 <= j < i && txns[group[j]].state != COMPLETE)
      && exists j :: 0 <= j < |group| && Final(txns[group[j]]) != COMPLETE
    case SyncRelease(group, nths, i) =>
      && NoRepeats(group) && InRange(txns, group) && |nths| == |group| && i <= |group|
      && (forall j :: i <= j < |group| ==> txns[group[j]].owner == Some(a) && IsCommitted(txns[group[j]].state))
      && (forall j :: 0 <= j < i ==> txns[group[j]].owner != Some(a))
      && SomeFailed(txns, group, nths)
    case SyncDone(group, nths, ok) =>
      && InRange(txns, group) && |nths| == |group|
      && (forall j :: 0 <= j < |group| ==> txns[group[j]].owner != Some(a))
      && (ok ==> forall j :: 0 <= j < |group| ==> Outcome(txns[group[j]], nths[j], COMPLETE))
      && (!ok ==> SomeFailed(txns, group, nths))
    case _ => true
  }

  predicate InOrder(txns: seq<Txn>, a: nat, pc: Agent) {
    (OnOne(pc) ==> pc.c < |txns| && OwnerOk(txns[pc.c], a, pc)) && GroupOk(txns, a, pc)
  }

  /**
   Agent b takes ownership of a transaction that agent a is aborting only after a has given it up,
   and does not open one that a is waiting to see committed.
   */
  predicate PairOk(txns: seq<Txn>, a: nat, pa: Agent, pb: Agent) {
    && ((pa.AbortLoad? || pa.AbortCas? || pa.AbortRelease?) && TakingOwnership(pb, pa.c) ==>
          pb.OpenWait? && pa.c < |txns| && txns[pa.c].owner == Some(a))
    && (pa.CompleteWait? || pa.CompleteRead? ==> !Opening(pb, pa.c))
  }

  predicate NoRace(txns: seq<Txn>, agents: seq<Agent>) {
    forall a, b :: 0 <= a < |agents| && 0 <= b < |agents| && a != b ==> PairOk(txns, a, agents[a], agents[b])
  }

  predicate Owned(s: State) {
    && Inv(s) && !s.failed && NoRace(s.txns, s.agents)
    && (forall a :: 0 <= a < |s.agents| ==> InOrder(s.txns, a, s.agents[a]))
  }

  //---------------------------------------------------------------------------
  // What the others and the kernel leave alone
  //---------------------------------------------------------------------------

  /** A change of a transaction that agent b need not notice. */
  predicate Harmless(b: nat, t: Txn, t': Txn) {
    && Gentle(b, t, t') && (t.owner == Some(b) <==> t'.owner == Some(b))
    && (t.lock == Some(b) ==>
          && (t.owner == None ==> t'.owner == None)
          && (t.owner.Some? ==> t'.owner == t.owner || (t'.owner == None && IsCommitted(t'.state))))
    && (t.owner == Some(b) ==>
          && t'.opens == t.opens
          && (IsCommitted(t.state) ==> t'.state == t.state)
          && (!IsOpen(t.state) ==> !IsOpen(t'.state) && Final(t') == Final(t)))
  }

  /** One that agent b need not notice in the middle of Abort or Commit of that transaction. */
  predicate Unnoticed(pc: Agent, t: Txn, t': Txn) {
    && (pc.AbortLoad? || pc.AbortCas? || pc.AbortRelease? ==> t'.owner == None || t'.owner == t.owner)
    && (pc.CompleteRead? ==> IsCommitted(t.state) ==> IsCommitted(t'.state))
  }

  ghost predicate HarmlessAll(txns: seq<Txn>, after: seq<Txn>, b: nat, pc: Agent) {
    && |after| == |txns|
    && (forall c :: 0 <= c < |txns| ==> Harmless(b, txns[c], after[c]))
    && (OnOne(pc) && pc.c < |txns| ==> Unnoticed(pc, txns[pc.c], after[pc.c]))
  }

  lemma {:induction false} CallKept(t: Txn, t': Txn, b: nat, pc: Agent)
    requires OnOne(pc) && CallOk(t, b, pc) && OwnerOk(t, b, pc) && Harmless(b, t, t') && Unnoticed(pc, t, t')
    ensures OwnerOk(t', b, pc)
  {
  }

  lemma {:induction false} CompleteKept(txns: seq<Txn>, after: seq<Txn>, b: nat, pc: Agent)
    requires HarmlessAll(txns, after, b, pc) && pc.SyncComplete? && GroupOk(txns, b, pc)
    ensures GroupOk(after, b, pc)
  {
    var group := pc.group;
    forall j | 0 <= j < |group|
      ensures var t, t' := txns[group[j]], after[group[j]];
        t'.owner == Some(b) && !IsOpen(t'.state) && t'.opens == t.opens && Final(t') == Final(t)
        && (IsCommitted(t.state) ==> t'.state == t.state)
    {
      assert Harmless(b, txns[group[j]], after[group[j]]);
    }
    var j :| 0 <= j < |group| && Final(txns[group[j]]) != COMPLETE;
    assert Final(after[group[j]]) != COMPLETE;
    if pc.failure {
      var k :| 0 <= k < pc.i && txns[group[k]].state != COMPLETE;
      assert after[group[k]].state != COMPLETE;
    }
  }

  lemma {:induction false} FailedKept(
      txns: seq<Txn>, after: seq<Txn>, b: nat, pc: Agent, group: seq<nat>, nths: seq<nat>)
    requires HarmlessAll(txns, after, b, pc) && InRange(txns, group) && |nths| == |group|
    requires SomeFailed(txns, group, nths)
    ensures SomeFailed(after, group, nths)
  {
    var j :| 0 <= j < |group| && Failed(txns, group, nths, j);
    assert Harmless(b, txns[group[j]], after[group[j]]);
    assert Failed(after, group, nths, j);
  }

  lemma {:induction false} ReleaseKept(txns: seq<Txn>, after: seq<Txn>, b: nat, pc: Agent)
    requires HarmlessAll(txns, after, b, pc) && pc.SyncRelease? && GroupOk(txns, b, pc)
    ensures GroupOk(after, b, pc)
  {
    FailedKept(txns, after, b, pc, pc.group, pc.nths);
    forall j | 0 <= j < |pc.group|
      ensures var t, t' := txns[pc.group[j]], after[pc.group[j]];
        && (t'.owner == Some(b) <==> t.owner == Some(b))
        && (t.owner == Some(b) && IsCommitted(t.state) ==> IsCommitted(t'.state))
    {
      assert Harmless(b, txns[pc.group[j]], after[pc.group[j]]);
    }
  }

  lemma {:induction false} DoneKept(txns: seq<Txn>, after: seq<Txn>, b: nat, pc: Agent)
    requires HarmlessAll(txns, after, b, pc) && pc.SyncDone? && GroupOk(txns, b, pc)
    ensures GroupOk(after, b, pc)
  {
    if !pc.ok { FailedKept(txns, after, b, pc, pc.group, pc.nths); }
    forall j | 0 <= j < |pc.group|
      ensures var t, t' := txns[pc.group[j]], after[pc.group[j]];
        t'.owner != Some(b) && t.outcomes <= t'.outcomes
    {
      assert Harmless(b, txns[pc.group[j]], after[pc.group[j]]);
    }
  }

  lemma {:induction false} AgentKept(txns: seq<Txn>, after: seq<Txn>, b: nat, pc: Agent)
    requires HarmlessAll(txns, after, b, pc) && AgentOk(txns, b, pc) && InOrder(txns, b, pc)
    ensures InOrder(after, b, pc)
  {
    if pc.SyncComplete? {
      CompleteKept(txns, after, b, pc);
    } else if pc.SyncRelease? {
      ReleaseKept(txns, after, b, pc);
    } else if pc.SyncDone? {
      DoneKept(txns, after, b, pc);
    } else if OnOne(pc) {
      CallKept(txns[pc.c], after[pc.c], b, pc);
    }
  }

  /** What agent a is about to do does not clash with any other agent. */
  predicate Clashless(txns: seq<Txn>, agents: seq<Agent>, a: nat, pc: Agent) {
    forall b :: 0 <= b < |agents| && b != a ==> PairOk(txns, a, pc, agents[b]) && PairOk(txns, b, agents[b], pc)
  }

  ghost predicate OthersHarmless(s: State, after: seq<Txn>, a: nat) {
    forall b :: 0 <= b < |s.agents| && b != a ==> HarmlessAll(s.txns, after, b, s.agents[b])
  }

  lemma {:induction false} PairKept(txns: seq<Txn>, after: seq<Txn>, a: nat, pa: Agent, pb: Agent)
    requires PairOk(txns, a, pa, pb) && HarmlessAll(txns, after, a, pa)
    ensures PairOk(after, a, pa, pb)
  {
    if (pa.AbortLoad? || pa.AbortCas? || pa.AbortRelease?) && pa.c < |after| {
      assert Harmless(a, txns[pa.c], after[pa.c]);
    }
  }

  lemma {:induction false} RaceKept(s: State, after: seq<Txn>, a: nat, pc: Agent)
    requires NoRace(s.txns, s.agents) && a < |s.agents| && OthersHarmless(s, after, a)
    requires Clashless(after, s.agents, a, pc)
    ensures NoRace(after, s.agents[a := pc])
  {
    forall x, y | 0 <= x < |s.agents| && 0 <= y < |s.agents| && x != y && x != a && y != a
      ensures PairOk(after, x, s.agents[x], s.agents[y])
    {
      assert PairOk(s.txns, x, s.agents[x], s.agents[y]) && HarmlessAll(s.txns, after, x, s.agents[x]);
      PairKept(s.txns, after, x, s.agents[x], s.agents[y]);
    }
  }

  /** It is enough that the agent that changed the transactions is in order again. */
  lemma {:induction false} Restored(s: State, a: nat, pc: Agent, s': State)
    requires Owned(s) && a < |s.agents| && Inv(s') && !s'.failed && s'.agents == s.agents[a := pc]
    requires |s'.txns| == |s.txns| && OthersHarmless(s, s'.txns, a)
    requires InOrder(s'.txns, a, pc) && Clashless(s'.txns, s.agents, a, pc)
    ensures Owned(s')
  {
    RaceKept(s, s'.txns, a, pc);
    forall b | 0 <= b < |s.agents| && b != a ensures InOrder(s'.txns, b, s.agents[b]) {
      assert AgentOk(s.txns, b, s.agents[b]) && HarmlessAll(s.txns, s'.txns, b, s.agents[b]);
      AgentKept(s.txns, s'.txns, b, s.agents[b]);
    }
  }

  //---------------------------------------------------------------------------
  // Steps of Open, Abort and Commit
  //---------------------------------------------------------------------------

  lemma {:induction false} StepOwner(t: Txn, a: nat, pc: Agent)
    requires OnOne(pc) && TxnOk(t) && CallOk(t, a, pc) && OwnerOk(t, a, pc)
    ensures var (t', pc', ok) := StepOne(t, a, pc);
      ok && (OnOne(pc') ==> OwnerOk(t', a, pc'))
  {
  }

  lemma {:induction false} StepHarmless(t: Txn, a: nat, pc: Agent, b: nat)
    requires OnOne(pc) && CallOk(t, a, pc) && OwnerOk(t, a, pc) && a != b
    ensures var t' := StepOne(t, a, pc).0;
      && Harmless(b, t, t')
      && (!TakingOwnership(pc, pc.c) ==> t'.owner == None || t'.owner == t.owner)
      && (!Opening(pc, pc.c) && IsCommitted(t.state) ==> IsCommitted(t'.state))
  {
  }

  lemma {:induction false} StepClashless(s: State, a: nat, after: seq<Txn>, pc': Agent)
    requires Owned(s) && a < |s.agents| && OnOne(s.agents[a]) && s.agents[a].c < |s.txns|
    requires var (t', pc'', _) := StepOne(s.txns[s.agents[a].c], a, s.agents[a]);
      after == s.txns[s.agents[a].c := t'] && pc' == pc''
    ensures Clashless(after, s.agents, a, pc')
  {
    var pc := s.agents[a];
    forall b | 0 <= b < |s.agents| && b != a
      ensures PairOk(after, a, pc', s.agents[b]) && PairOk(after, b, s.agents[b], pc')
    {
      assert PairOk(s.txns, a, pc, s.agents[b]) && PairOk(s.txns, b, s.agents[b], pc);
    }
  }

  lemma {:induction false} StepOthers(s: State, a: nat, after: seq<Txn>)
    requires Owned(s) && a < |s.agents| && OnOne(s.agents[a]) && s.agents[a].c < |s.txns|
    requires after == s.txns[s.agents[a].c := StepOne(s.txns[s.agents[a].c], a, s.agents[a]).0]
    ensures OthersHarmless(s, after, a)
  {
    var pc := s.agents[a];
    assert AgentOk(s.txns, a, pc) && InOrder(s.txns, a, pc);
    forall b | 0 <= b < |s.agents| && b != a ensures HarmlessAll(s.txns, after, b, s.agents[b]) {
      assert PairOk(s.txns, b, s.agents[b], pc);
      StepHarmless(s.txns[pc.c], a, pc, b);
    }
  }

  lemma {:induction false} DoOneKeeps(s: State, a: nat, s': State)
    requires Owned(s) && a < |s.agents| && OnOne(s.agents[a]) && s.agents[a].c < |s.txns|
    requires s' == DoOne(s, a) && Inv(s')
    ensures Owned(s')
  {
    var pc := s.agents[a];
    assert TxnOk(s.txns[pc.c]) && AgentOk(s.txns, a, pc) && InOrder(s.txns, a, pc);
    var (t', pc', _) := StepOne(s.txns[pc.c], a, pc);
    StepOwner(s.txns[pc.c], a, pc);
    StepOneSelf(s.txns[pc.c], a, pc);
    StepOthers(s, a, s'.txns);
    StepClashless(s, a, s'.txns, pc');
    Restored(s, a, pc', s');
  }

  //---------------------------------------------------------------------------
  // Steps of the kernel and of callers
  //---------------------------------------------------------------------------

  lemma {:induction false} Same(s: State, a: nat)
    ensures OthersHarmless(s, s.txns, a)
  {
    forall b | 0 <= b < |s.agents| && b != a ensures HarmlessAll(s.txns, s.txns, b, s.agents[b]) {}
  }

  /** A step that changes only what agent a is about to do. */
  lemma {:induction false} AgentAlone(s: State, a: nat, pc: Agent, s': State)
    requires Owned(s) && a < |s.agents| && s' == s.(agents := s.agents[a := pc]) && Inv(s')
    requires InOrder(s.txns, a, pc) && Clashless(s.txns, s.agents, a, pc)
    ensures Owned(s')
  {
    Same(s, a);
    Restored(s, a, pc, s');
  }

  lemma {:induction false} KernelHarmless(b: nat, t: Txn, t': Txn)
    requires KernelStep(t, t')
    ensures Harmless(b, t, t')
  {
  }

  lemma {:induction false} KernelOthers(txns: seq<Txn>, after: seq<Txn>, b: nat, pc: Agent)
    requires KernelChange(txns, after)
    ensures HarmlessAll(txns, after, b, pc)
  {
    forall c | 0 <= c < |after| ensures Harmless(b, txns[c], after[c]) { KernelHarmless(b, txns[c], after[c]); }
  }

  lemma {:induction false} KernelKeeps(s: State, after: seq<Txn>)
    requires Owned(s) && KernelChange(s.txns, after) && Inv(s.(txns := after))
    ensures Owned(s.(txns := after))
  {
    forall b | 0 <= b < |s.agents| ensures InOrder(after, b, s.agents[b]) {
      assert AgentOk(s.txns, b, s.agents[b]) && InOrder(s.txns, b, s.agents[b]);
      KernelOthers(s.txns, after, b, s.agents[b]);
      AgentKept(s.txns, after, b, s.agents[b]);
    }
    forall x, y | 0 <= x < |s.agents| && 0 <= y < |s.agents| && x != y
      ensures PairOk(after, x, s.agents[x], s.agents[y])
    {
      assert PairOk(s.txns, x, s.agents[x], s.agents[y]);
      KernelOthers(s.txns, after, x, s.agents[x]);
      PairKept(s.txns, after, x, s.agents[x], s.agents[y]);
    }
  }

  lemma {:induction false} LockHarmless(t: Txn, a: nat, b: nat)
    requires t.lock == None
    ensures Harmless(b, t, t.(lock := Some(a)))
  {
  }

  lemma {:induction false} StartOpenKeeps(s: State, act: Action)
    requires Owned(s) && Enabled(s, act) && act.StartOpen? && Promised(s, act) && Inv(Next(s, act))
    ensures Owned(Next(s, act))
  {
    var a, s' := act.a, Next(s, act);
    var pc := OpenWait(act.c, act.fields, act.owned);
    assert OthersHarmless(s, s'.txns, a) by {
      forall b | 0 <= b < |s.agents| && b != a ensures HarmlessAll(s.txns, s'.txns, b, s.agents[b]) {
        LockHarmless(s.txns[act.c], a, b);
      }
    }
    forall b | 0 <= b < |s.agents| && b != a
      ensures PairOk(s'.txns, a, pc, s.agents[b]) && PairOk(s'.txns, b, s.agents[b], pc)
    {
      assert !Committing(s.agents[b], act.c);
      assert act.owned && Aborting(s.agents[b], act.c) ==> s.txns[act.c].owner == Some(b);
    }
    Restored(s, a, pc, s');
  }

  lemma {:induction false} StartAbortKeeps(s: State, act: Action)
    requires Owned(s) && Enabled(s, act) && act.StartAbort? && Promised(s, act) && Inv(Next(s, act))
    ensures Owned(Next(s, act))
  {
    var a, c := act.a, act.c;
    forall b | 0 <= b < |s.agents| && b != a
      ensures PairOk(s.txns, a, AbortLoad(c), s.agents[b]) && PairOk(s.txns, b, s.agents[b], AbortLoad(c))
    {
      assert InOrder(s.txns, b, s.agents[b]);
    }
    AgentAlone(s, a, AbortLoad(c), Next(s, act));
  }

  lemma {:induction false} StartCommitKeeps(s: State, act: Action)
    requires Owned(s) && Enabled(s, act) && act.StartCommit? && Promised(s, act) && Inv(Next(s, act))
    ensures Owned(Next(s, act))
  {
    AgentAlone(s, act.a, CompleteWait(act.c, |s.txns[act.c].opens|), Next(s, act));
  }

  lemma {:induction false} ReturnKeeps(s: State, act: Action)
    requires Owned(s) && Enabled(s, act) && act.Return? && Inv(Next(s, act))
    ensures Owned(Next(s, act))
  {
    AgentAlone(s, act.a, Free, Next(s, act));
  }

  //---------------------------------------------------------------------------
  // Steps of a sync commit
  //---------------------------------------------------------------------------

  predicate IsSync(pc: Agent) { pc.SyncComplete? || pc.SyncRelease? || pc.SyncDone? }

  lemma {:induction false} SyncClashless(txns: seq<Txn>, agents: seq<Agent>, a: nat, pc: Agent)
    requires IsSync(pc)
    ensures Clashless(txns, agents, a, pc)
  {
  }

  lemma {:induction false} CompleteOk(txns: seq<Txn>, a: nat, pc: Agent)
    requires pc.SyncComplete? && GroupOk(txns, a, pc)
    requires pc.i < |pc.group| && IsCommitted(txns[pc.group[pc.i]].state)
    ensures GroupOk(txns, a, pc.(i := pc.i + 1, failure := pc.failure || txns[pc.group[pc.i]].state != COMPLETE))
  {
    var i := pc.i;
    if pc.failure {
      var j :| 0 <= j < i && txns[pc.group[j]].state != COMPLETE;
      assert 0 <= j < i + 1;
    }
  }

  lemma {:induction false} FailedIs(t: Txn, nth: nat)
    requires TxnOk(t) && IsCommitted(t.state) && Final(t) != COMPLETE && nth == |t.opens| > 0
    ensures 0 < nth <= |t.outcomes| && t.outcomes[nth - 1] != COMPLETE
  {
  }

  lemma {:induction false} CompletedOk(txns: seq<Txn>, a: nat, pc: Agent)
    requires pc.SyncComplete? && GroupOk(txns, a, pc) && pc.i == |pc.group| && TxnsOk(txns)
    ensures pc.failure && GroupOk(txns, a, SyncRelease(pc.group, pc.nths, 0))
  {
    var j :| 0 <= j < |pc.group| && Final(txns[pc.group[j]]) != COMPLETE;
    FailedIs(txns[pc.group[j]], pc.nths[j]);
    assert Failed(txns, pc.group, pc.nths, j);
  }

  /** The next transaction has been seen committed. */
  lemma {:induction false} CompleteNext(s: State, a: nat, pc: Agent, s': State)
    requires Owned(s) && a < |s.agents| && pc.SyncComplete? && GroupOk(s.txns, a, pc)
    requires s' == s.(agents := s.agents[a := pc]) && Inv(s')
    ensures Owned(s')
  {
    SyncClashless(s.txns, s.agents, a, pc);
    AgentAlone(s, a, pc, s');
  }

  lemma {:induction false} CompleteKeeps(s: State, a: nat, s': State)
    requires Owned(s) && Enabled(s, AgentStep(a)) && s.agents[a].SyncComplete? && s' == DoSync(s, a) && Inv(s')
    ensures Owned(s')
  {
    var pc := s.agents[a];
    assert InOrder(s.txns, a, pc);
    if pc.i == |pc.group| {
      CompletedOk(s.txns, a, pc);
      SyncClashless(s.txns, s.agents, a, s'.agents[a]);
      AgentAlone(s, a, s'.agents[a], s');
    } else if IsCommitted(s.txns[pc.group[pc.i]].state) {
      assert TxnOk(s.txns[pc.group[pc.i]]);
      CompleteOk(s.txns, a, pc);
      CompleteNext(s, a, s'.agents[a], s');
    }
  }

  lemma {:induction false} ReleaseOk(txns: seq<Txn>, a: nat, pc: Agent)
    requires pc.SyncRelease? && GroupOk(txns, a, pc) && pc.i < |pc.group|
    ensures var c := pc.group[pc.i];
      GroupOk(txns[c := txns[c].(owner := None)], a, SyncRelease(pc.group, pc.nths, pc.i + 1))
  {
    var c := pc.group[pc.i];
    var after := txns[c := txns[c].(owner := None)];
    var j :| 0 <= j < |pc.group| && Failed(txns, pc.group, pc.nths, j);
    assert Failed(after, pc.group, pc.nths, j);
  }

  lemma {:induction false} ReleaseHarmless(t: Txn, a: nat, b: nat)
    requires t.owner == Some(a) && IsCommitted(t.state) && b != a
    ensures Harmless(b, t, t.(owner := None))
  {
  }

  lemma {:induction false} ReleaseOthers(s: State, a: nat, c: nat, after: seq<Txn>)
    requires c < |s.txns| && s.txns[c].owner == Some(a) && IsCommitted(s.txns[c].state)
    requires after == s.txns[c := s.txns[c].(owner := None)]
    ensures OthersHarmless(s, after, a)
  {
    forall b | 0 <= b < |s.agents| && b != a ensures HarmlessAll(s.txns, after, b, s.agents[b]) {
      ReleaseHarmless(s.txns[c], a, b);
    }
  }

  lemma {:induction false} ReleaseOne(s: State, a: nat, c: nat, pc: Agent, s': State)
    requires Owned(s) && a < |s.agents| && c < |s.txns| && s.txns[c].owner == Some(a) && IsCommitted(s.txns[c].state)
    requires s' == Set(s, a, pc, c, s.txns[c].(owner := None)) && Inv(s') && pc.SyncRelease? && GroupOk(s'.txns, a, pc)
    ensures Owned(s')
  {
    ReleaseOthers(s, a, c, s'.txns);
    SyncClashless(s'.txns, s.agents, a, pc);
    Restored(s, a, pc, s');
  }

  lemma {:induction false} ReleaseKeeps(s: State, a: nat, s': State)
    requires Owned(s) && Enabled(s, AgentStep(a)) && s.agents[a].SyncRelease? && s' == DoSync(s, a) && Inv(s')
    ensures Owned(s')
  {
    var pc := s.agents[a];
    assert InOrder(s.txns, a, pc);
    if pc.i < |pc.group| {
      ReleaseOk(s.txns, a, pc);
      ReleaseOne(s, a, pc.group[pc.i], s'.agents[a], s');
    } else {
      SyncClashless(s.txns, s.agents, a, s'.agents[a]);
      AgentAlone(s, a, s'.agents[a], s');
    }
  }

  lemma {:induction false} SucceedHarmless(t: Txn, a: nat, b: nat)
    requires TxnOk(t) && t.owner == Some(a) && (IsOpen(t.state) || t.state == COMPLETE) && b != a
    ensures Harmless(b, t, Succeed(t))
  {
    SucceedOk(t, b);
  }

  lemma {:induction false} SucceededOk(txns: seq<Txn>, after: seq<Txn>, a: nat, group: seq<nat>)
    requires |after| == |txns| && InRange(txns, group)
    requires forall j :: 0 <= j < |group| ==> var t, t' := txns[group[j]], after[group[j]];
      TxnOk(t') && t'.owner == None && t'.state == COMPLETE && t'.opens == t.opens != []
    ensures GroupOk(after, a, SyncDone(group, OpenCounts(txns, group), true))
  {
    forall j | 0 <= j < |group| ensures Outcome(after[group[j]], |txns[group[j]].opens|, COMPLETE) {
      assert TxnOk(after[group[j]]);
    }
  }

  lemma {:induction false} SucceedOthers(s: State, a: nat, group: seq<nat>, after: seq<Txn>)
    requires Owned(s) && Enabled(s, SyncSucceeds(a, group)) && after == SucceedAll(s.txns, group)
    ensures OthersHarmless(s, after, a)
  {
    SucceedAllIs(s.txns, group);
    forall b | 0 <= b < |s.agents| && b != a ensures HarmlessAll(s.txns, after, b, s.agents[b]) {
      forall c | 0 <= c < |after| ensures Harmless(b, s.txns[c], after[c]) {
        if c in group { SucceedHarmless(s.txns[c], a, b); }
      }
    }
  }

  lemma {:induction false} SyncSucceedsKeeps(s: State, a: nat, group: seq<nat>, s': State)
    requires Owned(s) && Enabled(s, SyncSucceeds(a, group)) && s' == Next(s, SyncSucceeds(a, group)) && Inv(s')
    ensures Owned(s')
  {
    assert GroupOk(s'.txns, a, s'.agents[a]) by {
      SucceedAllIs(s.txns, group);
      forall j | 0 <= j < |group|
        ensures var t, t' := s.txns[group[j]], s'.txns[group[j]];
          TxnOk(t') && t'.owner == None && t'.state == COMPLETE && t'.opens == t.opens != []
      {
        assert group[j] in group;
        SucceedOk(s.txns[group[j]], a);
      }
      SucceededOk(s.txns, s'.txns, a, group);
    }
    SucceedOthers(s, a, group, s'.txns);
    SyncClashless(s'.txns, s.agents, a, s'.agents[a]);
    Restored(s, a, s'.agents[a], s');
  }

  lemma {:induction false} AfterFailOk(txns: seq<Txn>, after: seq<Txn>, a: nat, group: seq<nat>)
    requires |after| == |txns| && InRange(txns, group) && NoRepeats(group)
    requires forall j :: 0 <= j < |group| ==> var t, t' := txns[group[j]], after[group[j]];
      t'.owner == Some(a) && !IsOpen(t'.state) && t'.opens == t.opens != []
    requires exists j :: 0 <= j < |group| && Final(after[group[j]]) != COMPLETE
    ensures GroupOk(after, a, SyncComplete(group, OpenCounts(txns, group), 0, false))
  {
  }

  lemma {:induction false} SyncFailsKeeps(s: State, a: nat, group: seq<nat>, fates: seq<int>, s': State)
    requires Owned(s) && Enabled(s, SyncFails(a, group, fates)) && s' == Next(s, SyncFails(a, group, fates)) && Inv(s')
    ensures Owned(s')
  {
    var after := s'.txns;
    FailAllIs(s.txns, group, fates);
    forall b | 0 <= b < |s.agents| && b != a ensures HarmlessAll(s.txns, after, b, s.agents[b]) {
      KernelOthers(s.txns, after, b, s.agents[b]);
    }
    forall j | 0 <= j < |group|
      ensures var t, t' := s.txns[group[j]], after[group[j]];
        t'.owner == Some(a) && !IsOpen(t'.state) && t'.opens == t.opens != []
    {
      assert group[j] in group;
    }
    AfterFailOk(s.txns, after, a, group);
    SyncClashless(after, s.agents, a, s'.agents[a]);
    Restored(s, a, s'.agents[a], s');
  }

  //---------------------------------------------------------------------------
  // Every step and every run
  //---------------------------------------------------------------------------

  lemma {:induction false} AgentStepKeeps(s: State, a: nat)
    requires Owned(s) && Enabled(s, AgentStep(a)) && Inv(Next(s, AgentStep(a)))
    ensures Owned(Next(s, AgentStep(a)))
  {
    var pc := s.agents[a];
    if OnOne(pc) {
      DoOneKeeps(s, a, DoOne(s, a));
    } else if pc.SyncComplete? {
      CompleteKeeps(s, a, DoSync(s, a));
    } else {
      ReleaseKeeps(s, a, DoSync(s, a));
    }
  }

  lemma {:induction false} CallerKeeps(s: State, act: Action)
    requires Owned(s) && Enabled(s, act) && Promised(s, act) && Inv(Next(s, act))
    requires act.StartOpen? || act.StartAbort? || act.StartCommit? || act.Return?
    ensures Owned(Next(s, act))
  {
    match act
    case StartOpen(_, _, _, _) => StartOpenKeeps(s, act);
    case StartAbort(_, _) => StartAbortKeeps(s, act);
    case StartCommit(_, _) => StartCommitKeeps(s, act);
    case Return(_) => ReturnKeeps(s, act);
  }

  lemma {:induction false} StepKeeps(s: State, act: Action)
    requires Owned(s) && Enabled(s, act) && Promised(s, act)
    ensures Owned(Next(s, act))
  {
    RunRequest.StepKeeps(s, act);
    if IsKernels(act) {
      KernelActs(s, act);
      KernelKeeps(s, Next(s, act).txns);
    } else if act.SyncSucceeds? {
      SyncSucceedsKeeps(s, act.a, act.group, Next(s, act));
    } else if act.SyncFails? {
      SyncFailsKeeps(s, act.a, act.group, act.fates, Next(s, act));
    } else if act.AgentStep? {
      AgentStepKeeps(s, act.a);
    } else {
      CallerKeeps(s, act);
    }
  }

  /** A run in which callers keep their side. */
  ghost predicate KeptRun(states: seq<State>, actions: seq<Action>) {
    && Run(states, actions)
    && forall i :: 0 <= i < |actions| ==> Steps(states[i], actions[i], states[i + 1]) && Promised(states[i], actions[i])
  }

  lemma {:induction false} RunKeepsOwned(states: seq<State>, actions: seq<Action>, i: nat)
    requires KeptRun(states, actions) && i < |states|
    ensures Owned(states[i])
  {
    RunKeepsInv(states, actions, i);
    if i > 0 {
      RunKeepsOwned(states, actions, i - 1);
      assert Steps(states[i - 1], actions[i - 1], states[i]);
      StepKeeps(states[i - 1], actions[i - 1]);
    }
  }

  /** No CHECK on the way fails. */
  lemma {:induction false} ChecksNeverFail(states: seq<State>, actions: seq<Action>, i: nat)
    requires KeptRun(states, actions) && i < |states|
    ensures !states[i].failed
  {
    RunKeepsOwned(states, actions, i);
  }

  /**
   When CommitSyncRequests returns, the agent owns no transaction of the group, and it returns true
   exactly if every one of them completed.
   */
  lemma {:induction false} SyncCommitReleases(states: seq<State>, actions: seq<Action>, i: nat, a: nat)
    requires KeptRun(states, actions) && i < |states| && a < |states[i].agents| && states[i].agents[a].SyncDone?
    ensures var s, pc := states[i], states[i].agents[a];
      && InRange(s.txns, pc.group) && |pc.nths| == |pc.group|
      && (forall j :: 0 <= j < |pc.group| ==> s.txns[pc.group[j]].owner != Some(a))
      && (pc.ok <==> forall j :: 0 <= j < |pc.group| ==> Outcome(s.txns[pc.group[j]], pc.nths[j], COMPLETE))
  {
    RunKeepsOwned(states, actions, i);
    var s, pc := states[i], states[i].agents[a];
    assert InOrder(s.txns, a, pc);
    if !pc.ok {
      var j :| 0 <= j < |pc.group| && Failed(s.txns, pc.group, pc.nths, j);
      assert !Outcome(s.txns[pc.group[j]], pc.nths[j], COMPLETE);
    }
  }
}
