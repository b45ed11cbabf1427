/** Run-request transactions in memory shared with the kernel. */
module RunRequest {
  /*
   Any number of agents open, abort and commit the transactions of any number of CPUs, while the kernel
   claims and commits them at any time.  Fields are written and read one at a time.  What is proved here
   holds however the calls of different agents overlap; module RunRequestOwnership adds what holds when
   callers keep their side.
   */

  import opened Common

  //---------------------------------------------------------------------------
  // Transaction states
  //---------------------------------------------------------------------------

  const MAX_CPUS := 512
  const READY := 0x7fff_ffff
  const COMPLETE := -0x8000_0000
  const ABORTED := COMPLETE + 1
  const TARGET_ONCPU := COMPLETE + 2
  const TARGET_STALE := COMPLETE + 3
  const TARGET_NOT_FOUND := COMPLETE + 4
  const AGENT_STALE := COMPLETE + 6
  const CPU_UNAVAIL := COMPLETE + 8
  const NO_AGENT := COMPLETE + 13
  const POISONED := COMPLETE + 15

  predicate IsOpen(state: int) { state == READY }

  predicate IsClaimed(state: int) { 0 <= state < MAX_CPUS }

  predicate IsCommitted(state: int) { state < 0 }

  /** The outcomes that CompleteRunRequest accepts from the kernel. */
  predicate KernelOutcome(state: int) {
    state in {COMPLETE, TARGET_ONCPU, TARGET_STALE, TARGET_NOT_FOUND, AGENT_STALE, CPU_UNAVAIL, NO_AGENT, POISONED}
  }

  //---------------------------------------------------------------------------
  // States
  //---------------------------------------------------------------------------

  const NUM_FIELDS := 5

  /**
   lock is the lock under which callers serialize Open.  fate is the outcome that the kernel will
   store for the transaction it has claimed.  The last five fields record history: the state at the
   beginning, the fields of each Open, the outcome of each, which ones were claimed, and what the
   kernel read of them.
   */
  datatype Txn = Txn(
    state: int,
    owner: Option<nat>,
    fields: seq<int>,
    lock: Option<nat>,
    fate: int,
    initial: int,
    opens: seq<seq<int>>,
    outcomes: seq<int>,
    claimed: set<nat>,
    taken: map<nat, seq<int>>)

  /**
   Where an agent is.  nth is how often the transaction had been opened when the call took effect,
   first how often when it began.
   */
  datatype Agent =
    | Free
    | OpenWait(c: nat, fields: seq<int>, owned: bool)
    | OpenWrite(c: nat, fields: seq<int>, owned: bool, k: nat)
    | OpenOwner(c: nat, fields: seq<int>, owned: bool)
    | OpenReady(c: nat, fields: seq<int>, owned: bool)
    | AbortLoad(c: nat)
    | AbortCas(c: nat)
    | AbortRelease(c: nat, nth: nat)
    | AbortDone(c: nat, nth: nat, ok: bool)
    | CompleteWait(c: nat, first: nat)
    | CompleteRead(c: nat, first: nat)
    | CommitDone(c: nat, first: nat, nth: nat, ok: bool)
    | SyncComplete(group: seq<nat>, nths: seq<nat>, i: nat, failure: bool)
    | SyncRelease(group: seq<nat>, nths: seq<nat>, i: nat)
    | SyncDone(group: seq<nat>, nths: seq<nat>, ok: bool)

  datatype State = State(txns: seq<Txn>, agents: seq<Agent>, failed: bool)

  datatype Action =
    | StartOpen(a: nat, c: nat, fields: seq<int>, owned: bool)
    | StartAbort(a: nat, c: nat)
    | StartCommit(a: nat, c: nat)
    | SyncSucceeds(a: nat, group: seq<nat>)
    | SyncFails(a: nat, group: seq<nat>, fates: seq<int>)
    | AgentStep(a: nat)
    | Return(a: nat)
    | Claim(c: nat, cpu: nat, fate: int)
    | TakeField(c: nat)
    | Commit(c: nat)

  function Set(s: State, a: nat, pc: Agent, c: nat, t: Txn): State
    requires a < |s.agents| && c < |s.txns|
  {
    s.(agents := s.agents[a := pc], txns := s.txns[c := t])
  }

  function Check(s: State, b: bool): State { s.(failed := s.failed || !b) }

  //---------------------------------------------------------------------------
  // One transaction: Open, Abort, Commit
  //---------------------------------------------------------------------------

  function Finish(t: Txn, outcome: int): Txn {
    t.(state := outcome, outcomes := t.outcomes + [outcome])
  }

  predicate OnOne(pc: Agent) {
    pc.OpenWait? || pc.OpenWrite? || pc.OpenOwner? || pc.OpenReady?
    || pc.AbortLoad? || pc.AbortCas? || pc.AbortRelease? || pc.CompleteWait? || pc.CompleteRead?
  }

  /**
   What one step of agent a does to its transaction and to the agent itself, and whether the
   CHECKs on the way hold.
   */
  function StepOne(t: Txn, a: nat, pc: Agent): (Txn, Agent, bool)
    requires OnOne(pc)
  {
    match pc
    case OpenWait(c, fields, owned) =>
      if t.owner.Some? then (t, pc, owned)
      else if !IsCommitted(t.state) then (t, pc, false)
      else (t, OpenWrite(c, fields, owned, 0), true)
    case OpenWrite(c, fields, owned, k) =>
      if k < |t.fields| && k < |fields| then
        (t.(fields := t.fields[k := fields[k]]), OpenWrite(c, fields, owned, k + 1), true)
      else (t, OpenOwner(c, fields, owned), true)
    case OpenOwner(c, fields, owned) => (if owned then t.(owner := Some(a)) else t, OpenReady(c, fields, owned), true)
    case OpenReady(c, fields, owned) => (t.(state := READY, lock := None, opens := t.opens + [fields]), Free, true)
    case AbortLoad(c) => (t, if IsOpen(t.state) then AbortCas(c) else AbortDone(c, |t.opens|, false), true)
    case AbortCas(c) =>
      if IsOpen(t.state) then (Finish(t, ABORTED), AbortRelease(c, |t.opens|), true)
      else (t, AbortDone(c, |t.opens|, false), true)
    case AbortRelease(c, nth) => (t.(owner := None), AbortDone(c, nth, true), true)
    case CompleteWait(c, first) => (t, if IsCommitted(t.state) then CompleteRead(c, first) else pc, true)
    case CompleteRead(c, first) =>
      if KernelOutcome(t.state) || t.state == ABORTED then
        (t, CommitDone(c, first, |t.opens|, t.state == COMPLETE), true)
      else (t, pc, false)
  }

  function DoOne(s: State, a: nat): State
    requires a < |s.agents| && OnOne(s.agents[a]) && s.agents[a].c < |s.txns|
  {
    var c := s.agents[a].c;
    var (t, pc, ok) := StepOne(s.txns[c], a, s.agents[a]);
    Check(Set(s, a, pc, c, t), ok)
  }

  //---------------------------------------------------------------------------
  // A sync group
  //---------------------------------------------------------------------------

  predicate InRange(txns: seq<Txn>, group: seq<nat>) {
    forall j :: 0 <= j < |group| ==> group[j] < |txns|
  }

  /** CompleteRunRequest for each CPU of a group whose commit failed, then ReleaseSyncRequests. */
  function DoSync(s: State, a: nat): State
    requires a < |s.agents| && (s.agents[a].SyncComplete? || s.agents[a].SyncRelease?)
    requires InRange(s.txns, s.agents[a].group)
  {
    match s.agents[a]
    case SyncComplete(group, nths, i, failure) =>
      if i >= |group| then Check(s.(agents := s.agents[a := SyncRelease(group, nths, 0)]), failure)
      else
        var state := s.txns[group[i]].state;
        if !IsCommitted(state) then s
        else Check(s.(agents := s.agents[a := SyncComplete(group, nths, i + 1, failure || state != COMPLETE)]),
                   KernelOutcome(state) || state == ABORTED)
    case SyncRelease(group, nths, i) =>
      if i >= |group| then s.(agents := s.agents[a := SyncDone(group, nths, false)])
      else
        var t := s.txns[group[i]];
        if !IsCommitted(t.state) || t.owner == None then Check(s, false)
        else Set(s, a, SyncRelease(group, nths, i + 1), group[i], t.(owner := None))
  }

  //---------------------------------------------------------------------------
  // The kernel
  //---------------------------------------------------------------------------

  function DoClaim(t: Txn, cpu: nat, fate: int): Txn
    requires t.opens != []
  {
    var k := |t.opens| - 1;
    t.(state := cpu, fate := fate, claimed := t.claimed + {k}, taken := t.taken[k := []])
  }

  /** What the transaction will end with, or has ended with. */
  function Final(t: Txn): int { if IsCommitted(t.state) then t.state else t.fate }

  /** A sync commit that succeeds has claimed, committed and released each transaction. */
  function Succeed(t: Txn): Txn {
    if IsOpen(t.state) && t.opens != [] then
      var k := |t.opens| - 1;
      Finish(DoClaim(t, 0, COMPLETE), COMPLETE).(owner := None, taken := t.taken[k := t.fields])
    else t.(owner := None)
  }

  /** One that fails leaves each transaction claimed or committed. */
  function Fail(t: Txn, fate: int): Txn {
    if IsOpen(t.state) && t.opens != [] then DoClaim(t, 0, fate) else t
  }

  function SucceedAll(txns: seq<Txn>, group: seq<nat>): (after: seq<Txn>)
    requires InRange(txns, group)
    ensures |after| == |txns|
    decreases |group|
  {
    if group == [] then txns else SucceedAll(txns[group[0] := Succeed(txns[group[0]])], group[1..])
  }

  function FailAll(txns: seq<Txn>, group: seq<nat>, fates: seq<int>): (after: seq<Txn>)
    requires InRange(txns, group) && |fates| == |group|
    ensures |after| == |txns|
    decreases |group|
  {
    if group == [] then txns else FailAll(txns[group[0] := Fail(txns[group[0]], fates[0])], group[1..], fates[1..])
  }

  //---------------------------------------------------------------------------
  // Steps
  //---------------------------------------------------------------------------

  function OpenCounts(txns: seq<Txn>, group: seq<nat>): (nths: seq<nat>)
    requires InRange(txns, group)
    ensures |nths| == |group| && forall j :: 0 <= j < |group| ==> nths[j] == |txns[group[j]].opens|
  {
    seq(|group|, j requires 0 <= j < |group| && group[j] < |txns| => |txns[group[j]].opens|)
  }

  predicate NoRepeats(group: seq<nat>) {
    forall i, j :: 0 <= i < j < |group| ==> group[i] != group[j]
  }

  predicate IsFree(s: State, a: nat) { a < |s.agents| && s.agents[a] == Free }

  /** Agent a may commit this group: it opened each transaction with ownership. */
  predicate CanSync(s: State, a: nat, group: seq<nat>) {
    && IsFree(s, a) && NoRepeats(group) && InRange(s.txns, group)
    && forall j :: 0 <= j < |group| ==> s.txns[group[j]].owner == Some(a) && s.txns[group[j]].opens != []
  }

  /**
   A failed CHECK ends the process, so that only the kernel goes on.  Callers serialize Open by a
   lock.  The kernel claims only READY transactions, never reports ABORTED, and answers a sync
   commit as described above.
   */
  predicate Enabled(s: State, act: Action) {
    match act
    case StartOpen(a, c, fields, owned) =>
      !s.failed && IsFree(s, a) && c < |s.txns| && |fields| == NUM_FIELDS && s.txns[c].lock == None
    case StartAbort(a, c) => !s.failed && IsFree(s, a) && c < |s.txns|
    case StartCommit(a, c) => !s.failed && IsFree(s, a) && c < |s.txns|
    case SyncSucceeds(a, group) =>
      && !s.failed && CanSync(s, a, group)
      && forall j :: 0 <= j < |group| ==> IsOpen(s.txns[group[j]].state) || s.txns[group[j]].state == COMPLETE
    case SyncFails(a, group, fates) =>
      && !s.failed && CanSync(s, a, group) && |fates| == |group|
      && (forall j :: 0 <= j < |fates| ==> KernelOutcome(fates[j]))
      && exists j :: 0 <= j < |group| && Final(FailAll(s.txns, group, fates)[group[j]]) != COMPLETE
    case AgentStep(a) =>
      && !s.failed && a < |s.agents|
      && if OnOne(s.agents[a]) then s.agents[a].c < |s.txns|
         else (s.agents[a].SyncComplete? || s.agents[a].SyncRelease?) && InRange(s.txns, s.agents[a].group)
    case Return(a) =>
      !s.failed && a < |s.agents| && (s.agents[a].AbortDone? || s.agents[a].CommitDone? || s.agents[a].SyncDone?)
    case Claim(c, cpu, fate) =>
      c < |s.txns| && IsOpen(s.txns[c].state) && s.txns[c].opens != [] && cpu < MAX_CPUS && KernelOutcome(fate)
    case TakeField(c) =>
      && c < |s.txns| && IsClaimed(s.txns[c].state) && var t := s.txns[c];
      |t.opens| - 1 in t.taken && |t.taken[|t.opens| - 1]| < |t.fields|
    case Commit(c) =>
      && c < |s.txns| && IsClaimed(s.txns[c].state) && var t := s.txns[c];
      t.fate == COMPLETE ==> |t.opens| - 1 in t.taken && |t.taken[|t.opens| - 1]| >= NUM_FIELDS
  }

  function DoTake(t: Txn): Txn
    requires |t.opens| - 1 in t.taken && |t.taken[|t.opens| - 1]| < |t.fields|
  {
    var k := |t.opens| - 1;
    t.(taken := t.taken[k := t.taken[k] + [t.fields[|t.taken[k]|]]])
  }

  function Next(s: State, act: Action): State
    requires Enabled(s, act)
  {
    match act
    case StartOpen(a, c, fields, owned) => Set(s, a, OpenWait(c, fields, owned), c, s.txns[c].(lock := Some(a)))
    case StartAbort(a, c) => s.(agents := s.agents[a := AbortLoad(c)])
    case StartCommit(a, c) => s.(agents := s.agents[a := CompleteWait(c, |s.txns[c].opens|)])
    case SyncSucceeds(a, group) =>
      s.(txns := SucceedAll(s.txns, group), agents := s.agents[a := SyncDone(group, OpenCounts(s.txns, group), true)])
    case SyncFails(a, group, fates) =>
      s.(txns := FailAll(s.txns, group, fates),
         agents := s.agents[a := SyncComplete(group, OpenCounts(s.txns, group), 0, false)])
    case AgentStep(a) => if OnOne(s.agents[a]) then DoOne(s, a) else DoSync(s, a)
    case Return(a) => s.(agents := s.agents[a := Free])
    case Claim(c, cpu, fate) => s.(txns := s.txns[c := DoClaim(s.txns[c], cpu, fate)])
    case TakeField(c) => s.(txns := s.txns[c := DoTake(s.txns[c])])
    case Commit(c) => s.(txns := s.txns[c := Finish(s.txns[c], s.txns[c].fate)])
  }

  predicate Init(s: State) {
    && !s.failed
    && (forall a :: 0 <= a < |s.agents| ==> s.agents[a] == Free)
    && forall c :: 0 <= c < |s.txns| ==> var t := s.txns[c];
       && (KernelOutcome(t.state) || t.state == ABORTED) && t.owner == None && t.lock == None
       && |t.fields| == NUM_FIELDS && t.initial == t.state
       && t.opens == [] && t.outcomes == [] && t.claimed == {} && t.taken == map[]
  }

  //---------------------------------------------------------------------------
  // Invariant
  //---------------------------------------------------------------------------

  predicate TxnOk(t: Txn) {
    var n := |t.opens|;
    && |t.fields| == NUM_FIELDS
    && (forall k :: 0 <= k < n ==> |t.opens[k]| == NUM_FIELDS)
    && (if IsCommitted(t.state) then
          |t.outcomes| == n && t.state == (if n > 0 then t.outcomes[n - 1] else t.initial)
          && (KernelOutcome(t.state) || t.state == ABORTED)
        else
          |t.outcomes| + 1 == n && t.fields == t.opens[n - 1])
    && (IsOpen(t.state) ==> n - 1 !in t.claimed)
    && (!IsOpen(t.state) && !IsCommitted(t.state) ==>
          IsClaimed(t.state) && n - 1 in t.claimed && KernelOutcome(t.fate) && n - 1 in t.taken)
    && (forall k :: k in t.claimed ==> k < n)
    && (forall k :: 0 <= k < |t.outcomes| ==> (t.outcomes[k] == ABORTED <==> k !in t.claimed))
    && (forall k :: k in t.taken ==> k < n && k in t.claimed && t.taken[k] <= t.opens[k])
    && (forall k :: 0 <= k < |t.outcomes| && t.outcomes[k] == COMPLETE ==> k in t.taken && t.taken[k] == t.opens[k])
  }

  predicate Outcome(t: Txn, nth: nat, outcome: int) { 0 < nth <= |t.outcomes| && t.outcomes[nth - 1] == outcome }

  /** Where the call of agent a is, and what it has found out that no later step can change. */
  predicate CallOk(t: Txn, a: nat, pc: Agent) {
    match pc
    case OpenWait(c, fields, owned) => t.lock == Some(a) && |fields| == NUM_FIELDS
    case OpenWrite(c, fields, owned, k) =>
      && t.lock == Some(a) && |fields| == NUM_FIELDS && IsCommitted(t.state)
      && k <= NUM_FIELDS && forall i :: 0 <= i < k && i < |t.fields| ==> t.fields[i] == fields[i]
    case OpenOwner(c, fields, owned) => t.lock == Some(a) && IsCommitted(t.state) && t.fields == fields
    case OpenReady(c, fields, owned) => t.lock == Some(a) && IsCommitted(t.state) && t.fields == fields
    case AbortRelease(c, nth) => Outcome(t, nth, ABORTED)
    case AbortDone(c, nth, ok) =>
      if ok then Outcome(t, nth, ABORTED) else nth == 0 || nth - 1 in t.claimed || Outcome(t, nth, ABORTED)
    case CompleteWait(c, first) => first <= |t.opens|
    case CompleteRead(c, first) => first <= |t.opens|
    case CommitDone(c, first, nth, ok) =>
      && first <= nth <= |t.outcomes|
      && (ok <==> (if nth > 0 then t.outcomes[nth - 1] else t.initial) == COMPLETE)
    case _ => true
  }

  predicate AgentOk(txns: seq<Txn>, a: nat, pc: Agent) {
    OnOne(pc) || pc.AbortDone? || pc.CommitDone? ==> pc.c < |txns| && CallOk(txns[pc.c], a, pc)
  }

  predicate TxnsOk(txns: seq<Txn>) { forall c :: 0 <= c < |txns| ==> TxnOk(txns[c]) }

  predicate Inv(s: State) {
    && TxnsOk(s.txns)
    && (forall a :: 0 <= a < |s.agents| ==> AgentOk(s.txns, a, s.agents[a]))
  }

  //---------------------------------------------------------------------------
  // What the others and the kernel leave alone
  //---------------------------------------------------------------------------

  /** A change of a transaction that keeps what agent b has found out. */
  predicate Gentle(b: nat, t: Txn, t': Txn) {
    && t.outcomes <= t'.outcomes && t.claimed <= t'.claimed && |t.opens| <= |t'.opens| && t'.initial == t.initial
    && (t.lock == Some(b) ==>
          t'.lock == Some(b) && t'.fields == t.fields && (IsCommitted(t.state) ==> t'.state == t.state))
  }

  ghost predicate GentleAll(txns: seq<Txn>, after: seq<Txn>, a: nat) {
    |after| == |txns| && forall c, b: nat :: 0 <= c < |txns| && b != a ==> Gentle(b, txns[c], after[c])
  }

  /** It is enough that the changed transactions and the agent that changed them are in order again. */
  lemma {:induction false} Restored(s: State, after: seq<Txn>, a: nat, pc: Agent)
    requires Inv(s) && a < |s.agents| && GentleAll(s.txns, after, a) && TxnsOk(after) && AgentOk(after, a, pc)
    ensures Inv(s.(txns := after, agents := s.agents[a := pc]))
  {
    forall b | 0 <= b < |s.agents| && b != a ensures AgentOk(after, b, s.agents[b]) {
      var pb := s.agents[b];
      assert AgentOk(s.txns, b, pb);
      if OnOne(pb) || pb.AbortDone? || pb.CommitDone? { assert Gentle(b, s.txns[pb.c], after[pb.c]); }
    }
  }

  //---------------------------------------------------------------------------
  // Each step keeps the invariant
  //---------------------------------------------------------------------------

  /** A step on one transaction, seen from the transaction, the agent and every other agent. */
  lemma {:induction false} StepOneOk(t: Txn, a: nat, pc: Agent)
    requires OnOne(pc) && TxnOk(t) && CallOk(t, a, pc)
    ensures TxnOk(StepOne(t, a, pc).0)
  {
  }

  lemma {:induction false} StepOneSelf(t: Txn, a: nat, pc: Agent)
    requires OnOne(pc) && TxnOk(t) && CallOk(t, a, pc)
    ensures var (t', pc', _) := StepOne(t, a, pc);
      && !pc'.SyncComplete? && !pc'.SyncRelease? && !pc'.SyncDone?
      && (OnOne(pc') || pc'.AbortDone? || pc'.CommitDone? ==> pc'.c == pc.c && CallOk(t', a, pc'))
  {
    if pc.OpenWrite? && pc.k == NUM_FIELDS { assert t.fields == pc.fields; }
  }

  lemma {:induction false} StepOneOthers(t: Txn, a: nat, pc: Agent, b: nat)
    requires OnOne(pc) && CallOk(t, a, pc) && a != b
    ensures Gentle(b, t, StepOne(t, a, pc).0)
  {
  }

  lemma {:induction false} DoOneKeeps(s: State, a: nat)
    requires Inv(s) && a < |s.agents| && OnOne(s.agents[a])
    ensures s.agents[a].c < |s.txns| && Inv(DoOne(s, a))
  {
    assert AgentOk(s.txns, a, s.agents[a]);
    var c, pc := s.agents[a].c, s.agents[a];
    var t := s.txns[c];
    assert TxnOk(t);
    StepOneOk(t, a, pc);
    StepOneSelf(t, a, pc);
    var (t', pc', _) := StepOne(t, a, pc);
    forall b: nat | b != a ensures Gentle(b, t, t') { StepOneOthers(t, a, pc, b); }
    Restored(s, s.txns[c := t'], a, pc');
  }

  /** A change of who owns or locks a transaction that does not take the lock from anyone. */
  lemma {:induction false} OwnerChangeKeeps(s: State, a: nat, pc: Agent, c: nat, owner: Option<nat>, lock: Option<nat>)
    requires Inv(s) && a < |s.agents| && c < |s.txns| && (s.txns[c].lock.Some? ==> lock == s.txns[c].lock)
    requires AgentOk(s.txns[c := s.txns[c].(owner := owner, lock := lock)], a, pc)
    ensures Inv(Set(s, a, pc, c, s.txns[c].(owner := owner, lock := lock)))
  {
    assert TxnOk(s.txns[c]);
    Restored(s, s.txns[c := s.txns[c].(owner := owner, lock := lock)], a, pc);
  }

  lemma {:induction false} AgentAlone(s: State, a: nat, pc: Agent, failed: bool)
    requires Inv(s) && a < |s.agents| && AgentOk(s.txns, a, pc)
    ensures Inv(s.(agents := s.agents[a := pc], failed := failed))
  {
  }

  lemma {:induction false} DoSyncKeeps(s: State, a: nat, s': State)
    requires Inv(s) && Enabled(s, AgentStep(a)) && !OnOne(s.agents[a]) && s' == DoSync(s, a)
    ensures Inv(s')
  {
    var pc := s.agents[a];
    if pc.SyncRelease? && pc.i < |pc.group| && !s'.failed {
      var c := pc.group[pc.i];
      OwnerChangeKeeps(s, a, SyncRelease(pc.group, pc.nths, pc.i + 1), c, None, s.txns[c].lock);
    } else {
      AgentAlone(s, a, s'.agents[a], s'.failed);
    }
  }

  lemma {:induction false} StartOpenKeeps(s: State, a: nat, c: nat, fields: seq<int>, owned: bool)
    requires Inv(s) && Enabled(s, StartOpen(a, c, fields, owned))
    ensures Inv(Next(s, StartOpen(a, c, fields, owned)))
  {
    OwnerChangeKeeps(s, a, OpenWait(c, fields, owned), c, s.txns[c].owner, Some(a));
  }

  /** What the kernel leaves alone in a transaction. */
  predicate KernelStep(t: Txn, t': Txn) {
    && TxnOk(t') && t'.owner == t.owner && t'.lock == t.lock && t'.opens == t.opens && t'.fields == t.fields
    && t'.initial == t.initial
    && t.outcomes <= t'.outcomes && t.claimed <= t'.claimed && (IsCommitted(t.state) ==> t'.state == t.state)
    && (!IsOpen(t.state) ==> !IsOpen(t'.state) && Final(t') == Final(t))
  }

  lemma {:induction false} ClaimOk(t: Txn, cpu: nat, fate: int)
    requires TxnOk(t) && IsOpen(t.state) && cpu < MAX_CPUS && KernelOutcome(fate)
    ensures KernelStep(t, DoClaim(t, cpu, fate))
  {
  }

  lemma {:induction false} TakeOk(t: Txn)
    requires TxnOk(t) && IsClaimed(t.state) && |t.taken[|t.opens| - 1]| < |t.fields|
    ensures KernelStep(t, DoTake(t))
  {
  }

  lemma {:induction false} CommitOk(t: Txn)
    requires TxnOk(t) && IsClaimed(t.state) && (t.fate == COMPLETE ==> |t.taken[|t.opens| - 1]| >= NUM_FIELDS)
    ensures KernelStep(t, Finish(t, t.fate))
  {
  }

  lemma {:induction false} KernelKeeps(s: State, c: nat, t': Txn)
    requires Inv(s) && c < |s.txns| && KernelStep(s.txns[c], t')
    ensures Inv(s.(txns := s.txns[c := t']))
  {
    forall b | 0 <= b < |s.agents| ensures AgentOk(s.txns[c := t'], b, s.agents[b]) {
      assert AgentOk(s.txns, b, s.agents[b]);
      assert Gentle(b, s.txns[c], t');
    }
  }

  //---------------------------------------------------------------------------
  // The sync commit call
  //---------------------------------------------------------------------------

  lemma {:induction false} SucceedOk(t: Txn, b: nat)
    requires TxnOk(t) && (IsOpen(t.state) || t.state == COMPLETE)
    ensures TxnOk(Succeed(t)) && Succeed(t).state == COMPLETE && Succeed(t).owner == None
    ensures Succeed(t).opens == t.opens && Succeed(t).lock == t.lock && Gentle(b, t, Succeed(t))
  {
  }

  lemma {:induction false} SucceedAllIs(txns: seq<Txn>, group: seq<nat>)
    requires InRange(txns, group) && NoRepeats(group)
    ensures forall c :: 0 <= c < |txns| ==>
      SucceedAll(txns, group)[c] == if c in group then Succeed(txns[c]) else txns[c]
    decreases |group|
  {
    if group != [] {
      var c, rest := group[0], group[1..];
      forall j | 0 <= j < |rest| ensures rest[j] != c { assert group[0] != group[j + 1]; }
      SucceedAllIs(txns[c := Succeed(txns[c])], rest);
    }
  }

  lemma {:induction false} SyncSucceedsKeeps(s: State, a: nat, group: seq<nat>)
    requires Inv(s) && Enabled(s, SyncSucceeds(a, group))
    ensures Inv(Next(s, SyncSucceeds(a, group)))
  {
    var after := SucceedAll(s.txns, group);
    SucceedAllIs(s.txns, group);
    forall c, b: nat | 0 <= c < |after| ensures TxnOk(after[c]) && Gentle(b, s.txns[c], after[c]) {
      assert TxnOk(s.txns[c]);
      if c in group { SucceedOk(s.txns[c], b); }
    }
    assert TxnsOk(after) by {
      forall c | 0 <= c < |after| ensures TxnOk(after[c]) { assert Gentle(0, s.txns[c], after[c]); }
    }
    Restored(s, after, a, SyncDone(group, OpenCounts(s.txns, group), true));
  }

  lemma {:induction false} FailOk(t: Txn, fate: int)
    requires TxnOk(t) && KernelOutcome(fate)
    ensures KernelStep(t, Fail(t, fate)) && !IsOpen(Fail(t, fate).state)
  {
    if IsOpen(t.state) { ClaimOk(t, 0, fate); }
  }

  /** A change of the transactions by the kernel. */
  predicate KernelChange(txns: seq<Txn>, after: seq<Txn>) {
    |after| == |txns| && forall c :: 0 <= c < |txns| ==> KernelStep(txns[c], after[c])
  }

  lemma {:induction false} KernelTwice(t: Txn, t': Txn, t'': Txn)
    requires KernelStep(t, t') && KernelStep(t', t'')
    ensures KernelStep(t, t'')
  {
  }

  lemma {:induction false} FailAllIs(txns: seq<Txn>, group: seq<nat>, fates: seq<int>)
    requires TxnsOk(txns) && InRange(txns, group) && |fates| == |group|
    requires forall j :: 0 <= j < |fates| ==> KernelOutcome(fates[j])
    ensures KernelChange(txns, FailAll(txns, group, fates))
    ensures forall c :: 0 <= c < |txns| && c in group ==> !IsOpen(FailAll(txns, group, fates)[c].state)
    decreases |group|
  {
    if group == [] {
      forall c | 0 <= c < |txns| ensures KernelStep(txns[c], txns[c]) { assert TxnOk(txns[c]); }
    } else {
      var c := group[0];
      var mid, after := txns[c := Fail(txns[c], fates[0])], FailAll(txns, group, fates);
      assert KernelStep(txns[c], mid[c]) && !IsOpen(mid[c].state) by {
        assert TxnOk(txns[c]);
        FailOk(txns[c], fates[0]);
      }
      FailAllIs(mid, group[1..], fates[1..]);
      assert KernelStep(mid[c], after[c]);
      KernelTwice(txns[c], mid[c], after[c]);
    }
  }

  lemma {:induction false} KernelGentle(b: nat, t: Txn, t': Txn)
    requires KernelStep(t, t')
    ensures Gentle(b, t, t')
  {
  }

  lemma {:induction false} KernelChangeOk(txns: seq<Txn>, after: seq<Txn>, a: nat)
    requires KernelChange(txns, after)
    ensures TxnsOk(after) && GentleAll(txns, after, a)
  {
    forall c, b: nat | 0 <= c < |after| ensures Gentle(b, txns[c], after[c]) { KernelGentle(b, txns[c], after[c]); }
    forall c | 0 <= c < |after| ensures TxnOk(after[c]) { assert KernelStep(txns[c], after[c]); }
  }

  lemma {:induction false} SyncFailsKeeps(s: State, a: nat, group: seq<nat>, fates: seq<int>)
    requires Inv(s) && Enabled(s, SyncFails(a, group, fates))
    ensures Inv(Next(s, SyncFails(a, group, fates)))
  {
    var after := FailAll(s.txns, group, fates);
    FailAllIs(s.txns, group, fates);
    KernelChangeOk(s.txns, after, a);
    Restored(s, after, a, SyncComplete(group, OpenCounts(s.txns, group), 0, false));
  }

  predicate IsKernels(act: Action) { act.Claim? || act.TakeField? || act.Commit? }

  /** What a step of the kernel makes of its transaction. */
  lemma {:induction false} KernelActs(s: State, act: Action)
    requires Inv(s) && Enabled(s, act) && IsKernels(act)
    ensures KernelStep(s.txns[act.c], Next(s, act).txns[act.c])
    ensures Next(s, act) == s.(txns := s.txns[act.c := Next(s, act).txns[act.c]])
  {
    var t := s.txns[act.c];
    assert TxnOk(t);
    match act
    case Claim(_, cpu, fate) => ClaimOk(t, cpu, fate);
    case TakeField(_) => TakeOk(t);
    case Commit(_) => CommitOk(t);
  }

  lemma {:induction false} StartKeeps(s: State, act: Action)
    requires Inv(s) && Enabled(s, act) && (act.StartAbort? || act.StartCommit? || act.Return?)
    ensures Inv(Next(s, act))
  {
  }

  lemma {:induction false} AgentStepKeeps(s: State, a: nat)
    requires Inv(s) && Enabled(s, AgentStep(a))
    ensures Inv(Next(s, AgentStep(a)))
  {
    if OnOne(s.agents[a]) { DoOneKeeps(s, a); } else { DoSyncKeeps(s, a, DoSync(s, a)); }
  }

  lemma {:induction false} StepKeeps(s: State, act: Action)
    requires Inv(s) && Enabled(s, act)
    ensures Inv(Next(s, act))
  {
    if IsKernels(act) {
      KernelActs(s, act);
      KernelKeeps(s, act.c, Next(s, act).txns[act.c]);
    } else if act.StartOpen? {
      StartOpenKeeps(s, act.a, act.c, act.fields, act.owned);
    } else if act.SyncSucceeds? {
      SyncSucceedsKeeps(s, act.a, act.group);
    } else if act.SyncFails? {
      SyncFailsKeeps(s, act.a, act.group, act.fates);
    } else if act.AgentStep? {
      AgentStepKeeps(s, act.a);
    } else {
      StartKeeps(s, act);
    }
  }

  //---------------------------------------------------------------------------
  // Every run
  //---------------------------------------------------------------------------

  ghost predicate Steps(s: State, act: Action, s': State) { Enabled(s, act) && s' == Next(s, act) }

  ghost predicate Run(states: seq<State>, actions: seq<Action>) {
    && |states| == |actions| + 1 && Init(states[0])
    && forall i :: 0 <= i < |actions| ==> Steps(states[i], actions[i], states[i + 1])
  }

  lemma {:induction false} RunKeepsInv(states: seq<State>, actions: seq<Action>, i: nat)
    requires Run(states, actions) && i < |states|
    ensures Inv(states[i])
  {
    if i > 0 {
      RunKeepsInv(states, actions, i - 1);
      assert Steps(states[i - 1], actions[i - 1], states[i]);
      StepKeeps(states[i - 1], actions[i - 1]);
    }
  }

  /**
   From Open to its commit the fields stay as that Open wrote them, the kernel reads nothing else,
   and it completes only what it read in full.
   */
  lemma {:induction false} FieldsStable(states: seq<State>, actions: seq<Action>, i: nat, c: nat)
    requires Run(states, actions) && i < |states| && c < |states[i].txns|
    ensures var t := states[i].txns[c];
      && (!IsCommitted(t.state) ==> t.opens != [] && t.fields == t.opens[|t.opens| - 1])
      && (forall k :: k in t.taken ==> k < |t.opens| && t.taken[k] <= t.opens[k])
      && (forall k :: 0 <= k < |t.outcomes| && t.outcomes[k] == COMPLETE ==>
            k in t.taken && k < |t.opens| && t.taken[k] == t.opens[k])
  {
    RunKeepsInv(states, actions, i);
    assert TxnOk(states[i].txns[c]);
  }

  /**
   Each Open has exactly one outcome, the last one none yet while it is open or claimed; the
   outcome is ABORTED exactly if the kernel never claimed that Open.
   */
  lemma {:induction false} OneOutcomeEach(states: seq<State>, actions: seq<Action>, i: nat, c: nat)
    requires Run(states, actions) && i < |states| && c < |states[i].txns|
    ensures var t := states[i].txns[c];
      && |t.opens| == |t.outcomes| + (if IsCommitted(t.state) then 0 else 1)
      && (IsOpen(t.state) ==> |t.opens| - 1 !in t.claimed)
      && (IsClaimed(t.state) ==> |t.opens| - 1 in t.claimed)
      && (forall k :: 0 <= k < |t.outcomes| ==> (t.outcomes[k] == ABORTED <==> k !in t.claimed))
  {
    RunKeepsInv(states, actions, i);
    assert TxnOk(states[i].txns[c]);
  }

  /** Outcomes and claims are never taken back. */
  lemma {:induction false} HistoryGrows(states: seq<State>, actions: seq<Action>, i: nat, j: nat, c: nat)
    requires Run(states, actions) && i <= j < |states| && c < |states[i].txns|
    ensures c < |states[j].txns| && Grows(states[i].txns[c], states[j].txns[c])
    decreases j - i
  {
    if i < j {
      assert Steps(states[i], actions[i], states[i + 1]);
      StepGrows(states[i], actions[i], c);
      HistoryGrows(states, actions, i + 1, j, c);
    }
  }

  /** No outcome or claim of this transaction is lost. */
  predicate Grows(t: Txn, t': Txn) { t.outcomes <= t'.outcomes && t.claimed <= t'.claimed }

  lemma {:induction false} OneGrows(t: Txn, a: nat, pc: Agent)
    requires OnOne(pc)
    ensures Grows(t, StepOne(t, a, pc).0)
  {
  }

  lemma {:induction false} AgentGrows(s: State, a: nat, c: nat)
    requires Enabled(s, AgentStep(a)) && c < |s.txns|
    ensures c < |Next(s, AgentStep(a)).txns| && Grows(s.txns[c], Next(s, AgentStep(a)).txns[c])
  {
    if OnOne(s.agents[a]) { OneGrows(s.txns[s.agents[a].c], a, s.agents[a]); }
  }

  lemma {:induction false} StepGrows(s: State, act: Action, c: nat)
    requires Enabled(s, act) && c < |s.txns|
    ensures c < |Next(s, act).txns| && Grows(s.txns[c], Next(s, act).txns[c])
  {
    match act
    case AgentStep(a) => AgentGrows(s, a, c);
    case SyncSucceeds(a, group) => SucceedAllGrows(s.txns, group, c);
    case SyncFails(a, group, fates) => FailAllGrows(s.txns, group, fates, c);
    case _ =>
  }

  lemma {:induction false} SucceedAllGrows(txns: seq<Txn>, group: seq<nat>, c: nat)
    requires InRange(txns, group) && c < |txns|
    ensures Grows(txns[c], SucceedAll(txns, group)[c])
    decreases |group|
  {
    if group != [] {
      SucceedAllGrows(txns[group[0] := Succeed(txns[group[0]])], group[1..], c);
    }
  }

  lemma {:induction false} FailAllGrows(txns: seq<Txn>, group: seq<nat>, fates: seq<int>, c: nat)
    requires InRange(txns, group) && |fates| == |group| && c < |txns|
    ensures Grows(txns[c], FailAll(txns, group, fates)[c])
    decreases |group|
  {
    if group != [] {
      FailAllGrows(txns[group[0] := Fail(txns[group[0]], fates[0])], group[1..], fates[1..], c);
    }
  }

  /**
   Abort returns true only if the kernel has not claimed that transaction and never will; if it
   returns false, nothing was opened, or the kernel claimed it, or it had been aborted before.
   */
  lemma {:induction false} AbortIsFinal(states: seq<State>, actions: seq<Action>, i: nat, j: nat, a: nat)
    requires Run(states, actions) && i <= j < |states| && a < |states[i].agents| && states[i].agents[a].AbortDone?
    ensures var pc := states[i].agents[a];
      && pc.c < |states[j].txns| && var t := states[j].txns[pc.c];
      && (pc.ok ==> pc.nth > 0 && pc.nth - 1 !in t.claimed && Outcome(t, pc.nth, ABORTED))
      && (!pc.ok ==> pc.nth == 0 || pc.nth - 1 in t.claimed || Outcome(t, pc.nth, ABORTED))
  {
    RunKeepsInv(states, actions, i);
    RunKeepsInv(states, actions, j);
    var pc := states[i].agents[a];
    assert AgentOk(states[i].txns, a, pc);
    HistoryGrows(states, actions, i, j, pc.c);
    assert TxnOk(states[j].txns[pc.c]);
  }

  /**
   Commit returns true exactly if the last Open before it read the state completed; that is the
   caller's own Open, numbered first, or a later one.  If there was none it returns whether the
   transaction began as COMPLETE.
   */
  lemma {:induction false} CommitTellsOutcome(states: seq<State>, actions: seq<Action>, i: nat, a: nat)
    requires Run(states, actions) && i < |states| && a < |states[i].agents| && states[i].agents[a].CommitDone?
    ensures var pc := states[i].agents[a];
      && pc.c < |states[i].txns| && pc.c < |states[0].txns| && var outcomes := states[i].txns[pc.c].outcomes;
      && pc.first <= pc.nth <= |outcomes|
      && (pc.ok <==> (if pc.nth > 0 then outcomes[pc.nth - 1] else states[0].txns[pc.c].state) == COMPLETE)
  {
    RunKeepsInv(states, actions, i);
    assert AgentOk(states[i].txns, a, states[i].agents[a]);
    InitialIs(states, actions, i, states[i].agents[a].c);
  }

  lemma {:induction false} InitialIs(states: seq<State>, actions: seq<Action>, i: nat, c: nat)
    requires Run(states, actions) && i < |states| && c < |states[i].txns|
    ensures c < |states[0].txns| && states[i].txns[c].initial == states[0].txns[c].state
  {
    if i > 0 {
      assert Steps(states[i - 1], actions[i - 1], states[i]);
      RunKeepsInv(states, actions, i - 1);
      InitialKept(states[i - 1], actions[i - 1], c);
      InitialIs(states, actions, i - 1, c);
    }
  }

  lemma {:induction false} InitialKept(s: State, act: Action, c: nat)
    requires Inv(s) && Enabled(s, act) && c < |Next(s, act).txns|
    ensures c < |s.txns| && Next(s, act).txns[c].initial == s.txns[c].initial
  {
    if IsKernels(act) {
      KernelActs(s, act);
    } else if act.SyncSucceeds? {
      SucceedAllIs(s.txns, act.group);
    } else if act.SyncFails? {
      FailAllIs(s.txns, act.group, act.fates);
      assert KernelStep(s.txns[c], Next(s, act).txns[c]);
    }
  }

  //---------------------------------------------------------------------------
  // Calls return
  //---------------------------------------------------------------------------

  /** A call waits for a transaction that is still open or claimed, and Open for one that has an owner. */
  predicate MustWait(txns: seq<Txn>, pc: Agent) {
    match pc
    case OpenWait(c, _, _) => c < |txns| && txns[c].owner.Some?
    case CompleteWait(c, _) => c < |txns| && !IsCommitted(txns[c].state)
    case SyncComplete(group, _, i, _) => i < |group| && group[i] < |txns| && !IsCommitted(txns[group[i]].state)
    case _ => false
  }

  /** The steps a call still has to make. */
  function StepsLeft(pc: Agent): nat {
    match pc
    case OpenWait(_, _, _) => NUM_FIELDS + 4
    case OpenWrite(_, _, _, k) => if k < NUM_FIELDS then NUM_FIELDS - k + 3 else 3
    case OpenOwner(_, _, _) => 2
    case OpenReady(_, _, _) => 1
    case AbortLoad(_) => 3
    case AbortCas(_) => 2
    case AbortRelease(_, _) => 1
    case CompleteWait(_, _) => 2
    case CompleteRead(_, _) => 1
    case SyncComplete(group, _, i, _) => |group| + 2 + if i < |group| then |group| - i else 0
    case SyncRelease(group, _, i) => 1 + if i < |group| then |group| - i else 0
    case _ => 0
  }

  /** While no CHECK fails each step of a call brings it nearer to its return, or it has to wait and nothing happens. */
  lemma {:induction false} CallsAdvance(s: State, a: nat)
    requires Inv(s) && Enabled(s, AgentStep(a)) && !Next(s, AgentStep(a)).failed
    ensures var s' := Next(s, AgentStep(a));
      if MustWait(s.txns, s.agents[a]) then s' == s
      else a < |s'.agents| && StepsLeft(s'.agents[a]) < StepsLeft(s.agents[a])
  {
    var pc := s.agents[a];
    if OnOne(pc) {
      assert AgentOk(s.txns, a, pc) && TxnOk(s.txns[pc.c]);
      OneAdvances(s.txns, a, pc);
    } else if pc.SyncComplete? && pc.i < |pc.group| {
      assert pc.group[pc.i] < |s.txns|;
    }
  }

  lemma {:induction false} OneAdvances(txns: seq<Txn>, a: nat, pc: Agent)
    requires OnOne(pc) && pc.c < |txns| && StepOne(txns[pc.c], a, pc).2
    requires pc.OpenWrite? ==> |txns[pc.c].fields| == |pc.fields| == NUM_FIELDS
    ensures var (t, pc', _) := StepOne(txns[pc.c], a, pc);
      if MustWait(txns, pc) then t == txns[pc.c] && pc' == pc else StepsLeft(pc') < StepsLeft(pc)
  {
  }

  /**
   The CHECKs of Open, Commit and ReleaseSyncRequests: a call fails exactly if it opens without ownership
   what somebody owns, opens what is open or claimed, or finds an unexpected outcome; if a failed sync
   commit completed all of its group, or releases what is not committed or has no owner.
   */
  lemma {:induction false} FailsIff(s: State, a: nat)
    requires Inv(s) && Enabled(s, AgentStep(a))
    ensures var pc := s.agents[a];
      Next(s, AgentStep(a)).failed <==>
        match pc
        case OpenWait(c, _, owned) =>
          if s.txns[c].owner.Some? then !owned else !IsCommitted(s.txns[c].state)
        case CompleteRead(c, _) => !KernelOutcome(s.txns[c].state) && s.txns[c].state != ABORTED
        case SyncComplete(group, _, i, failure) => i >= |group| && !failure
        case SyncRelease(group, _, i) =>
          i < |group| && (!IsCommitted(s.txns[group[i]].state) || s.txns[group[i]].owner == None)
        case _ => false
  {
    if s.agents[a].SyncComplete? && s.agents[a].i < |s.agents[a].group| {
      assert TxnOk(s.txns[s.agents[a].group[s.agents[a].i]]);
    }
  }

  /** Once the transaction is committed, Commit is done after two steps of its own. */
  lemma {:induction false} CommitReturns(s: State, a: nat)
    requires Inv(s) && !s.failed && a < |s.agents| && s.agents[a].CompleteWait?
    ensures s.agents[a].c < |s.txns|
    ensures IsCommitted(s.txns[s.agents[a].c].state) ==>
      && Enabled(s, AgentStep(a)) && var s1 := Next(s, AgentStep(a));
      && Enabled(s1, AgentStep(a)) && var s2 := Next(s1, AgentStep(a));
      && !s2.failed && s2.txns == s.txns && s2.agents[a].CommitDone?
      && (s2.agents[a].ok <==> s.txns[s.agents[a].c].state == COMPLETE)
  {
    assert AgentOk(s.txns, a, s.agents[a]);
    assert TxnOk(s.txns[s.agents[a].c]);
  }
}
