/**
 One item of the PrioTable from its writers to the agent, access by access: the sequence counter and
 fields of module SeqCount, the update stream of module PrioStream, and the agent between them.  Every
 step is one of module PrioTableSync, or none, so what that module proves holds here.
 */
module PrioTableProtocol {
  import opened Common
  import Stream = PrioStream
  import Counter = SeqCount
  import Sync = PrioTableSync

  datatype Agent =
    | Waiting
    | Polling
    | Refreshing
    | Copying
    | Loading
    | Storing(loaded: int, stamp: nat)

  /**
   The threads of the application are numbered alike in stream and item; the agent is reader 0 of
   the item.  item holds what these threads write and nothing else; its flags, field 0, the agent
   stores too, so word is what memory holds of them, and copied what the agent copied of that.  stores
   and straddled are as in PrioTableSync.  owes tells which threads have written the item and not
   marked its index sid yet.  seen is seqcount_ of the agent's SchedParams, and seenVersion the version
   it stands for.
   */
  datatype State = State(
    sid: nat,
    stream: Stream.State,
    item: Counter.State,
    word: int,
    stores: nat,
    straddled: bool,
    owes: seq<bool>,
    agent: Agent,
    copied: int,
    seen: Counter.Word,
    seenVersion: nat,
    params: Sync.Item,
    repeating: set<int>)

  datatype Action =
    | Write(w: nat, a: Counter.Action)
    | Begin(m: nat, idx: nat, retries: int)
    | Mark(m: nat, spurious: bool)
    | Call
    | Scrape
    | StartRead
    | CopyField
    | EndRead
    | SetRunnable
    | LoadFlags
    | StoreRunnable

  const FLAGS := 0

  predicate IsWriters(a: Counter.Action, w: nat) {
    (a.StartWrite? || a.StartTry? || a.WriterStep? || a.WriteField? || a.EndWrite?) && a.w == w
  }

  predicate Sized(s: State) {
    && |s.owes| == |s.item.writers| == |s.stream.markers| && s.item.readers != [] && |s.item.fields| >= 3
    && s.stream.cells != []
  }

  /** A thread does one thing at a time, and marks the index after each write of the item. */
  predicate Enabled(s: State, act: Action) {
    && Sized(s)
    && match act
       case Write(w, a) =>
         && w < |s.owes| && !s.owes[w] && s.stream.markers[w] == Stream.Idle
         && IsWriters(a, w) && Counter.Enabled(s.item, a)
       case Begin(m, idx, retries) =>
         && m < |s.owes| && s.stream.markers[m] == Stream.Idle && s.item.writers[m] == Counter.NotWriting
         && (s.owes[m] <==> idx == s.sid)
       case Mark(m, _) => m < |s.owes| && s.stream.markers[m] != Stream.Idle
       case Call => s.agent == Waiting && s.stream.scraper == Stream.Ready
       case Scrape => s.agent == Polling && s.stream.scraper != Stream.Ready
       case StartRead => s.agent == Refreshing && Counter.Enabled(s.item, Counter.StartRead(0))
       case CopyField => s.agent == Copying && Counter.Enabled(s.item, Counter.CopyField(0))
       case EndRead => s.agent == Copying && Counter.Enabled(s.item, Counter.EndRead(0))
       case SetRunnable => CanMakeRunnable(s)
       case LoadFlags => s.agent == Loading
       case StoreRunnable => s.agent.Storing?
  }

  /** MakeEngineRunnable is called for a worker that has no work in a repeating class. */
  predicate CanMakeRunnable(s: State) {
    s.agent == Waiting && s.params.wcid in s.repeating && s.params.gpid != 0 && !Sync.Runnable(s.params.flags)
  }

  /** The flags come first, then wcid and gpid. */
  function ItemOf(fields: seq<int>): Sync.Item {
    if |fields| < 3 then Sync.Item(0, 0, 0, []) else Sync.Item(fields[FLAGS], fields[1], fields[2], fields[3..])
  }

  /** A thread writes the item; it stores the flags in memory as well. */
  function DoWrite(s: State, w: nat, a: Counter.Action): State
    requires Enabled(s, Write(w, a))
  {
    var s' := s.(item := Counter.Next(s.item, a));
    if a.EndWrite? then s'.(owes := s.owes[w := true])
    else if a.WriteField? && a.i == FLAGS then s'.(word := a.value, stores := s.stores + 1, straddled := false)
    else s'
  }

  function DoMark(s: State, m: nat, spurious: bool): State
    requires Enabled(s, Mark(m, spurious))
  {
    var stream := Stream.Next(s.stream, Stream.Mark(m, spurious));
    s.(stream := stream, owes := if Marked(s, m, stream) then s.owes[m := false] else s.owes)
  }

  /** Thread m returns from MarkUpdatedIndex. */
  predicate Marked(s: State, m: nat, stream: Stream.State)
    requires m < |s.owes|
  {
    s.owes[m] && m < |stream.markers| && stream.markers[m] == Stream.Idle
  }

  /** What RefreshSchedParams does next. */
  function AfterScrape(stream: Stream.State, sid: nat): Agent {
    if stream.scraper != Stream.Ready then Polling
    else match stream.last
      case Some(Overflow) => Refreshing
      case Some(Updated(idx)) => if idx == sid then Refreshing else Waiting
      case _ => Waiting
  }

  /** SeqCopyParams, up to where it starts to copy. */
  function DoStartRead(s: State): State
    requires Enabled(s, StartRead)
  {
    if s.seen == s.item.seqnum then s.(agent := Waiting)
    else s.(item := Counter.Next(s.item, Counter.StartRead(0)), agent := Copying)
  }

  /** The next field is copied from what threads wrote, the flags from the word in memory. */
  function DoCopy(s: State): State
    requires Enabled(s, CopyField)
  {
    s.(item := Counter.Next(s.item, Counter.CopyField(0)),
       copied := if |s.item.readers[0].copy| == FLAGS then s.word else s.copied)
  }

  /** What has been copied. */
  function Copied(s: State): Sync.Item
    requires s.item.readers != [] && s.item.readers[0].Copying?
  {
    ItemOf(s.item.readers[0].copy).(flags := s.copied)
  }

  /** The rest of SeqCopyParams. */
  function DoEndRead(s: State): State
    requires Enabled(s, EndRead)
  {
    var pc, s' := s.item.readers[0], s.(item := Counter.Next(s.item, Counter.EndRead(0)), agent := Waiting);
    if Counter.ReadEnd(pc.begin, s.item.seqnum) then
      s'.(seen := pc.begin, seenVersion := pc.v0, params := Copied(s))
    else if !Sync.Runnable(s.params.flags) then
      s'.(seen := pc.begin, seenVersion := pc.v0, params := Sync.MakeRunnable(s.params))
    else s'
  }

  function Next(s: State, act: Action): State
    requires Enabled(s, act)
  {
    match act
    case Write(w, a) => DoWrite(s, w, a)
    case Begin(m, idx, retries) => s.(stream := Stream.Next(s.stream, Stream.Begin(m, idx, retries)))
    case Mark(m, spurious) => DoMark(s, m, spurious)
    case Call => s.(stream := Stream.Next(s.stream, Stream.Call), agent := Polling)
    case Scrape =>
      var stream := Stream.Next(s.stream, Stream.Scrape);
      s.(stream := stream, agent := AfterScrape(stream, s.sid))
    case StartRead => DoStartRead(s)
    case CopyField => DoCopy(s)
    case EndRead => DoEndRead(s)
    case SetRunnable => s.(agent := Loading, params := Sync.MakeRunnable(s.params))
    case LoadFlags => s.(agent := Storing(s.word, s.stores))
    case StoreRunnable =>
      s.(agent := Waiting, word := Sync.WithRunnable(s.agent.loaded),
         straddled := s.straddled || s.agent.stamp != s.stores)
  }

  /** A new table is all zeros, and so is what the agent keeps of it. */
  predicate Init(s: State) {
    && Sized(s) && Stream.Init(s.stream) && Counter.Init(s.item)
    && (forall w :: 0 <= w < |s.owes| ==> !s.owes[w])
    && (forall i :: 0 <= i < |s.item.fields| ==> s.item.fields[i] == 0)
    && s.word == 0 && s.stores == 0 && !s.straddled && s.seen == 0 && s.seenVersion == 0
    && s.params == ItemOf(s.item.fields) && (s.agent == Waiting || s.agent == Refreshing)
  }

  /** Fewer than 2^31 writes between the two looks at the counter that are compared. */
  predicate NoWrap(s: State, act: Action) {
    && (act.StartRead? ==> s.item.version - s.seenVersion < Counter.TWO32)
    && (act.EndRead? && s.item.readers != [] && s.item.readers[0].Copying? ==>
          s.item.version - s.item.readers[0].v0 < Counter.TWO32)
  }

  //---------------------------------------------------------------------------
  // What a state stands for
  //---------------------------------------------------------------------------

  function AbsWriter(pc: Counter.Writer, owes: bool): Sync.Writer {
    if pc.Writing? then Sync.Writing else if owes then Sync.ToMark else Sync.Away
  }

  function AbsAgent(s: State): Sync.Agent {
    match s.agent
    case Waiting => Sync.Waiting
    case Polling => Sync.Polling
    case Refreshing => Sync.Refreshing
    case Copying =>
      if s.item.readers != [] && s.item.readers[0].Copying? then Sync.Copying(s.item.readers[0].v0) else Sync.Refreshing
    case Loading => Sync.Loading
    case Storing(loaded, stamp) => Sync.Storing(loaded, stamp)
  }

  /** The last completed write. */
  function LastWrite(item: Counter.State): Sync.Item {
    if item.commits == [] then ItemOf([]) else ItemOf(item.commits[|item.commits| - 1])
  }

  function Abs(s: State): Sync.State
    requires Sized(s)
  {
    Sync.State(
      s.item.version,
      LastWrite(s.item),
      seq(|s.owes|, w requires 0 <= w < |s.owes| => AbsWriter(s.item.writers[w], s.owes[w])),
      s.word,
      s.item.fields[FLAGS],
      s.stores,
      s.straddled,
      s.sid in s.stream.pending,
      s.sid in s.stream.before,
      AbsAgent(s),
      s.seenVersion,
      s.params,
      s.repeating)
  }

  //---------------------------------------------------------------------------
  // Invariant
  //---------------------------------------------------------------------------

  /** While nothing was written, the copied flags are those in memory. */
  predicate CopyOk(s: State, pc: Counter.Reader) {
    pc.Copying? && pc.copy != [] && pc.v0 == s.item.version && pc.v0 % 2 == 0 ==> s.copied == s.word
  }

  predicate AgentOk(s: State) {
    && (s.agent == Polling <==> s.stream.scraper != Stream.Ready)
    && (s.agent == Copying ==> s.item.readers != [] && s.item.readers[0].Copying? && CopyOk(s, s.item.readers[0]))
    && s.seen == s.seenVersion % Counter.TWO32 && s.seenVersion <= s.item.version
  }

  predicate ThreadOk(owes: bool, sid: nat, writer: Counter.Writer, marker: Stream.Marker) {
    (owes ==> writer == Counter.NotWriting) && (marker != Stream.Idle ==> (owes <==> marker.idx == sid))
  }

  ghost predicate Inv(s: State) {
    && Sized(s) && Stream.Inv(s.stream) && Counter.Inv(s.item) && AgentOk(s)
    && forall w :: 0 <= w < |s.owes| ==> ThreadOk(s.owes[w], s.sid, s.item.writers[w], s.stream.markers[w])
  }

  /** The step is that step of PrioTableSync, or none. */
  ghost predicate Refines(s: State, s': State, a: Option<Sync.Action>) {
    && Sized(s) && Sized(s')
    && match a
       case None => Abs(s') == Abs(s)
       case Some(a) => Sync.Enabled(Abs(s), a) && Abs(s') == Sync.Next(Abs(s), a)
  }

  function SyncAction(s: State, act: Action): Option<Sync.Action>
    requires Enabled(s, act)
  {
    match act
    case Write(w, a) =>
      if a.EndWrite? then Some(Sync.EndWrite(w, ItemOf(s.item.fields)))
      else if a.WriteField? && a.i == FLAGS then Some(Sync.StoreFlags(w, a.value))
      else if Counter.Next(s.item, a).version != s.item.version then Some(Sync.BeginWrite(w))
      else None
    case Mark(m, spurious) =>
      if Marked(s, m, Stream.Next(s.stream, Stream.Mark(m, spurious))) then Some(Sync.Mark(m)) else None
    case Call => Some(Sync.Call)
    case Scrape =>
      var stream := Stream.Next(s.stream, Stream.Scrape);
      if stream.scraper != Stream.Ready then None
      else if AfterScrape(stream, s.sid) == Refreshing then Some(Sync.Report)
      else if stream.last == Some(Stream.NoEntries) then Some(Sync.ReportNothing)
      else Some(Sync.ReportOther)
    case StartRead => Some(Sync.BeginRead)
    case EndRead => Some(Sync.EndRead(Copied(s)))
    case SetRunnable => Some(Sync.SetRunnable)
    case LoadFlags => Some(Sync.LoadFlags)
    case StoreRunnable => Some(Sync.StoreRunnable)
    case _ => None
  }

  //---------------------------------------------------------------------------
  // Each step keeps the invariant and is a step of PrioTableSync
  //---------------------------------------------------------------------------

  lemma {:induction false} WriteKeeps(s: State, w: nat, a: Counter.Action)
    requires Inv(s) && Enabled(s, Write(w, a))
    ensures Inv(Next(s, Write(w, a)))
  {
    var s' := Next(s, Write(w, a));
    assert Counter.Inv(s'.item) by { Counter.StepKeeps(s.item, a); }
    assert AgentOk(s') by { WriterLeavesAgent(s, w, a); }
    forall v | 0 <= v < |s.owes| ensures ThreadOk(s'.owes[v], s.sid, s'.item.writers[v], s.stream.markers[v]) {
      assert ThreadOk(s.owes[v], s.sid, s.item.writers[v], s.stream.markers[v]);
    }
  }

  lemma {:induction false} WriterLeavesAgent(s: State, w: nat, a: Counter.Action)
    requires Inv(s) && Enabled(s, Write(w, a))
    ensures AgentOk(DoWrite(s, w, a))
  {
    if a.WriteField? {
      assert Counter.Locked(s.item.seqnum) && s.item.version % 2 == 1 by { Counter.SuccVersion(s.item.version); }
    } else {
      WriterEffect(s.item, a, w);
    }
  }

  /** What a step of a writer changes in the item. */
  lemma {:induction false} WriterEffect(item: Counter.State, a: Counter.Action, w: nat)
    requires Counter.Inv(item) && Counter.Enabled(item, a) && IsWriters(a, w)
    ensures var item' := Counter.Next(item, a);
      && item'.readers == item.readers && |item'.fields| == |item.fields|
      && item'.writers == item.writers[w := item'.writers[w]]
      && (a.EndWrite? ==> item.writers[w].Writing? && !item'.writers[w].Writing?
                          && item'.version == item.version + 1 && item'.commits == item.commits + [item.fields])
      && (!a.EndWrite? ==> item'.commits == item.commits)
      && (!a.EndWrite? && item'.version != item.version ==>
            item.version % 2 == 0 && item'.version == item.version + 1
            && !item.writers[w].Writing? && item'.writers[w].Writing?)
      && (!a.EndWrite? && item'.version == item.version ==>
            (item'.writers[w].Writing? <==> item.writers[w].Writing?))
  {
    Counter.SuccVersion(item.version);
  }

  lemma {:induction false} StoreRefines(s: State, w: nat, i: nat, value: int)
    requires Inv(s) && Enabled(s, Write(w, Counter.WriteField(w, i, value)))
    ensures var act := Write(w, Counter.WriteField(w, i, value));
      Refines(s, Next(s, act), SyncAction(s, act))
  {
  }

  lemma {:induction false} WriteRefines(s: State, w: nat, a: Counter.Action)
    requires Inv(s) && Enabled(s, Write(w, a))
    ensures Refines(s, Next(s, Write(w, a)), SyncAction(s, Write(w, a)))
  {
    if a.WriteField? { StoreRefines(s, w, a.i, a.value); } else { WriterEffect(s.item, a, w); }
  }

  lemma {:induction false} MarkKeeps(s: State, m: nat, spurious: bool)
    requires Inv(s) && Enabled(s, Mark(m, spurious))
    ensures Inv(Next(s, Mark(m, spurious)))
  {
    var s' := Next(s, Mark(m, spurious));
    assert Stream.Inv(s'.stream) by { Stream.StepKeeps(s.stream, Stream.Mark(m, spurious)); }
    forall v | 0 <= v < |s.owes| ensures ThreadOk(s'.owes[v], s.sid, s.item.writers[v], s'.stream.markers[v]) {
      assert ThreadOk(s.owes[v], s.sid, s.item.writers[v], s.stream.markers[v]);
    }
  }

  lemma {:induction false} MarkPending(s: Stream.State, m: nat, spurious: bool, idx: nat)
    requires m < |s.markers| && s.markers[m] != Stream.Idle && s.cells != []
    ensures var s' := Stream.DoMark(s, m, spurious);
      && |s'.markers| == |s.markers| && s'.cells != [] && s'.before == s.before
      && (idx in s'.pending <==>
            idx in s.pending || (s'.markers[m] == Stream.Idle && s.markers[m].idx == idx))
  {
  }

  lemma {:induction false} MarkRefines(s: State, m: nat, spurious: bool)
    requires Inv(s) && Enabled(s, Mark(m, spurious))
    ensures Refines(s, Next(s, Mark(m, spurious)), SyncAction(s, Mark(m, spurious)))
  {
    assert ThreadOk(s.owes[m], s.sid, s.item.writers[m], s.stream.markers[m]);
    MarkPending(s.stream, m, spurious, s.sid);
    var s' := Next(s, Mark(m, spurious));
    assert forall v :: 0 <= v < |s.owes| && v != m ==> s'.owes[v] == s.owes[v];
  }

  lemma {:induction false} BeginStep(s: State, m: nat, idx: nat, retries: int)
    requires Inv(s) && Enabled(s, Begin(m, idx, retries))
    ensures Inv(Next(s, Begin(m, idx, retries))) && Refines(s, Next(s, Begin(m, idx, retries)), None)
  {
    Stream.StepKeeps(s.stream, Stream.Begin(m, idx, retries));
    var s' := Next(s, Begin(m, idx, retries));
    forall v | 0 <= v < |s.owes| ensures ThreadOk(s.owes[v], s.sid, s.item.writers[v], s'.stream.markers[v]) {
      assert ThreadOk(s.owes[v], s.sid, s.item.writers[v], s.stream.markers[v]);
    }
  }

  lemma {:induction false} ScrapeStep(s: State, act: Action)
    requires Inv(s) && Enabled(s, act) && (act.Call? || act.Scrape?)
    ensures Inv(Next(s, act)) && Refines(s, Next(s, act), SyncAction(s, act))
  {
    Stream.StepKeeps(s.stream, if act.Call? then Stream.Call else Stream.Scrape);
  }

  lemma {:induction false} CopyStep(s: State)
    requires Inv(s) && Enabled(s, CopyField)
    ensures Inv(Next(s, CopyField)) && Refines(s, Next(s, CopyField), None)
  {
    Counter.StepKeeps(s.item, Counter.CopyField(0));
  }

  lemma {:induction false} StartReadStep(s: State)
    requires Inv(s) && Enabled(s, StartRead) && NoWrap(s, StartRead)
    ensures Inv(Next(s, StartRead)) && Refines(s, Next(s, StartRead), Some(Sync.BeginRead))
  {
    Counter.StepKeeps(s.item, Counter.StartRead(0));
    if s.seen == s.item.seqnum { Counter.Congruent(s.seenVersion, s.item.version); }
  }

  /**
   read_end accepts exactly what began unlocked and met no writer, and then the copy is the last
   completed write, with the flags that are in memory.
   */
  lemma {:induction false} AcceptedIs(s: State)
    requires Inv(s) && Enabled(s, EndRead) && NoWrap(s, EndRead)
    ensures var pc := s.item.readers[0];
      && (Counter.ReadEnd(pc.begin, s.item.seqnum) <==> Sync.Accepted(pc.v0, Abs(s)))
      && (Sync.Accepted(pc.v0, Abs(s)) ==> Copied(s) == LastWrite(s.item).(flags := s.word))
  {
    var pc := s.item.readers[0];
    assert Counter.ReaderOk(s.item, pc);
    Counter.SuccVersion(pc.v0);
    if Counter.ReadEnd(pc.begin, s.item.seqnum) { Counter.Congruent(pc.v0, s.item.version); }
    if Sync.Accepted(pc.v0, Abs(s)) { assert pc.copy == s.item.fields; }
  }

  lemma {:induction false} EndReadKeeps(s: State)
    requires Inv(s) && Enabled(s, EndRead)
    ensures Inv(Next(s, EndRead))
  {
    Counter.StepKeeps(s.item, Counter.EndRead(0));
    assert Counter.ReaderOk(s.item, s.item.readers[0]);
  }

  lemma {:induction false} EndReadRefines(s: State)
    requires Inv(s) && Enabled(s, EndRead) && NoWrap(s, EndRead)
    ensures Refines(s, Next(s, EndRead), SyncAction(s, EndRead))
  {
    AcceptedIs(s);
  }

  lemma {:induction false} EngineStep(s: State, act: Action)
    requires Inv(s) && Enabled(s, act) && (act.SetRunnable? || act.LoadFlags? || act.StoreRunnable?)
    ensures Inv(Next(s, act)) && Refines(s, Next(s, act), SyncAction(s, act))
  {
  }

  lemma {:induction false} StepRefines(s: State, act: Action)
    requires Inv(s) && Enabled(s, act) && NoWrap(s, act)
    ensures Inv(Next(s, act)) && Refines(s, Next(s, act), SyncAction(s, act))
  {
    match act
    case Write(w, a) =>
      WriteKeeps(s, w, a);
      WriteRefines(s, w, a);
    case Begin(m, idx, retries) => BeginStep(s, m, idx, retries);
    case Mark(m, spurious) =>
      MarkKeeps(s, m, spurious);
      MarkRefines(s, m, spurious);
    case Call => ScrapeStep(s, act);
    case Scrape => ScrapeStep(s, act);
    case StartRead => StartReadStep(s);
    case CopyField => CopyStep(s);
    case EndRead =>
      EndReadKeeps(s);
      EndReadRefines(s);
    case _ => EngineStep(s, act);
  }

  //---------------------------------------------------------------------------
  // Every run
  //---------------------------------------------------------------------------

  ghost predicate Steps(s: State, act: Action, s': State) { Enabled(s, act) && NoWrap(s, act) && s' == Next(s, act) }

  ghost predicate Run(states: seq<State>, actions: seq<Action>) {
    && |states| == |actions| + 1 && Init(states[0])
    && forall i :: 0 <= i < |actions| ==> Steps(states[i], actions[i], states[i + 1])
  }

  lemma {:induction false} InitHolds(s: State)
    requires Init(s)
    ensures Inv(s) && Sync.Init(Abs(s))
  {
    Stream.InitHolds(s.stream);
    Counter.InitHolds(s.item);
  }

  /** The step is the write_end that leaves this item. */
  predicate Completes(s: State, act: Action, item: Sync.Item) {
    act.Write? && act.a.EndWrite? && ItemOf(s.item.fields) == item
  }

  ghost predicate CompletedBefore(states: seq<State>, actions: seq<Action>, i: nat, item: Sync.Item) {
    exists j :: 0 <= j < i && j < |actions| && j < |states| && Completes(states[j], actions[j], item)
  }

  /** Every run is a run of PrioTableSync with some steps left out, of the same writes. */
  lemma {:induction false} RunRefines(states: seq<State>, actions: seq<Action>, i: nat)
    returns (syncs: seq<Sync.State>, steps: seq<Sync.Action>)
    requires Run(states, actions) && i < |states|
    ensures Inv(states[i]) && Sync.Run(syncs, steps) && syncs[|steps|] == Abs(states[i])
    ensures Sized(states[0]) && syncs[0] == Abs(states[0])
    ensures forall k :: 0 <= k < |steps| && steps[k].EndWrite? ==> CompletedBefore(states, actions, i, steps[k].item)
  {
    if i == 0 {
      InitHolds(states[0]);
      return [Abs(states[0])], [];
    }
    syncs, steps := RunRefines(states, actions, i - 1);
    var s, act := states[i - 1], actions[i - 1];
    assert Steps(s, act, states[i]);
    StepRefines(s, act);
    forall k | 0 <= k < |steps| && steps[k].EndWrite? ensures CompletedBefore(states, actions, i, steps[k].item) {
      assert CompletedBefore(states, actions, i - 1, steps[k].item);
    }
    if SyncAction(s, act).Some? {
      var a := SyncAction(s, act).value;
      assert a.EndWrite? ==> CompletedBefore(states, actions, i, a.item) by {
        assert a.EndWrite? ==> Completes(s, act, a.item);
      }
      Extended(syncs, steps, a, Abs(states[i]));
      syncs, steps := syncs + [Abs(states[i])], steps + [a];
    }
  }

  lemma {:induction false} Extended(syncs: seq<Sync.State>, steps: seq<Sync.Action>, a: Sync.Action, s': Sync.State)
    requires Sync.Run(syncs, steps) && Sync.Steps(syncs[|steps|], a, s')
    ensures Sync.Run(syncs + [s'], steps + [a])
  {
    var syncs', steps' := syncs + [s'], steps + [a];
    forall i | 0 <= i < |steps'| ensures Sync.Steps(syncs'[i], steps'[i], syncs'[i + 1]) {
      if i < |steps| { assert Sync.Steps(syncs[i], steps[i], syncs[i + 1]); }
    }
  }

  /** A thread is writing the item, or has written it and not marked its index yet. */
  predicate Busy(s: State)
    requires Sized(s)
  {
    exists w :: 0 <= w < |s.owes| && (s.item.writers[w].Writing? || s.owes[w])
  }

  predicate Settled(agent: Agent) { !agent.Refreshing? && !agent.Copying? }

  lemma {:induction false} BusyIs(s: State)
    requires Sized(s) && Sync.Busy(Abs(s))
    ensures Busy(s)
  {
    var w :| 0 <= w < |Abs(s).writers| && Abs(s).writers[w] != Sync.Away;
    assert s.item.writers[w].Writing? || s.owes[w];
  }

  /**
   In every run, outside a refresh, the agent's parameters are those of the last completed write, but
   for SCHED_ITEM_RUNNABLE which the agent may have added, or a writer is at work, or the index is marked
   and not reported.  Only if the agent stored flags that it had loaded before a writer stored its own
   can the other flags differ.
   */
  lemma {:induction false} OnlyFlagsDiffer(states: seq<State>, actions: seq<Action>, i: nat)
    requires Run(states, actions) && i < |states| && Settled(states[i].agent)
    ensures var s := states[i];
      && Sized(s)
      && (Sync.SameItem(s.params, LastWrite(s.item), s.straddled) || Busy(s) || s.sid in s.stream.pending)
  {
    var syncs, steps := RunRefines(states, actions, i);
    Sync.OnlyFlagsDiffer(syncs, steps, |steps|);
    if Sync.Busy(Abs(states[i])) { BusyIs(states[i]); }
  }

  /** All writes of the run are of these work classes; some classes repeat. */
  ghost predicate RunOfClasses(states: seq<State>, actions: seq<Action>, repeating: set<int>, classes: set<int>) {
    && Run(states, actions) && states[0].repeating == repeating
    && forall i :: 0 <= i < |actions| ==> OfClasses(states[i], actions[i], classes)
  }

  predicate OfClasses(s: State, act: Action, classes: set<int>) {
    act.Write? && act.a.EndWrite? ==> ItemOf(s.item.fields).wcid in classes
  }

  /** Outside a refresh the agent's parameters are the last completed write, or a change is announced. */
  predicate UpToDate(s: State) {
    Settled(s.agent) ==>
      Sized(s) && (s.params == LastWrite(s.item) || Busy(s) || s.sid in s.stream.pending)
  }

  lemma {:induction false} ClassesRefine(
      states: seq<State>, actions: seq<Action>, repeating: set<int>, classes: set<int>, i: nat)
    returns (syncs: seq<Sync.State>, steps: seq<Sync.Action>)
    requires RunOfClasses(states, actions, repeating, classes) && i < |states|
    ensures Inv(states[i]) && Sync.RunOfClasses(syncs, steps, repeating, classes) && syncs[|steps|] == Abs(states[i])
  {
    syncs, steps := RunRefines(states, actions, i);
    forall k | 0 <= k < |steps| ensures Sync.OfClasses(steps[k], classes) {
      if steps[k].EndWrite? {
        assert CompletedBefore(states, actions, i, steps[k].item);
        var j :| 0 <= j < i && j < |actions| && j < |states| && Completes(states[j], actions[j], steps[k].item);
        assert OfClasses(states[j], actions[j], classes);
      }
    }
  }

  /** The agent is never left with stale parameters of an item whose classes do not repeat. */
  lemma {:induction false} NeverStaleUnannounced(
      states: seq<State>, actions: seq<Action>, repeating: set<int>, classes: set<int>, i: nat)
    requires RunOfClasses(states, actions, repeating, classes) && i < |states| && classes !! repeating
    ensures UpToDate(states[i])
  {
    var syncs, steps := ClassesRefine(states, actions, repeating, classes, i);
    Sync.NeverStaleUnannounced(syncs, steps, repeating, classes, |steps|);
    if Sync.Busy(Abs(states[i])) { BusyIs(states[i]); }
  }

  /** A mark of the item that is not reported yet was there when the call began. */
  predicate IsOld(stream: Stream.State, sid: nat) { sid in stream.pending ==> sid in stream.before }

  /** Without a writer at work, no mark of the item completes. */
  lemma {:induction false} StaysOld(s: State, act: Action)
    requires Inv(s) && Enabled(s, act) && (act.Call? || (!Busy(s) && IsOld(s.stream, s.sid)))
    ensures IsOld(Next(s, act).stream, Next(s, act).sid)
  {
    if act.Mark? {
      assert ThreadOk(s.owes[act.m], s.sid, s.item.writers[act.m], s.stream.markers[act.m]);
      MarkPending(s.stream, act.m, act.spurious, s.sid);
    }
  }

  lemma {:induction false} StepStaysOld(states: seq<State>, actions: seq<Action>, i: nat)
    requires Run(states, actions) && i < |actions|
    requires actions[i].Call? || (IsQuiet(states[i]) && IsOld(states[i].stream, states[i].sid))
    ensures IsOld(states[i + 1].stream, states[i + 1].sid)
  {
    assert Steps(states[i], actions[i], states[i + 1]);
    var syncs, steps := RunRefines(states, actions, i);
    StaysOld(states[i], actions[i]);
  }

  predicate IsQuiet(s: State) { Sized(s) && !Busy(s) }

  lemma {:induction false} PendingIsOld(states: seq<State>, actions: seq<Action>, i: nat, j: nat)
    requires Run(states, actions) && i < j < |states| && actions[i] == Call
    requires forall k :: i < k < j ==> IsQuiet(states[k])
    ensures IsOld(states[j].stream, states[j].sid)
    decreases j
  {
    if i + 1 < j { PendingIsOld(states, actions, i, j - 1); }
    StepStaysOld(states, actions, j - 1);
  }

  /**
   If no writer of the item is at work during a call of NextUpdatedIndex that finds nothing, the
   agent is up to date afterwards, in the flags too if no class of the item repeats.
   */
  lemma {:induction false} QuietMeansUpToDate(
      states: seq<State>, actions: seq<Action>, repeating: set<int>, classes: set<int>, i: nat, j: nat)
    requires RunOfClasses(states, actions, repeating, classes) && i < j < |states| && actions[i] == Call
    requires forall k :: i < k < j ==> states[k].agent == Polling
    requires forall k :: i < k <= j ==> IsQuiet(states[k])
    requires states[j].stream.scraper == Stream.Ready && states[j].stream.last == Some(Stream.NoEntries)
    ensures var s := states[j];
      && Sync.SameItem(s.params, LastWrite(s.item), s.straddled)
      && (classes !! repeating ==> s.params == LastWrite(s.item))
  {
    PendingIsOld(states, actions, i, j);
    assert Steps(states[j - 1], actions[j - 1], states[j]);
    var syncs, steps := RunRefines(states, actions, j);
    OnlyFlagsDiffer(states, actions, j);
    if classes !! repeating { NeverStaleUnannounced(states, actions, repeating, classes, j); }
  }
}
