/**
 For which items the agent is always up to date or told of the change: exactly those that no writer
 puts in a repeating work class.

 MakeEngineRunnable, which stores the flags of the others without write_begin and without a mark, is
 shown in a run, access by access.
 */
module PrioTableClasses {
  import opened Common
  import opened PrioTableProtocol
  import Stream = PrioStream
  import Counter = SeqCount
  import Sync = PrioTableSync

  /** The last state of some run of such writes. */
  ghost predicate Arrives(s: State, repeating: set<int>, classes: set<int>) {
    exists states: seq<State>, actions: seq<Action> ::
      RunOfClasses(states, actions, repeating, classes) && states[|actions|] == s
  }

  lemma {:induction false} Go(s: State, act: Action, s': State, repeating: set<int>, classes: set<int>)
    requires Arrives(s, repeating, classes) && Steps(s, act, s') && OfClasses(s, act, classes)
    ensures Arrives(s', repeating, classes)
  {
    var states: seq<State>, actions: seq<Action> :|
      RunOfClasses(states, actions, repeating, classes) && states[|actions|] == s;
    RunGoesOn(states, actions, act, s', repeating, classes);
    assert (states + [s'])[|actions + [act]|] == s';
  }

  lemma {:induction false} RunGoesOn(
      states: seq<State>, actions: seq<Action>, act: Action, s': State, repeating: set<int>, classes: set<int>)
    requires RunOfClasses(states, actions, repeating, classes)
    requires Steps(states[|actions|], act, s') && OfClasses(states[|actions|], act, classes)
    ensures RunOfClasses(states + [s'], actions + [act], repeating, classes)
  {
    var states', actions' := states + [s'], actions + [act];
    forall i | 0 <= i < |actions'|
      ensures Steps(states'[i], actions'[i], states'[i + 1]) && OfClasses(states'[i], actions'[i], classes)
    {
      if i < |actions| {
        assert Steps(states[i], actions[i], states[i + 1]) && OfClasses(states[i], actions[i], classes);
      }
    }
  }

  //---------------------------------------------------------------------------
  // One thread, one cell, an item of flags, wcid and gpid
  //---------------------------------------------------------------------------

  /** The thread and the agent have nothing to do, and the agent has seen everything. */
  predicate Rested(s: State) {
    && s.sid == 0 && s.owes == [false] && s.agent == Waiting
    && |s.item.fields| == 3 && s.item.writers == [Counter.NotWriting]
    && |s.item.readers| == 1 && !s.item.readers[0].Copying?
    && s.item.version % 2 == 0 && s.item.version < 10 && s.item.seqnum == s.item.version
    && s.item.commits != [] && s.item.commits[|s.item.commits| - 1] == s.item.fields
    && s.stream.scrapeAll == 0 && s.stream.cells == [None] && s.stream.markers == [Stream.Idle]
    && s.stream.scraper == Stream.Ready && 0 !in s.stream.pending
    && s.seen == s.seenVersion == s.item.version
  }

  /** Thread 0 may write the item. */
  predicate CanWrite(s: State) {
    && s.owes == [false] && |s.item.writers| == 1 && s.stream.markers == [Stream.Idle] && |s.item.readers| == 1
    && |s.item.fields| == 3 && |s.stream.cells| == 1
  }

  lemma {:induction false} Writes(s: State, a: Counter.Action, s': State, repeating: set<int>, classes: set<int>)
    requires Arrives(s, repeating, classes) && CanWrite(s) && IsWriters(a, 0) && Counter.Enabled(s.item, a)
    requires OfClasses(s, Write(0, a), classes) && s' == DoWrite(s, 0, a)
    ensures Arrives(s', repeating, classes)
  {
    Go(s, Write(0, a), s', repeating, classes);
  }

  /** The item with the writer at this place. */
  function At(s: State, pc: Counter.Writer): State { s.(item := s.item.(writers := [pc])) }

  /** The item inside the critical section. */
  function Inside(s: State): State
    requires s.item.seqnum < 100
  {
    s.(item := s.item.(seqnum := s.item.seqnum + 1, version := s.item.version + 1,
                       writers := [Counter.Writing(s.item.seqnum + 1)]))
  }

  lemma {:induction false} Loads(s: State, repeating: set<int>, classes: set<int>)
    requires Arrives(s, repeating, classes) && CanWrite(s) && s.item.writers == [Counter.NotWriting]
    ensures Arrives(At(s, Counter.WriteLoad), repeating, classes)
  {
    Writes(s, Counter.StartWrite(0), At(s, Counter.WriteLoad), repeating, classes);
  }

  lemma {:induction false} FindsUnlocked(s: State, repeating: set<int>, classes: set<int>)
    requires Arrives(At(s, Counter.WriteLoad), repeating, classes) && CanWrite(s) && !Counter.Locked(s.item.seqnum)
    ensures Arrives(At(s, Counter.WriteCas(s.item.seqnum)), repeating, classes)
  {
    var s', pc := At(s, Counter.WriteLoad), Counter.WriteCas(s.item.seqnum);
    Writes(s', Counter.WriterStep(0, false), At(s, pc), repeating, classes);
  }

  lemma {:induction false} Enters(s: State, repeating: set<int>, classes: set<int>)
    requires s.item.seqnum < 100 && CanWrite(s)
    requires Arrives(At(s, Counter.WriteCas(s.item.seqnum)), repeating, classes)
    ensures Arrives(Inside(s), repeating, classes)
  {
    Writes(At(s, Counter.WriteCas(s.item.seqnum)), Counter.WriterStep(0, false), Inside(s), repeating, classes);
  }

  lemma {:induction false} BeginsWrite(s: State, repeating: set<int>, classes: set<int>)
    requires Arrives(s, repeating, classes) && CanWrite(s) && s.item.writers == [Counter.NotWriting]
    requires s.item.seqnum < 100 && !Counter.Locked(s.item.seqnum)
    ensures Arrives(Inside(s), repeating, classes)
  {
    Loads(s, repeating, classes);
    FindsUnlocked(s, repeating, classes);
    Enters(s, repeating, classes);
  }

  /** The flags are stored in memory too. */
  function Stored(s: State, flags: int, fields: seq<int>): State {
    s.(item := s.item.(fields := fields), word := flags, stores := s.stores + 1, straddled := false)
  }

  lemma {:induction false} WritesFlags(s: State, flags: int, repeating: set<int>, classes: set<int>)
    requires Arrives(s, repeating, classes) && CanWrite(s) && s.item.writers[0].Writing?
    ensures Arrives(Stored(s, flags, s.item.fields[0 := flags]), repeating, classes)
  {
    Writes(s, Counter.WriteField(0, 0, flags), Stored(s, flags, s.item.fields[0 := flags]), repeating, classes);
  }

  lemma {:induction false} WritesField(
      s: State, flags: int, fields: seq<int>, k: nat, value: int, repeating: set<int>, classes: set<int>)
    requires CanWrite(s) && s.item.writers[0].Writing? && |fields| == 3 && 0 < k < 3
    requires Arrives(Stored(s, flags, fields), repeating, classes)
    ensures Arrives(Stored(s, flags, fields[k := value]), repeating, classes)
  {
    Writes(Stored(s, flags, fields), Counter.WriteField(0, k, value), Stored(s, flags, fields[k := value]),
           repeating, classes);
  }

  lemma {:induction false} WritesFields(
      s: State, flags: int, wcid: int, gpid: int, repeating: set<int>, classes: set<int>)
    requires Arrives(s, repeating, classes) && CanWrite(s) && s.item.writers[0].Writing?
    ensures Arrives(Stored(s, flags, [flags, wcid, gpid]), repeating, classes)
  {
    var f := s.item.fields[0 := flags];
    WritesFlags(s, flags, repeating, classes);
    WritesField(s, flags, f, 1, wcid, repeating, classes);
    WritesField(s, flags, f[1 := wcid], 2, gpid, repeating, classes);
    assert f[1 := wcid][2 := gpid] == [flags, wcid, gpid];
  }

  /** What a write of these fields makes of the state. */
  function Written(s: State, fields: seq<int>): State
    requires fields != [] && s.item.seqnum < 100
  {
    s.(item := s.item.(seqnum := s.item.seqnum + 2, version := s.item.version + 2, fields := fields,
                       writers := [Counter.NotWriting], commits := s.item.commits + [fields]),
       word := fields[0], stores := s.stores + 1, straddled := false, owes := [true])
  }

  lemma {:induction false} EndsWrite(s: State, fields: seq<int>, repeating: set<int>, classes: set<int>)
    requires CanWrite(s) && s.item.seqnum < 100 && |fields| == 3 && fields[1] in classes
    requires Arrives(Stored(Inside(s), fields[0], fields), repeating, classes)
    ensures Arrives(Written(s, fields), repeating, classes)
  {
    Writes(Stored(Inside(s), fields[0], fields), Counter.EndWrite(0), Written(s, fields), repeating, classes);
  }

  /** Thread 0 may mark the item, or is at it. */
  predicate CanMark(s: State) {
    && s.sid == 0 && s.owes == [true] && s.item.writers == [Counter.NotWriting] && |s.stream.markers| == 1
    && |s.item.readers| == 1 && |s.item.fields| == 3 && s.stream.cells == [None] && s.stream.scrapeAll == 0
  }

  /** A step inside MarkUpdatedIndex. */
  lemma {:induction false} Marks(
      s: State, from: Stream.Marker, to: Stream.Marker, repeating: set<int>, classes: set<int>)
    requires CanMark(s) && s.stream.markers == [Stream.Idle] && from != Stream.Idle && to != Stream.Idle
    requires Arrives(s.(stream := s.stream.(markers := [from])), repeating, classes)
    requires Stream.DoMark(s.stream.(markers := [from]), 0, false) == s.stream.(markers := [to])
    ensures Arrives(s.(stream := s.stream.(markers := [to])), repeating, classes)
  {
    Go(s.(stream := s.stream.(markers := [from])), Mark(0, false), s.(stream := s.stream.(markers := [to])),
       repeating, classes);
  }

  /** What a mark makes of the state. */
  function Announced(s: State): State {
    s.(owes := [false],
       stream := s.stream.(cells := [Some(0)], marked := s.stream.marked + {0}, pending := s.stream.pending + {0}))
  }

  lemma {:induction false} MarksLast(s: State, repeating: set<int>, classes: set<int>)
    requires CanMark(s) && s.stream.markers == [Stream.Idle]
    requires Arrives(s.(stream := s.stream.(markers := [Stream.Cas(0, 0, 0)])), repeating, classes)
    ensures Arrives(Announced(s), repeating, classes)
  {
    Go(s.(stream := s.stream.(markers := [Stream.Cas(0, 0, 0)])), Mark(0, false), Announced(s), repeating, classes);
  }

  lemma {:induction false} MarksFirst(s: State, repeating: set<int>, classes: set<int>)
    requires Arrives(s, repeating, classes) && CanMark(s) && s.stream.markers == [Stream.Idle]
    ensures Arrives(s.(stream := s.stream.(markers := [Stream.Start(0, 0)])), repeating, classes)
  {
    Go(s, Begin(0, 0, 0), s.(stream := s.stream.(markers := [Stream.Start(0, 0)])), repeating, classes);
  }

  lemma {:induction false} MarksItem(s: State, repeating: set<int>, classes: set<int>)
    requires Arrives(s, repeating, classes) && CanMark(s) && s.stream.markers == [Stream.Idle]
    ensures Arrives(Announced(s), repeating, classes)
  {
    MarksFirst(s, repeating, classes);
    Marks(s, Stream.Start(0, 0), Stream.Probe(0, 0, 0), repeating, classes);
    Marks(s, Stream.Probe(0, 0, 0), Stream.Cas(0, 0, 0), repeating, classes);
    MarksLast(s, repeating, classes);
  }

  /** The agent may take its steps. */
  predicate CanScrape(s: State) {
    && s.sid == 0 && |s.owes| == |s.item.writers| == |s.stream.markers| == 1
    && |s.item.readers| == 1 && |s.item.fields| == 3 && s.stream.cells == [Some(0)] && s.stream.scrapeAll == 0
  }

  /** Inside the call of NextUpdatedIndex. */
  function Called(s: State, pc: Stream.Scraper): State {
    s.(agent := Polling, stream := s.stream.(scraper := pc, before := s.stream.pending))
  }

  lemma {:induction false} Calls(s: State, repeating: set<int>, classes: set<int>)
    requires Arrives(s, repeating, classes) && CanScrape(s) && s.agent == Waiting && s.stream.scraper == Stream.Ready
    ensures Arrives(Called(s, Stream.Check), repeating, classes)
  {
    Go(s, Call, Called(s, Stream.Check), repeating, classes);
  }

  lemma {:induction false} Scrapes(
      s: State, from: Stream.Scraper, to: Stream.Scraper, repeating: set<int>, classes: set<int>)
    requires CanScrape(s) && Arrives(Called(s, from), repeating, classes) && from != Stream.Ready && to != Stream.Ready
    requires Stream.DoScrape(Called(s, from).stream) == Called(s, to).stream
    ensures Arrives(Called(s, to), repeating, classes)
  {
    Go(Called(s, from), Scrape, Called(s, to), repeating, classes);
  }

  /** What the report of the item makes of the state. */
  function Found(s: State): State {
    s.(agent := Refreshing,
       stream := s.stream.(cells := [None], scraper := Stream.Ready, last := Some(Stream.Updated(0)),
                           before := s.stream.pending, pending := s.stream.pending - {0}))
  }

  lemma {:induction false} Reports(s: State, repeating: set<int>, classes: set<int>)
    requires CanScrape(s) && Arrives(Called(s, Stream.Store(0, 0, false)), repeating, classes)
    ensures Arrives(Found(s), repeating, classes)
  {
    Go(Called(s, Stream.Store(0, 0, false)), Scrape, Found(s), repeating, classes);
  }

  lemma {:induction false} FindsItem(s: State, repeating: set<int>, classes: set<int>)
    requires Arrives(s, repeating, classes) && CanScrape(s) && s.agent == Waiting && s.stream.scraper == Stream.Ready
    ensures Arrives(Found(s), repeating, classes)
  {
    Calls(s, repeating, classes);
    Scrapes(s, Stream.Check, Stream.Scan(0, false), repeating, classes);
    Scrapes(s, Stream.Scan(0, false), Stream.Store(0, 0, false), repeating, classes);
    Reports(s, repeating, classes);
  }

  /** The agent may copy the item. */
  predicate CanCopy(s: State) {
    && |s.owes| == |s.item.writers| == |s.stream.markers| == 1
    && |s.item.readers| == 1 && |s.item.fields| == 3 && s.stream.cells != []
  }

  function Reading(s: State, copy: seq<int>, copied: int): State
  {
    s.(agent := Copying, copied := copied,
       item := s.item.(readers := [Counter.Copying(s.item.seqnum, s.item.version, copy)]))
  }

  lemma {:induction false} Copies(
      s: State, copy: seq<int>, copied: int, repeating: set<int>, classes: set<int>)
    requires CanCopy(s) && |copy| < 3 && Arrives(Reading(s, copy, copied), repeating, classes)
    ensures var now := if copy == [] then s.word else copied;
      Arrives(Reading(s, copy + [s.item.fields[|copy|]], now), repeating, classes)
  {
    var now := if copy == [] then s.word else copied;
    Go(Reading(s, copy, copied), CopyField, Reading(s, copy + [s.item.fields[|copy|]], now), repeating, classes);
  }

  lemma {:induction false} CopiesItem(s: State, repeating: set<int>, classes: set<int>)
    requires CanCopy(s) && Arrives(Reading(s, [], s.copied), repeating, classes)
    ensures Arrives(Reading(s, s.item.fields, s.word), repeating, classes)
  {
    var f := s.item.fields;
    Copies(s, [], s.copied, repeating, classes);
    assert [] + [f[0]] == [f[0]] && [f[0]] + [f[1]] == [f[0], f[1]] && [f[0], f[1]] + [f[2]] == f;
    Copies(s, [f[0]], s.word, repeating, classes);
    Copies(s, [f[0], f[1]], s.word, repeating, classes);
  }

  predicate CanTake(s: State) {
    && CanCopy(s) && s.item.version < 10 && s.item.version % 2 == 0 && s.item.seqnum == s.item.version
  }

  lemma {:induction false} StartsRead(s: State, repeating: set<int>, classes: set<int>)
    requires Arrives(s, repeating, classes) && CanTake(s) && s.agent == Refreshing && !s.item.readers[0].Copying?
    requires s.seen != s.item.seqnum
    ensures Arrives(Reading(s, [], s.copied), repeating, classes)
  {
    Go(s, StartRead, Reading(s, [], s.copied), repeating, classes);
  }

  function Taken(s: State): State {
    s.(agent := Waiting, copied := s.word, seen := s.item.seqnum, seenVersion := s.item.version,
       params := ItemOf(s.item.fields).(flags := s.word),
       item := s.item.(readers := [Counter.DoneReading(s.item.version, s.item.fields, true)]))
  }

  lemma {:induction false} EndsRead(s: State, repeating: set<int>, classes: set<int>)
    requires CanTake(s) && Arrives(Reading(s, s.item.fields, s.word), repeating, classes)
    ensures Arrives(Taken(s), repeating, classes)
  {
    Go(Reading(s, s.item.fields, s.word), EndRead, Taken(s), repeating, classes);
  }

  lemma {:induction false} TakesItem(s: State, repeating: set<int>, classes: set<int>)
    requires Arrives(s, repeating, classes) && CanTake(s) && s.agent == Refreshing && !s.item.readers[0].Copying?
    requires s.seen != s.item.seqnum
    ensures Arrives(Taken(s), repeating, classes)
  {
    StartsRead(s, repeating, classes);
    CopiesItem(s, repeating, classes);
    EndsRead(s, repeating, classes);
  }

  lemma {:induction false} WritesItem(
      s: State, flags: int, wcid: int, gpid: int, repeating: set<int>, classes: set<int>)
    requires Arrives(s, repeating, classes) && Rested(s) && wcid in classes
    ensures Arrives(Written(s, [flags, wcid, gpid]), repeating, classes)
  {
    BeginsWrite(s, repeating, classes);
    WritesFields(Inside(s), flags, wcid, gpid, repeating, classes);
    EndsWrite(s, [flags, wcid, gpid], repeating, classes);
  }

  /** The state after a write that is marked, reported and copied. */
  function AfterRound(s: State, fields: seq<int>): State
    requires fields != [] && s.item.seqnum < 100
  {
    Taken(Found(Announced(Written(s, fields))))
  }

  /** The item is written and marked, and the agent learns of it. */
  lemma {:induction false} Round(s: State, flags: int, wcid: int, gpid: int, repeating: set<int>, classes: set<int>)
    requires Arrives(s, repeating, classes) && Rested(s) && wcid in classes && s.item.version < 8
    ensures Arrives(AfterRound(s, [flags, wcid, gpid]), repeating, classes)
  {
    WritesItem(s, flags, wcid, gpid, repeating, classes);
    var s1 := Written(s, [flags, wcid, gpid]);
    MarksItem(s1, repeating, classes);
    FindsItem(Announced(s1), repeating, classes);
    TakesItem(Found(Announced(s1)), repeating, classes);
  }

  lemma {:induction false} RestsAfter(s: State, flags: int, wcid: int, gpid: int)
    requires Rested(s) && s.item.version < 8
    ensures var s' := AfterRound(s, [flags, wcid, gpid]);
      && Rested(s') && s'.item.version == s.item.version + 2 && s'.word == flags && s'.repeating == s.repeating
      && s'.params == LastWrite(s'.item) == Sync.Item(flags, wcid, gpid, [])
  {
  }

  const ZEROS := [0, 0, 0]

  function Fresh(repeating: set<int>): State {
    State(0, Stream.State(0, [None], [Stream.Idle], Stream.Ready, None, {}, {}, {}),
          Counter.State(0, ZEROS, [Counter.NotWriting], [Counter.NotReading], 0, [ZEROS]),
          0, 0, false, [false], Waiting, 0, 0, 0, ItemOf(ZEROS), repeating)
  }

  lemma {:induction false} Starts(repeating: set<int>, classes: set<int>)
    ensures Arrives(Fresh(repeating), repeating, classes) && Rested(Fresh(repeating))
  {
    var states: seq<State>, actions: seq<Action> := [Fresh(repeating)], [];
    assert RunOfClasses(states, actions, repeating, classes) && states[|actions|] == Fresh(repeating);
  }

  /** The agent makes the engine runnable. */
  lemma {:induction false} MakesRunnable(s: State, repeating: set<int>, classes: set<int>) returns (s': State)
    requires Arrives(s, repeating, classes) && Rested(s) && CanMakeRunnable(s) && s.word == 0
    ensures s' == s.(params := Sync.MakeRunnable(s.params), word := 1) && Arrives(s', repeating, classes)
  {
    var s1 := s.(agent := Loading, params := Sync.MakeRunnable(s.params));
    Go(s, SetRunnable, s1, repeating, classes);
    var s2 := s1.(agent := Storing(0, s.stores));
    Go(s1, LoadFlags, s2, repeating, classes);
    s' := s1.(agent := Waiting, word := 1);
    Go(s2, StoreRunnable, s', repeating, classes);
  }

  lemma {:induction false} BecomesIdle(wcid: int, repeating: set<int>, classes: set<int>) returns (s: State)
    requires wcid in classes
    ensures Arrives(s, repeating, classes) && Rested(s) && s.repeating == repeating && s.word == 0
    ensures s.params == LastWrite(s.item) == Sync.Item(0, wcid, 7, [])
  {
    Starts(repeating, classes);
    Round(Fresh(repeating), 1, wcid, 7, repeating, classes);
    RestsAfter(Fresh(repeating), 1, wcid, 7);
    var s1 := AfterRound(Fresh(repeating), [1, wcid, 7]);
    Round(s1, 0, wcid, 7, repeating, classes);
    RestsAfter(s1, 0, wcid, 7);
    s := AfterRound(s1, [0, wcid, 7]);
  }

  /**
   A worker of a repeating class gets work and becomes idle again.  When the agent has learned that, it
   makes the engine runnable, in its own copy and in memory.  No writer is at work and nothing is marked,
   and the last completed write says idle.
   */
  lemma {:induction false} EngineIsUnannounced(wcid: int, repeating: set<int>, classes: set<int>) returns (s': State)
    requires wcid in repeating && wcid in classes
    ensures Arrives(s', repeating, classes) && s'.agent == Waiting && Sized(s') && !Busy(s')
    ensures s'.sid !in s'.stream.pending && LastWrite(s'.item) == Sync.Item(0, wcid, 7, [])
    ensures s'.params == Sync.Item(1, wcid, 7, []) && s'.word == 1
  {
    var s := BecomesIdle(wcid, repeating, classes);
    s' := MakesRunnable(s, repeating, classes);
  }

  //---------------------------------------------------------------------------
  // The exact condition
  //---------------------------------------------------------------------------

  /** The agent is up to date, or told of the change, in every state of every run of such writes. */
  ghost predicate AlwaysUpToDate(repeating: set<int>, classes: set<int>) {
    forall states: seq<State>, actions: seq<Action>, i: nat ::
      RunOfClasses(states, actions, repeating, classes) && i < |states| ==> UpToDate(states[i])
  }

  lemma {:induction false} ClassesDecide(repeating: set<int>, classes: set<int>)
    ensures AlwaysUpToDate(repeating, classes) <==> classes !! repeating
  {
    if exists wcid :: wcid in classes && wcid in repeating {
      var wcid :| wcid in classes && wcid in repeating;
      var s := EngineIsUnannounced(wcid, repeating, classes);
      var states: seq<State>, actions: seq<Action> :|
        RunOfClasses(states, actions, repeating, classes) && states[|actions|] == s;
      assert !UpToDate(states[|actions|]);
    } else {
      assert classes !! repeating;
      forall states: seq<State>, actions: seq<Action>, i: nat |
        RunOfClasses(states, actions, repeating, classes) && i < |states|
        ensures UpToDate(states[i])
      {
        NeverStaleUnannounced(states, actions, repeating, classes, i);
      }
    }
  }

  /** The same of the runs in which marks, reports and copies are single steps. */
  ghost predicate SyncUpToDate(repeating: set<int>, classes: set<int>) {
    forall states: seq<Sync.State>, actions: seq<Sync.Action>, i: nat ::
      Sync.RunOfClasses(states, actions, repeating, classes) && i < |states| ==> Sync.UpToDate(states[i])
  }

  lemma {:induction false} ClassesDecideSync(repeating: set<int>, classes: set<int>)
    ensures SyncUpToDate(repeating, classes) <==> classes !! repeating
  {
    if exists wcid :: wcid in classes && wcid in repeating {
      var wcid :| wcid in classes && wcid in repeating;
      var s := EngineIsUnannounced(wcid, repeating, classes);
      var states: seq<State>, actions: seq<Action> :|
        RunOfClasses(states, actions, repeating, classes) && states[|actions|] == s;
      var syncs, steps := ClassesRefine(states, actions, repeating, classes, |actions|);
      if Sync.Busy(Abs(s)) { BusyIs(s); }
      assert !Sync.UpToDate(syncs[|steps|]);
    } else {
      assert classes !! repeating;
      forall states: seq<Sync.State>, actions: seq<Sync.Action>, i: nat |
        Sync.RunOfClasses(states, actions, repeating, classes) && i < |states|
        ensures Sync.UpToDate(states[i])
      {
        Sync.NeverStaleUnannounced(states, actions, repeating, classes, i);
      }
    }
  }
}
