/** The sequence counter that guards a sched_item. */
module SeqCount {
  /*
   Any number of writers change its fields one at a time, and any number of readers copy them one at a
   time without locking.  The counter is 32 bits wide and wraps around.
   */

  const TWO31 := 0x8000_0000
  const TWO32 := 0x1_0000_0000

  type Word = x: int | 0 <= x < TWO32

  /** Where a writer is; seq0 and begin are the local variables of write_begin and write_end. */
  datatype Writer =
    | NotWriting
    | WriteLoad
    | WriteCas(seq0: Word)
    | TryLoad
    | TryCas(seq0: Word)
    | Writing(begin: Word)

  /** Where a reader is; v0 is the version when it called read_begin, kept for the record only. */
  datatype Reader =
    | NotReading
    | Copying(begin: Word, v0: nat, copy: seq<int>)
    | DoneReading(v0: nat, copy: seq<int>, ok: bool)

  /**
   version counts every write_begin and write_end that took effect, and commits holds the fields
   initially and after each completed write; both only record history.
   */
  datatype State = State(
    seqnum: Word,
    fields: seq<int>,
    writers: seq<Writer>,
    readers: seq<Reader>,
    version: nat,
    commits: seq<seq<int>>)

  datatype Action =
    | StartWrite(w: nat)
    | StartTry(w: nat)
    | WriterStep(w: nat, spurious: bool)
    | WriteField(w: nat, i: nat, value: int)
    | EndWrite(w: nat)
    | StartRead(r: nat)
    | CopyField(r: nat)
    | EndRead(r: nat)

  function Succ(x: Word): Word { (x + 1) % TWO32 }

  predicate Locked(x: Word) { x % 2 == 1 }

  function SetWriter(s: State, w: nat, pc: Writer): State
    requires w < |s.writers|
  {
    s.(writers := s.writers[w := pc])
  }

  /** One step of write_begin or try_write_begin; a failed weak exchange reloads seq0. */
  function DoWriter(s: State, w: nat, spurious: bool): State
    requires w < |s.writers|
  {
    match s.writers[w]
    case WriteLoad => SetWriter(s, w, if Locked(s.seqnum) then WriteLoad else WriteCas(s.seqnum))
    case WriteCas(seq0) =>
      if s.seqnum == seq0 && !spurious then
        SetWriter(s, w, Writing(Succ(seq0))).(seqnum := Succ(seq0), version := s.version + 1)
      else SetWriter(s, w, if Locked(s.seqnum) then WriteLoad else WriteCas(s.seqnum))
    case TryLoad => SetWriter(s, w, if Locked(s.seqnum) then NotWriting else TryCas(s.seqnum))
    case TryCas(seq0) =>
      if s.seqnum == seq0 then
        SetWriter(s, w, Writing(Succ(seq0))).(seqnum := Succ(seq0), version := s.version + 1)
      else SetWriter(s, w, NotWriting)
    case _ => s
  }

  function DoEndWrite(s: State, w: nat): State
    requires w < |s.writers| && s.writers[w].Writing?
  {
    SetWriter(s, w, NotWriting).(
      seqnum := Succ(s.writers[w].begin), version := s.version + 1, commits := s.commits + [s.fields])
  }

  function DoCopy(s: State, r: nat): State
    requires r < |s.readers| && s.readers[r].Copying? && |s.readers[r].copy| < |s.fields|
  {
    var pc := s.readers[r];
    s.(readers := s.readers[r := Copying(pc.begin, pc.v0, pc.copy + [s.fields[|pc.copy|]])])
  }

  /** read_end. */
  function ReadEnd(begin: Word, seqnum: Word): bool { !Locked(begin) && begin == seqnum }

  function DoEndRead(s: State, r: nat): State
    requires r < |s.readers| && s.readers[r].Copying?
  {
    var pc := s.readers[r];
    s.(readers := s.readers[r := DoneReading(pc.v0, pc.copy, ReadEnd(pc.begin, s.seqnum))])
  }

  predicate Enabled(s: State, a: Action) {
    match a
    case StartWrite(w) => w < |s.writers| && s.writers[w] == NotWriting
    case StartTry(w) => w < |s.writers| && s.writers[w] == NotWriting
    case WriterStep(w, _) => w < |s.writers| && s.writers[w] != NotWriting && !s.writers[w].Writing?
    case WriteField(w, i, _) => w < |s.writers| && s.writers[w].Writing? && i < |s.fields|
    case EndWrite(w) => w < |s.writers| && s.writers[w].Writing?
    case StartRead(r) => r < |s.readers| && !s.readers[r].Copying?
    case CopyField(r) => r < |s.readers| && s.readers[r].Copying? && |s.readers[r].copy| < |s.fields|
    case EndRead(r) => r < |s.readers| && s.readers[r].Copying? && |s.readers[r].copy| == |s.fields|
  }

  function Next(s: State, a: Action): State
    requires Enabled(s, a)
  {
    match a
    case StartWrite(w) => SetWriter(s, w, WriteLoad)
    case StartTry(w) => SetWriter(s, w, TryLoad)
    case WriterStep(w, spurious) => DoWriter(s, w, spurious)
    case WriteField(_, i, value) => s.(fields := s.fields[i := value])
    case EndWrite(w) => DoEndWrite(s, w)
    case StartRead(r) => s.(readers := s.readers[r := Copying(s.seqnum, s.version, [])])
    case CopyField(r) => DoCopy(s, r)
    case EndRead(r) => DoEndRead(s, r)
  }

  predicate Init(s: State) {
    && s.seqnum == 0 && s.version == 0 && s.commits == [s.fields]
    && (forall w :: 0 <= w < |s.writers| ==> s.writers[w] == NotWriting)
    && (forall r :: 0 <= r < |s.readers| ==> s.readers[r] == NotReading)
  }

  //---------------------------------------------------------------------------
  // Invariant
  //---------------------------------------------------------------------------

  /** At most one writer is between write_begin and write_end, and one is exactly while locked. */
  predicate Exclusive(s: State) {
    && (forall w :: 0 <= w < |s.writers| && s.writers[w].Writing? ==>
          Locked(s.seqnum) && s.writers[w].begin == s.seqnum)
    && (forall v, w :: 0 <= v < w < |s.writers| ==> !(s.writers[v].Writing? && s.writers[w].Writing?))
    && (Locked(s.seqnum) ==> exists w :: 0 <= w < |s.writers| && s.writers[w].Writing?)
    && (forall w :: 0 <= w < |s.writers| && s.writers[w].WriteCas? ==> !Locked(s.writers[w].seq0))
    && (forall w :: 0 <= w < |s.writers| && s.writers[w].TryCas? ==> !Locked(s.writers[w].seq0))
  }

  predicate Recorded(s: State) {
    && s.seqnum == s.version % TWO32
    && |s.commits| == s.version / 2 + 1
    && (forall i :: 0 <= i < |s.commits| ==> |s.commits[i]| == |s.fields|)
    && (s.version % 2 == 0 ==> s.fields == s.commits[s.version / 2])
  }

  /** While nothing was written since read_begin, the copy agrees with the last completed write. */
  predicate ReaderOk(s: State, pc: Reader) {
    match pc
    case NotReading => true
    case Copying(begin, v0, copy) =>
      && begin == v0 % TWO32 && v0 <= s.version && |copy| <= |s.fields|
      && (v0 % 2 == 0 && s.version == v0 ==> forall i :: 0 <= i < |copy| ==> copy[i] == s.fields[i])
    case DoneReading(v0, copy, ok) =>
      && v0 <= s.version
      && (ok ==> v0 % 2 == 0 && ((v0 / 2 < |s.commits| && copy == s.commits[v0 / 2]) || s.version - v0 >= TWO32))
  }

  ghost predicate Inv(s: State) {
    && Exclusive(s) && Recorded(s)
    && forall r :: 0 <= r < |s.readers| ==> ReaderOk(s, s.readers[r])
  }

  lemma {:induction false} InitHolds(s: State)
    requires Init(s)
    ensures Inv(s)
  {
  }

  lemma {:induction false} SuccVersion(v: nat)
    ensures Succ(v % TWO32) == (v + 1) % TWO32
    ensures Locked(v % TWO32) <==> v % 2 == 1
  {
  }

  lemma {:induction false} WriterKeeps(s: State, w: nat, spurious: bool)
    requires Inv(s) && Enabled(s, WriterStep(w, spurious))
    ensures Inv(DoWriter(s, w, spurious))
  {
    SuccVersion(s.version);
    var s' := DoWriter(s, w, spurious);
    if s'.version != s.version {
      assert s'.writers[w].Writing?;
      assert !Locked(s.seqnum);
    } else if Locked(s.seqnum) {
      var v :| 0 <= v < |s.writers| && s.writers[v].Writing?;
      assert s'.writers[v].Writing?;
    }
  }

  lemma {:induction false} EndWriteKeeps(s: State, w: nat)
    requires Inv(s) && Enabled(s, EndWrite(w))
    ensures Inv(DoEndWrite(s, w))
  {
    SuccVersion(s.version);
    var s' := DoEndWrite(s, w);
    forall r | 0 <= r < |s.readers| ensures ReaderOk(s', s'.readers[r]) {
      assert ReaderOk(s, s.readers[r]);
    }
  }

  lemma {:induction false} EndReadKeeps(s: State, r: nat)
    requires Inv(s) && Enabled(s, EndRead(r))
    ensures Inv(DoEndRead(s, r))
  {
    var s' := DoEndRead(s, r);
    var pc := s.readers[r];
    assert ReaderOk(s, pc);
    SuccVersion(pc.v0);
    if ReadEnd(pc.begin, s.seqnum) {
      Congruent(pc.v0, s.version);
      if s.version == pc.v0 { assert pc.copy == s.fields; }
    }
    forall q | 0 <= q < |s.readers| ensures ReaderOk(s', s'.readers[q]) {
      assert ReaderOk(s, s.readers[q]);
    }
  }

  lemma {:induction false} Congruent(a: nat, b: nat)
    requires a <= b && a % TWO32 == b % TWO32
    ensures a == b || b - a >= TWO32
  {
  }

  lemma {:induction false} StepKeeps(s: State, a: Action)
    requires Inv(s) && Enabled(s, a)
    ensures Inv(Next(s, a))
  {
    match a
    case WriterStep(w, spurious) => WriterKeeps(s, w, spurious);
    case EndWrite(w) => EndWriteKeeps(s, w);
    case EndRead(r) => EndReadKeeps(s, r);
    case CopyField(r) => assert ReaderOk(s, s.readers[r]);
    case WriteField(w, i, value) => WriteFieldKeeps(s, w, i, value);
    case StartWrite(w) => KeepsWriting(s, Next(s, a), w);
    case StartTry(w) => KeepsWriting(s, Next(s, a), w);
    case StartRead(r) =>
  }

  lemma {:induction false} KeepsWriting(s: State, s': State, w: nat)
    requires Inv(s) && w < |s.writers| && s.writers[w] == NotWriting
    requires s' == SetWriter(s, w, WriteLoad) || s' == SetWriter(s, w, TryLoad)
    ensures Exclusive(s')
  {
    if Locked(s.seqnum) {
      var v :| 0 <= v < |s.writers| && s.writers[v].Writing?;
      assert s'.writers[v].Writing?;
    }
  }

  lemma {:induction false} WriteFieldKeeps(s: State, w: nat, i: nat, value: int)
    requires Inv(s) && Enabled(s, WriteField(w, i, value))
    ensures Inv(Next(s, WriteField(w, i, value)))
  {
    SuccVersion(s.version);
    var s' := Next(s, WriteField(w, i, value));
    forall r | 0 <= r < |s.readers| ensures ReaderOk(s', s'.readers[r]) {
      assert ReaderOk(s, s.readers[r]);
    }
  }

  //---------------------------------------------------------------------------
  // Every run
  //---------------------------------------------------------------------------

  ghost predicate Steps(s: State, a: Action, s': State) { Enabled(s, a) && s' == Next(s, a) }

  ghost predicate Run(states: seq<State>, actions: seq<Action>) {
    && |states| == |actions| + 1 && Init(states[0])
    && forall i :: 0 <= i < |actions| ==> Steps(states[i], actions[i], states[i + 1])
  }

  lemma {:induction false} RunKeepsInv(states: seq<State>, actions: seq<Action>, i: nat)
    requires Run(states, actions) && i < |states|
    ensures Inv(states[i])
  {
    if i == 0 {
      InitHolds(states[0]);
    } else {
      RunKeepsInv(states, actions, i - 1);
      assert Steps(states[i - 1], actions[i - 1], states[i]);
      StepKeeps(states[i - 1], actions[i - 1]);
    }
  }

  /** Writers exclude each other, and write_end finds the counter as write_begin left it. */
  lemma {:induction false} WritersExclude(states: seq<State>, actions: seq<Action>, i: nat, v: nat, w: nat)
    requires Run(states, actions) && i < |states|
    requires v < |states[i].writers| && w < |states[i].writers|
    requires states[i].writers[v].Writing? && states[i].writers[w].Writing?
    ensures v == w && states[i].writers[w].begin == states[i].seqnum
  {
    RunKeepsInv(states, actions, i);
  }

  /**
   A read that read_end accepts copied exactly the fields one completed write left, provided
   fewer than 2^31 writes completed or began since read_begin; that write was the last one both
   when the read began and when it ended.
   */
  lemma {:induction false} AcceptedReadIsSnapshot(states: seq<State>, actions: seq<Action>, i: nat, r: nat)
    requires Run(states, actions) && i < |actions| && actions[i] == EndRead(r) && Enabled(states[i], EndRead(r))
    requires states[i].version - states[i].readers[r].v0 < TWO32
    ensures var before, pc := states[i], states[i + 1].readers[r];
      pc.DoneReading? &&
      (pc.ok ==> before.version == pc.v0 && before.commits != [] && pc.copy == before.commits[|before.commits| - 1])
  {
    RunKeepsInv(states, actions, i);
    assert Steps(states[i], actions[i], states[i + 1]);
    var s, pc := states[i], states[i].readers[r];
    assert ReaderOk(s, pc);
    SuccVersion(pc.v0);
    if ReadEnd(pc.begin, s.seqnum) {
      Congruent(pc.v0, s.version);
      assert pc.copy == s.fields;
    }
  }

  /** read_end accepts exactly the reads that began unlocked and saw a multiple of 2^31 whole writes. */
  lemma {:induction false} ReadEndIff(states: seq<State>, actions: seq<Action>, i: nat, r: nat)
    requires Run(states, actions) && i < |actions| && actions[i] == EndRead(r) && Enabled(states[i], EndRead(r))
    ensures var v0, v1 := states[i].readers[r].v0, states[i].version;
      && states[i + 1].readers[r].DoneReading?
      && (states[i + 1].readers[r].ok <==> v0 % 2 == 0 && exists k: nat :: v1 == v0 + 2 * k * TWO31)
  {
    RunKeepsInv(states, actions, i);
    assert Steps(states[i], actions[i], states[i + 1]);
    var v0, v1 := states[i].readers[r].v0, states[i].version;
    assert ReaderOk(states[i], states[i].readers[r]);
    SuccVersion(v0);
    Multiples(v0, v1);
  }

  lemma {:induction false} Multiples(a: nat, b: nat)
    requires a <= b
    ensures a % TWO32 == b % TWO32 <==> exists k: nat :: b == a + 2 * k * TWO31
  {
    if a % TWO32 == b % TWO32 {
      var k := b / TWO32 - a / TWO32;
      assert b == a + 2 * k * TWO31;
    }
  }

  //---------------------------------------------------------------------------
  // A write and a read that nobody disturbs
  //---------------------------------------------------------------------------

  /** The actions can be taken one after the other and lead from s to s'. */
  ghost predicate Path(s: State, actions: seq<Action>, s': State)
    decreases actions
  {
    if actions == [] then s' == s else Enabled(s, actions[0]) && Path(Next(s, actions[0]), actions[1..], s')
  }

  lemma {:induction false} PathOn(s: State, a: seq<Action>, s1: State, b: seq<Action>, s': State)
    requires Path(s, a, s1) && Path(s1, b, s')
    ensures Path(s, a + b, s')
    decreases a
  {
    if a == [] {
      assert a + b == b;
    } else {
      assert (a + b)[1..] == a[1..] + b;
      PathOn(Next(s, a[0]), a[1..], s1, b, s');
    }
  }

  /** Writer w is inside, and took the counter from even to odd. */
  function Entered(s: State, w: nat): State
    requires w < |s.writers|
  {
    SetWriter(s, w, Writing(Succ(s.seqnum))).(seqnum := Succ(s.seqnum), version := s.version + 1)
  }

  /** Alone, write_begin and try_write_begin get in if the counter is unlocked; the latter gives up if it is not. */
  lemma {:induction false} BeginAlone(s: State, w: nat)
    requires w < |s.writers| && s.writers[w] == NotWriting
    ensures !Locked(s.seqnum) ==> Path(s, [StartWrite(w), WriterStep(w, false), WriterStep(w, false)], Entered(s, w))
    ensures !Locked(s.seqnum) ==> Path(s, [StartTry(w), WriterStep(w, false), WriterStep(w, false)], Entered(s, w))
    ensures Locked(s.seqnum) ==> Path(s, [StartTry(w), WriterStep(w, false)], s)
  {
    var load, attempt := SetWriter(s, w, WriteLoad), SetWriter(s, w, TryLoad);
    if Locked(s.seqnum) {
      assert SetWriter(attempt, w, NotWriting) == s;
      PathTwo(s, StartTry(w), attempt, WriterStep(w, false), s);
    } else {
      PathThree(s, StartWrite(w), load, WriterStep(w, false), SetWriter(s, w, WriteCas(s.seqnum)),
                WriterStep(w, false), Entered(s, w));
      PathThree(s, StartTry(w), attempt, WriterStep(w, false), SetWriter(s, w, TryCas(s.seqnum)),
                WriterStep(w, false), Entered(s, w));
    }
  }

  lemma {:induction false} PathTwo(s: State, a: Action, s1: State, b: Action, s2: State)
    requires Enabled(s, a) && s1 == Next(s, a) && Enabled(s1, b) && s2 == Next(s1, b)
    ensures Path(s, [a, b], s2)
  {
    assert [a, b][1..] == [b] && [b][1..] == [];
  }

  lemma {:induction false} PathThree(s: State, a: Action, s1: State, b: Action, s2: State, c: Action, s3: State)
    requires Enabled(s, a) && s1 == Next(s, a) && Enabled(s1, b) && s2 == Next(s1, b)
    requires Enabled(s2, c) && s3 == Next(s2, c)
    ensures Path(s, [a, b, c], s3)
  {
    assert [a, b, c][1..] == [b, c];
    PathTwo(s1, b, s2, c, s3);
  }

  function Writes(w: nat, i: nat, values: seq<int>): seq<Action>
    requires i <= |values|
    decreases |values| - i
  {
    if i == |values| then [] else [WriteField(w, i, values[i])] + Writes(w, i + 1, values)
  }

  lemma {:induction false} WritesAll(s: State, w: nat, i: nat, values: seq<int>)
    requires w < |s.writers| && s.writers[w].Writing? && i <= |values| == |s.fields|
    requires s.fields[..i] == values[..i]
    ensures Path(s, Writes(w, i, values), s.(fields := values))
    decreases |values| - i
  {
    if i == |values| {
      assert s.fields == values;
    } else {
      WritesAll(Next(s, WriteField(w, i, values[i])), w, i + 1, values);
    }
  }

  function Copies(r: nat, n: nat): seq<Action> { if n == 0 then [] else [CopyField(r)] + Copies(r, n - 1) }

  lemma {:induction false} CopiesAll(s: State, r: nat, n: nat, s': State)
    requires r < |s.readers| && s.readers[r].Copying? && |s.readers[r].copy| + n == |s.fields|
    requires s.readers[r].copy == s.fields[..|s.readers[r].copy|]
    requires s' == s.(readers := s.readers[r := Copying(s.readers[r].begin, s.readers[r].v0, s.fields)])
    ensures Path(s, Copies(r, n), s')
    decreases n
  {
    if n == 0 {
      assert s.readers[r].copy == s.fields;
    } else {
      CopiesAll(DoCopy(s, r), r, n - 1, s');
    }
  }

  /** What a completed write of these values leaves. */
  function Written(s: State, w: nat, values: seq<int>): State {
    s.(seqnum := Succ(Succ(s.seqnum)), fields := values, version := s.version + 2, commits := s.commits + [values])
  }

  /** A write that nobody disturbs stores its values and completes. */
  lemma {:induction false} WriteAlone(s: State, w: nat, values: seq<int>) returns (actions: seq<Action>)
    requires w < |s.writers| && s.writers[w] == NotWriting && !Locked(s.seqnum) && |values| == |s.fields|
    ensures Path(s, actions, Written(s, w, values))
  {
    var s1, s2 := Entered(s, w), Entered(s, w).(fields := values);
    BeginAlone(s, w);
    WritesAll(s1, w, 0, values);
    var begin := [StartWrite(w), WriterStep(w, false), WriterStep(w, false)];
    PathOn(s, begin, s1, Writes(w, 0, values), s2);
    assert Next(s2, EndWrite(w)) == Written(s, w, values) by { assert s2.writers[w := NotWriting] == s.writers; }
    assert Path(s2, [EndWrite(w)], Written(s, w, values)) by { assert [EndWrite(w)][1..] == []; }
    PathOn(s, begin + Writes(w, 0, values), s2, [EndWrite(w)], Written(s, w, values));
    actions := begin + Writes(w, 0, values) + [EndWrite(w)];
  }

  /** A read that nobody disturbs is accepted and has what the last write left. */
  lemma {:induction false} ReadAlone(s: State, r: nat) returns (actions: seq<Action>)
    requires r < |s.readers| && !s.readers[r].Copying? && !Locked(s.seqnum)
    ensures Path(s, actions, s.(readers := s.readers[r := DoneReading(s.version, s.fields, true)]))
  {
    var s1 := s.(readers := s.readers[r := Copying(s.seqnum, s.version, [])]);
    var s2 := s.(readers := s.readers[r := Copying(s.seqnum, s.version, s.fields)]);
    var s3 := s.(readers := s.readers[r := DoneReading(s.version, s.fields, true)]);
    CopiesAll(s1, r, |s.fields|, s2);
    assert Path(s, [StartRead(r)], s1) by { assert [StartRead(r)][1..] == []; }
    PathOn(s, [StartRead(r)], s1, Copies(r, |s.fields|), s2);
    assert Path(s2, [EndRead(r)], s3) by { assert [EndRead(r)][1..] == []; }
    PathOn(s, [StartRead(r)] + Copies(r, |s.fields|), s2, [EndRead(r)], s3);
    actions := [StartRead(r)] + Copies(r, |s.fields|) + [EndRead(r)];
  }
}
