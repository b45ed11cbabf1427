/** The update stream of the PrioTable. */
module PrioStream {
  /*
   Any number of threads mark indices as updated while one scraper collects them.  Every atomic access is
   one step; a weak compare-exchange may fail spuriously.
   */

  import opened Common

  type Index = nat

  /** Where a thread is inside MarkUpdatedIndex. */
  datatype Marker =
    | Idle
    | Start(idx: Index, retries: int)
    | Probe(idx: Index, retries: int, i: nat)
    | Cas(idx: Index, retries: int, i: nat)
    | Add(idx: Index)

  /** Where the scraper is inside NextUpdatedIndex; `full` is full_scan. */
  datatype Scraper =
    | Ready
    | Check
    | Exchange
    | Scan(i: nat, full: bool)
    | Store(i: nat, idx: Index, full: bool)

  datatype Report = NoEntries | Overflow | Updated(idx: Index)

  /**
   The last three fields only record history: the indices ever marked, those whose latest
   completed mark has not been reported since, and what the latter were when the current call of
   NextUpdatedIndex began.
   */
  datatype State = State(
    scrapeAll: nat,
    cells: seq<Option<Index>>,
    markers: seq<Marker>,
    scraper: Scraper,
    last: Option<Report>,
    marked: set<Index>,
    pending: set<Index>,
    before: set<Index>)

  datatype Action =
    | Begin(m: nat, idx: Index, retries: int)
    | Mark(m: nat, spurious: bool)
    | Call
    | Scrape

  function SetMarker(s: State, m: nat, pc: Marker): State
    requires m < |s.markers|
  {
    s.(markers := s.markers[m := pc])
  }

  function Completed(s: State, m: nat, idx: Index): State
    requires m < |s.markers|
  {
    SetMarker(s, m, Idle).(marked := s.marked + {idx}, pending := s.pending + {idx})
  }

  /** One step of MarkUpdatedIndex. */
  function DoMark(s: State, m: nat, spurious: bool): State
    requires m < |s.markers| && s.cells != []
  {
    match s.markers[m]
    case Idle => s
    case Start(idx, retries) =>
      SetMarker(s, m, if s.scrapeAll > 0 then Add(idx) else Probe(idx, retries, 0))
    case Probe(idx, retries, i) =>
      if i >= retries + 1 then SetMarker(s, m, Add(idx))
      else if s.cells[(idx + i) % |s.cells|] == None then SetMarker(s, m, Cas(idx, retries, i))
      else SetMarker(s, m, Probe(idx, retries, i + 1))
    case Cas(idx, retries, i) =>
      var k := (idx + i) % |s.cells|;
      if s.cells[k] == None && !spurious then Completed(s, m, idx).(cells := s.cells[k := Some(idx)])
      else SetMarker(s, m, Probe(idx, retries, i + 1))
    case Add(idx) => Completed(s, m, idx).(scrapeAll := s.scrapeAll + 1)
  }

  /** NextUpdatedIndex returns. */
  function Return(s: State, report: Report): State {
    s.(scraper := Ready, last := Some(report), pending :=
      match report
      case NoEntries => s.pending
      case Overflow => {}
      case Updated(idx) => s.pending - {idx})
  }

  function DoScrape(s: State): State {
    match s.scraper
    case Ready => s
    case Check => s.(scraper := if s.scrapeAll > 0 then Exchange else Scan(0, false))
    case Exchange => s.(scrapeAll := 0, scraper := Scan(0, true))
    case Scan(i, full) =>
      if i >= |s.cells| then Return(s, if full then Overflow else NoEntries)
      else if s.cells[i].Some? then s.(scraper := Store(i, s.cells[i].value, full))
      else s.(scraper := Scan(i + 1, full))
    case Store(i, idx, full) =>
      var s1 := if i < |s.cells| then s.(cells := s.cells[i := None]) else s;
      if full then s1.(scraper := Scan(i + 1, full)) else Return(s1, Updated(idx))
  }

  predicate Enabled(s: State, a: Action) {
    match a
    case Begin(m, _, _) => m < |s.markers| && s.markers[m] == Idle
    case Mark(m, _) => m < |s.markers| && s.markers[m] != Idle
    case Call => s.scraper == Ready
    case Scrape => s.scraper != Ready
  }

  function Next(s: State, a: Action): State
    requires Enabled(s, a) && s.cells != []
  {
    match a
    case Begin(m, idx, retries) => SetMarker(s, m, Start(idx, retries))
    case Mark(m, spurious) => DoMark(s, m, spurious)
    case Call => s.(scraper := Check, before := s.pending)
    case Scrape => DoScrape(s)
  }

  predicate Init(s: State) {
    && s.cells != [] && (forall i :: 0 <= i < |s.cells| ==> s.cells[i] == None)
    && (forall m :: 0 <= m < |s.markers| ==> s.markers[m] == Idle)
    && s.scrapeAll == 0 && s.scraper == Ready && s.last == None && s.marked == {} && s.pending == {} && s.before == {}
  }

  //---------------------------------------------------------------------------
  // Invariant
  //---------------------------------------------------------------------------

  /** Some cell at position `from` or later holds idx. */
  predicate Held(cells: seq<Option<Index>>, from: nat, idx: Index) {
    exists k :: from <= k < |cells| && cells[k] == Some(idx)
  }

  predicate FullScan(pc: Scraper) { (pc.Scan? || pc.Store?) && pc.full }

  /** A mark that completed and was not reported will be. */
  predicate Covered(s: State, idx: Index) {
    || Held(s.cells, 0, idx)
    || s.scrapeAll > 0
    || FullScan(s.scraper)
    || (s.scraper.Store? && s.scraper.idx == idx)
  }

  /** A mark that completed before this call began is ahead of the scan. */
  predicate Ahead(s: State, idx: Index) {
    match s.scraper
    case Ready => true
    case Check => Covered(s, idx)
    case Exchange => true
    case Scan(i, full) => full || Held(s.cells, i, idx)
    case Store(i, p, full) => full || p == idx || Held(s.cells, i, idx)
  }

  predicate ScraperOk(s: State) {
    match s.scraper
    case Exchange => s.scrapeAll > 0
    case Store(i, idx, _) => i < |s.cells| && s.cells[i] == Some(idx)
    case _ => true
  }

  ghost predicate Inv(s: State) {
    && s.cells != []
    && ScraperOk(s)
    && (forall idx :: idx in s.pending ==> Covered(s, idx))
    && (forall idx :: idx in s.before && idx in s.pending ==> Ahead(s, idx))
    && (s.scraper != Ready ==> s.before <= s.pending)
    && (forall k :: 0 <= k < |s.cells| && s.cells[k].Some? ==> s.cells[k].value in s.marked)
    && (s.last.Some? && s.last.value.Updated? ==> s.last.value.idx in s.marked)
    && (s.last == Some(NoEntries) && s.scraper == Ready ==> s.before == {})
  }

  lemma InitHolds(s: State)
    requires Init(s)
    ensures Inv(s)
  {
  }

  lemma MarkKeeps(s: State, m: nat, spurious: bool)
    requires Inv(s) && m < |s.markers| && s.markers[m] != Idle
    ensures Inv(DoMark(s, m, spurious))
  {
    var s' := DoMark(s, m, spurious);
    forall from: nat, idx: nat | Held(s.cells, from, idx) ensures Held(s'.cells, from, idx) {
      var k :| from <= k < |s.cells| && s.cells[k] == Some(idx);
      assert s'.cells[k] == Some(idx);
    }
    var pc := s.markers[m];
    if pc.Cas? {
      var k := (pc.idx + pc.i) % |s.cells|;
      assert s'.pending != s.pending ==> s'.cells[k] == Some(pc.idx);
    }
  }

  lemma ScrapeKeeps(s: State)
    requires Inv(s) && s.scraper != Ready
    ensures Inv(DoScrape(s))
  {
    var s' := DoScrape(s);
    if s.scraper.Store? {
      var i := s.scraper.i;
      forall from: nat, idx: nat | Held(s.cells, from, idx) && idx != s.scraper.idx ensures Held(s'.cells, from, idx) {
        var k :| from <= k < |s.cells| && s.cells[k] == Some(idx);
        assert s'.cells[k] == Some(idx);
      }
    }
  }

  lemma StepKeeps(s: State, a: Action)
    requires Inv(s) && Enabled(s, a)
    ensures Inv(Next(s, a))
  {
    match a
    case Begin(_, _, _) =>
    case Mark(m, spurious) => MarkKeeps(s, m, spurious);
    case Call =>
    case Scrape => ScrapeKeeps(s);
  }

  //---------------------------------------------------------------------------
  // Every run
  //---------------------------------------------------------------------------

  ghost predicate Run(states: seq<State>, actions: seq<Action>) {
    && |states| == |actions| + 1 && Init(states[0])
    && forall i :: 0 <= i < |actions| ==> Steps(states[i], actions[i], states[i + 1])
  }

  ghost predicate Steps(s: State, a: Action, s': State) {
    s.cells != [] && Enabled(s, a) && s' == Next(s, a)
  }

  lemma {:induction false} RunKeepsInv(states: seq<State>, actions: seq<Action>, i: nat)
    requires Run(states, actions) && i < |states|
    ensures Inv(states[i])
  {
    if i == 0 {
      InitHolds(states[0]);
    } else {
      RunKeepsInv(states, actions, i - 1);
      assert Steps(states[i - 1], actions[i - 1], states[i]);
      StepKeeps(states[i - 1], actions[i - 1]);
    }
  }

  /** No update is lost: what no report has told yet is in a cell, or a full scan is due or under way. */
  lemma {:induction false} UnreportedIsCovered(states: seq<State>, actions: seq<Action>, i: nat, idx: Index)
    requires Run(states, actions) && i < |states| && idx in states[i].pending
    ensures Covered(states[i], idx)
  {
    RunKeepsInv(states, actions, i);
  }

  /**
   When NextUpdatedIndex returns kStreamNoEntries, every mark that completed before that call
   began had been reported before it; whatever it reports otherwise was marked.
   */
  lemma {:induction false} NoEntriesMeansAllReported(states: seq<State>, actions: seq<Action>, i: nat)
    requires Run(states, actions) && i < |actions|
    requires states[i].scraper != Ready && states[i + 1].scraper == Ready
    ensures states[i + 1].last == Some(NoEntries) ==> states[i + 1].before == {}
    ensures states[i + 1].last == Some(Overflow) ==> states[i + 1].pending == {}
    ensures states[i + 1].last.Some? && states[i + 1].last.value.Updated? ==>
      states[i + 1].last.value.idx in states[i].marked
  {
    RunKeepsInv(states, actions, i);
    RunKeepsInv(states, actions, i + 1);
    assert Steps(states[i], actions[i], states[i + 1]);
  }

  /** If no mark completes during a call that returns kStreamNoEntries, nothing is left to report. */
  lemma {:induction false} QuietCallReportsAll(states: seq<State>, actions: seq<Action>, i: nat, j: nat)
    requires Run(states, actions) && i < j < |states|
    requires actions[i] == Call && states[j].scraper == Ready && states[j].last == Some(NoEntries)
    requires forall k :: i < k < j ==> states[k].scraper != Ready
    requires forall k :: i <= k <= j ==> states[k].pending <= states[i].pending
    ensures states[j].pending == {}
  {
    RunKeepsInv(states, actions, j);
    BeforeIsFixed(states, actions, i, j);
  }

  lemma {:induction false} BeforeIsFixed(states: seq<State>, actions: seq<Action>, i: nat, j: nat)
    requires Run(states, actions) && i < j < |states|
    requires actions[i] == Call
    requires forall k :: i < k < j ==> states[k].scraper != Ready
    ensures states[j].before == states[i].pending
  {
    assert Steps(states[j - 1], actions[j - 1], states[j]);
    if j > i + 1 {
      BeforeIsFixed(states, actions, i, j - 1);
    }
  }
}
