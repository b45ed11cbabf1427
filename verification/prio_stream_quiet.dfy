/** The update stream in the absence of other threads. */
module PrioStreamQuiet {
  /*
   The same two operations on the stream itself: how a scraper drains it once the markers have stopped.
   */

  import opened Common
  import opened PrioStream

  const FREE := -1

  /** Cells from position i on that hold an index. */
  function Occupied(cells: seq<int>, i: nat): nat
    requires i <= |cells|
    decreases |cells| - i
  {
    if i == |cells| then 0 else (if cells[i] != FREE then 1 else 0) + Occupied(cells, i + 1)
  }

  lemma {:induction false} OccupiedUpTo(a: seq<int>, b: seq<int>, i: nat, k: nat)
    requires |a| == |b| && i <= k < |a|
    requires forall j :: i <= j < |a| && j != k ==> a[j] == b[j]
    requires a[k] != FREE && b[k] == FREE
    ensures Occupied(b, i) + 1 == Occupied(a, i)
    decreases k - i
  {
    if i == k {
      SameOccupied(a, b, k + 1);
    } else {
      OccupiedUpTo(a, b, i + 1, k);
    }
  }

  lemma {:induction false} SameOccupied(a: seq<int>, b: seq<int>, i: nat)
    requires |a| == |b| && i <= |a|
    requires forall j :: i <= j < |a| ==> a[j] == b[j]
    ensures Occupied(a, i) == Occupied(b, i)
    decreases |a| - i
  {
    if i < |a| {
      SameOccupied(a, b, i + 1);
    }
  }

  function Slot(idx: Index, i: nat, n: nat): (k: nat)
    requires n > 0
    ensures k < n
  {
    (idx + i) % n
  }

  /** The first free cell that a mark probes from its i-th try on. */
  function FreeSlot(cells: seq<int>, idx: Index, retries: int, i: nat): (k: Option<nat>)
    requires cells != []
    ensures k.Some? ==> k.value < |cells| && cells[k.value] == FREE
    decreases retries + 1 - i
  {
    if i >= retries + 1 then None
    else if cells[Slot(idx, i, |cells|)] == FREE then Some(Slot(idx, i, |cells|))
    else FreeSlot(cells, idx, retries, i + 1)
  }

  /** A mark finds a cell exactly if one of those within its retries is free. */
  lemma {:induction false} FreeSlotIsFree(cells: seq<int>, idx: Index, retries: int, i: nat)
    requires cells != []
    ensures FreeSlot(cells, idx, retries, i).Some? <==>
      exists j :: i <= j <= retries && cells[Slot(idx, j, |cells|)] == FREE
    decreases retries + 1 - i
  {
    if i < retries + 1 && cells[Slot(idx, i, |cells|)] != FREE {
      FreeSlotIsFree(cells, idx, retries, i + 1);
    }
  }

  /** The cell j places after that of idx, the first cell following the last one. */
  function CellAfter(idx: Index, j: nat, n: nat): (k: nat)
    requires n > 0
    ensures k < n
  {
    if j == 0 then idx % n
    else
      var k := CellAfter(idx, j - 1, n);
      if k + 1 < n then k + 1 else 0
  }

  lemma {:induction false} SlotIsAfter(idx: Index, j: nat, n: nat)
    requires n > 0
    ensures Slot(idx, j, n) == CellAfter(idx, j, n)
  {
    if j > 0 {
      SlotIsAfter(idx, j - 1, n);
      ModNext(idx + (j - 1), n);
    }
  }

  lemma {:induction false} ModNext(x: nat, n: nat)
    requires n > 0
    ensures (x + 1) % n == if x % n + 1 < n then x % n + 1 else 0
  {
    var q, k := x / n, x % n;
    assert x == q * n + k;
    if k + 1 < n {
      ModIs(q, k + 1, n);
    } else {
      assert x + 1 == (q + 1) * n + 0;
      ModIs(q + 1, 0, n);
    }
  }

  lemma {:induction false} ModIs(q: nat, k: nat, n: nat)
    requires k < n
    ensures (q * n + k) % n == k
  {
    var x := q * n + k;
    QuotientLe(n, q, k, x / n, x % n);
    QuotientLe(n, x / n, x % n, q, k);
  }

  /** Of the cell of idx and the next ones, as many as there are retries, the first free one is the j-th. */
  predicate FirstFree(cells: seq<int>, idx: Index, retries: int, j: nat)
    requires cells != []
  {
    && j <= retries && cells[CellAfter(idx, j, |cells|)] == FREE
    && forall h :: 0 <= h < j ==> cells[CellAfter(idx, h, |cells|)] != FREE
  }

  /** None of them is free. */
  predicate NoneFree(cells: seq<int>, idx: Index, retries: int)
    requires cells != []
  {
    forall j :: 0 <= j <= retries ==> cells[CellAfter(idx, j, |cells|)] != FREE
  }

  lemma {:induction false} FreeSlotIsFirst(cells: seq<int>, idx: Index, retries: int, i: nat)
    requires cells != [] && forall h :: 0 <= h < i && h <= retries ==> cells[CellAfter(idx, h, |cells|)] != FREE
    ensures FreeSlot(cells, idx, retries, i) == None <==> NoneFree(cells, idx, retries)
    ensures forall j: nat :: FirstFree(cells, idx, retries, j) ==>
      FreeSlot(cells, idx, retries, i) == Some(CellAfter(idx, j, |cells|))
    decreases retries + 1 - i
  {
    if i < retries + 1 {
      SlotIsAfter(idx, i, |cells|);
      if cells[Slot(idx, i, |cells|)] == FREE {
        assert cells[CellAfter(idx, i, |cells|)] == FREE;
        forall j: nat | FirstFree(cells, idx, retries, j) ensures j == i {}
      } else {
        FreeSlotIsFirst(cells, idx, retries, i + 1);
      }
    }
  }

  /** Going round once from the cell of idx meets every cell. */
  lemma {:induction false} EveryCellIsTried(idx: Index, n: nat, k: nat) returns (j: nat)
    requires k < n
    ensures j < n && CellAfter(idx, j, n) == k
  {
    var q, r := idx / n, idx % n;
    assert idx == q * n + r;
    if k >= r {
      j := k - r;
      assert idx + j == q * n + k;
      ModIs(q, k, n);
    } else {
      j := k + n - r;
      assert idx + j == (q + 1) * n + k;
      ModIs(q + 1, k, n);
    }
    SlotIsAfter(idx, j, n);
  }

  /** With as many retries as there are other cells, a mark overflows only if every cell is occupied. */
  lemma {:induction false} OverflowMeansFull(cells: seq<int>, idx: Index, retries: int)
    requires cells != [] && NoneFree(cells, idx, retries) && retries >= |cells| - 1
    ensures forall k :: 0 <= k < |cells| ==> cells[k] != FREE
  {
    forall k | 0 <= k < |cells| ensures cells[k] != FREE {
      var j := EveryCellIsTried(idx, |cells|, k);
      assert cells[CellAfter(idx, j, |cells|)] != FREE;
    }
  }

  /** The first occupied cell from position i on, or the length if there is none. */
  function FirstHeld(cells: seq<int>, i: nat): (k: nat)
    requires i <= |cells|
    ensures i <= k <= |cells| && (k < |cells| ==> cells[k] != FREE)
    ensures forall j :: i <= j < k ==> cells[j] == FREE
    decreases |cells| - i
  {
    if i == |cells| || cells[i] != FREE then i else FirstHeld(cells, i + 1)
  }

  function AllFree(n: nat): seq<int> { seq(n, _ => FREE) }

  /** What NextUpdatedIndex alone reports, and the cells it leaves. */
  function Scraped(cells: seq<int>, full: bool): (Report, seq<int>)
    requires forall i :: 0 <= i < |cells| ==> cells[i] >= FREE
  {
    var k := FirstHeld(cells, 0);
    if full then (Overflow, AllFree(|cells|))
    else if k < |cells| then (Updated(cells[k]), cells[k := FREE])
    else (NoEntries, cells)
  }

  class Stream {
    var scrapeAll: nat
    const entries: array<int>

    ghost predicate Valid()
      reads this, entries
    {
      entries.Length > 0 && forall i :: 0 <= i < entries.Length ==> entries[i] >= FREE
    }

    /** Everything a report still has to tell: occupied cells, and one for a pending full scan. */
    ghost function Load(): nat
      reads this, entries
    {
      Occupied(entries[..], 0) + if scrapeAll > 0 then 1 else 0
    }

    /** The indices the stream will report if nothing else happens; None for all of them. */
    ghost predicate WillReport(idx: Index)
      reads this, entries
    {
      scrapeAll > 0 || exists i :: 0 <= i < entries.Length && entries[i] == idx
    }

    constructor (capacity: nat)
      requires capacity > 0
      ensures Valid() && fresh(entries) && entries.Length == capacity
      ensures Load() == 0 && forall idx: Index :: !WillReport(idx)
    {
      scrapeAll := 0;
      entries := new int[capacity](_ => FREE);
      new;
      NoneOccupied(entries[..], 0);
    }

    /** MarkUpdatedIndex alone: the stream will report idx, and all it would have reported before. */
    method MarkUpdatedIndex(idx: Index, retries: int)
      requires Valid()
      modifies this, entries
      ensures Valid() && WillReport(idx)
      ensures forall x: Index :: old(WillReport(x)) ==> WillReport(x)
      ensures old(scrapeAll) > 0 ==> scrapeAll == old(scrapeAll) + 1 && entries[..] == old(entries[..])
      ensures old(scrapeAll) == 0 ==>
        match FreeSlot(old(entries[..]), idx, retries, 0)
        case Some(k) => scrapeAll == 0 && entries[..] == old(entries[..])[k := idx]
        case None => scrapeAll == 1 && entries[..] == old(entries[..])
      ensures old(scrapeAll) == 0 ==> (scrapeAll == 1 <==> NoneFree(old(entries[..]), idx, retries))
      ensures old(scrapeAll) == 0 ==> forall j: nat :: FirstFree(old(entries[..]), idx, retries, j) ==>
        entries[..] == old(entries[..])[CellAfter(idx, j, entries.Length) := idx]
    {
      FreeSlotIsFirst(entries[..], idx, retries, 0);
      if scrapeAll > 0 {
        scrapeAll := scrapeAll + 1;
        return;
      }
      var i := 0;
      while i < retries + 1
        invariant 0 <= i
        invariant scrapeAll == 0 && entries[..] == old(entries[..])
        invariant FreeSlot(entries[..], idx, retries, i) == FreeSlot(old(entries[..]), idx, retries, 0)
      {
        var cell := Slot(idx, i, entries.Length);
        if entries[cell] == FREE {
          FreeSlotIsFree(old(entries[..]), idx, retries, 0);
          entries[cell] := idx;
          assert entries[..] == old(entries[..])[cell := idx];
          assert forall j :: 0 <= j < entries.Length && old(entries[j]) != FREE ==> entries[j] == old(entries[j]);
          return;
        }
        i := i + 1;
      }
      scrapeAll := scrapeAll + 1;
    }

    /**
     NextUpdatedIndex alone.  Unless it finds nothing it lowers Load, so a drain ends after at most
     Load calls; it finds nothing exactly when there is nothing to report.
     */
    method NextUpdatedIndex() returns (report: Report)
      requires Valid()
      modifies this, entries
      ensures Valid() && scrapeAll == 0
      ensures (report, entries[..]) == Scraped(old(entries[..]), old(scrapeAll) > 0)
      ensures report == NoEntries <==> old(Load()) == 0
      ensures report == NoEntries ==> entries[..] == old(entries[..]) && Load() == 0
      ensures report != NoEntries ==> Load() < old(Load())
      ensures report == Overflow <==> old(scrapeAll) > 0
      ensures report.Updated? ==> old(WillReport(report.idx)) && Load() + 1 == old(Load())
      ensures report == Overflow ==> Load() == 0
      ensures forall x: Index :: old(WillReport(x)) ==> report == Overflow || report == Updated(x) || WillReport(x)
    {
      ghost var was := entries[..];
      var full := false;
      if scrapeAll > 0 {
        scrapeAll := 0;
        full := true;
      }
      var i := 0;
      while i < entries.Length
        invariant 0 <= i <= entries.Length && scrapeAll == 0
        invariant full <==> old(scrapeAll) > 0
        invariant forall j :: 0 <= j < i ==> entries[j] == FREE
        invariant forall j :: i <= j < entries.Length ==> entries[j] == was[j]
        invariant !full ==> forall j :: 0 <= j < i ==> was[j] == FREE
        invariant !full ==> FirstHeld(was, 0) == FirstHeld(was, i)
      {
        var idx := entries[i];
        if idx != FREE {
          entries[i] := FREE;
          if !full {
            assert entries[..] == was[i := FREE];
            OccupiedUpTo(was, entries[..], 0, i);
            return Updated(idx);
          }
        }
        i := i + 1;
      }
      NoneOccupied(entries[..], 0);
      assert entries[..] == AllFree(entries.Length);
      if !full {
        NoneOccupied(was, 0);
        assert entries[..] == was;
      }
      return if full then Overflow else NoEntries;
    }

    /** The scraper's loop once the markers have stopped: every index the stream held is reported. */
    method Drain() returns (reports: seq<Report>)
      requires Valid()
      modifies this, entries
      ensures Valid() && Load() == 0 && |reports| <= old(Load())
      ensures NoEntries !in reports
      ensures forall x: Index :: old(WillReport(x)) ==> Overflow in reports || Updated(x) in reports
    {
      reports := [];
      var report := NextUpdatedIndex();
      while report != NoEntries
        invariant Valid() && NoEntries !in reports
        invariant report == NoEntries ==> Load() == 0 && |reports| <= old(Load())
        invariant report != NoEntries ==> |reports| + Load() + 1 <= old(Load())
        invariant forall x: Index :: old(WillReport(x)) ==>
          Overflow in reports || Updated(x) in reports || report == Overflow || report == Updated(x) || WillReport(x)
        decreases if report == NoEntries then 0 else Load() + 1
      {
        reports := reports + [report];
        report := NextUpdatedIndex();
      }
      NothingHeld(entries[..], 0);
    }
  }

  lemma {:induction false} NoneOccupied(cells: seq<int>, i: nat)
    requires i <= |cells| && forall j :: i <= j < |cells| ==> cells[j] == FREE
    ensures Occupied(cells, i) == 0
    decreases |cells| - i
  {
    if i < |cells| {
      NoneOccupied(cells, i + 1);
    }
  }

  lemma {:induction false} NothingHeld(cells: seq<int>, i: nat)
    requires i <= |cells| && Occupied(cells, i) == 0
    ensures forall j :: i <= j < |cells| ==> cells[j] == FREE
    decreases |cells| - i
  {
    if i < |cells| {
      NothingHeld(cells, i + 1);
    }
  }

  //---------------------------------------------------------------------------
  // The same calls as runs of PrioStream in which nobody else takes a step
  //---------------------------------------------------------------------------

  function CellsOf(cells: seq<int>): (r: seq<Option<Index>>)
    requires forall i :: 0 <= i < |cells| ==> cells[i] >= FREE
  {
    seq(|cells|, i requires 0 <= i < |cells| => if cells[i] == FREE then None else Some(cells[i]))
  }

  /** An upper bound on the steps that are left of a mark. */
  function MarkRank(pc: Marker): int {
    match pc
    case Idle => 0
    case Add(_) => 1
    case Probe(_, retries, i) => if i >= retries + 1 then 2 else 2 * (retries + 1 - i) + 2
    case Cas(_, retries, i) => if i >= retries + 1 then 3 else 2 * (retries + 1 - i) + 1
    case Start(_, retries) => if retries < 0 then 3 else 2 * (retries + 1) + 3
  }

  /** Thread m takes steps until it returns from MarkUpdatedIndex. */
  function MarkAlone(s: State, m: nat): State
    requires m < |s.markers| && s.cells != []
    decreases MarkRank(s.markers[m])
  {
    if s.markers[m] == Idle then s else MarkAlone(Next(s, Mark(m, false)), m)
  }

  /** It is as if it had done this at once. */
  function Marked(s: State, m: nat, idx: Index, slot: Option<nat>): State
    requires m < |s.markers| && (slot.Some? ==> slot.value < |s.cells|)
  {
    var s' := Completed(s, m, idx);
    match slot
    case Some(k) => s'.(cells := s.cells[k := Some(idx)])
    case None => s'.(scrapeAll := s.scrapeAll + 1)
  }

  lemma {:induction false} ProbesAlone(s: State, m: nat, idx: Index, retries: int, i: nat, cells: seq<int>)
    requires m < |s.markers| && cells != [] && s.markers[m] == Probe(idx, retries, i)
    requires (forall j :: 0 <= j < |cells| ==> cells[j] >= FREE) && s.cells == CellsOf(cells)
    ensures MarkAlone(s, m) == Marked(s, m, idx, FreeSlot(cells, idx, retries, i))
    decreases retries + 1 - i
  {
    var s1 := DoMark(s, m, false);
    if i >= retries + 1 {
      assert MarkAlone(s1, m) == MarkAlone(DoMark(s1, m, false), m);
      assert DoMark(s1, m, false) == Marked(s, m, idx, None);
    } else if cells[Slot(idx, i, |cells|)] == FREE {
      assert MarkAlone(s1, m) == MarkAlone(DoMark(s1, m, false), m);
      assert DoMark(s1, m, false) == Marked(s, m, idx, Some(Slot(idx, i, |cells|)));
    } else {
      ProbesAlone(s1, m, idx, retries, i + 1, cells);
      assert s1.markers[m := Idle] == s.markers[m := Idle];
    }
  }

  /** MarkUpdatedIndex alone does to the cells and scrape_all what the run of its accesses does. */
  lemma {:induction false} MarkIsRun(s: State, m: nat, idx: Index, retries: int, cells: seq<int>)
    requires m < |s.markers| && cells != [] && s.markers[m] == Start(idx, retries)
    requires (forall j :: 0 <= j < |cells| ==> cells[j] >= FREE) && s.cells == CellsOf(cells)
    ensures MarkAlone(s, m) ==
      Marked(s, m, idx, if s.scrapeAll > 0 then None else FreeSlot(cells, idx, retries, 0))
  {
    var s1 := DoMark(s, m, false);
    assert s1.markers[m := Idle] == s.markers[m := Idle];
    if s.scrapeAll > 0 {
      assert MarkAlone(s1, m) == MarkAlone(DoMark(s1, m, false), m);
      assert DoMark(s1, m, false) == Marked(s, m, idx, None);
    } else {
      ProbesAlone(s1, m, idx, retries, 0, cells);
    }
  }

  /** The run of a mark takes the first free cell, or raises scrape_all if none of them is free. */
  lemma {:induction false} MarkAloneIs(s: State, m: nat, idx: Index, retries: int, cells: seq<int>)
    requires m < |s.markers| && cells != [] && s.markers[m] == Start(idx, retries) && s.scrapeAll == 0
    requires (forall j :: 0 <= j < |cells| ==> cells[j] >= FREE) && s.cells == CellsOf(cells)
    ensures MarkAlone(s, m).scrapeAll == 1 <==> NoneFree(cells, idx, retries)
    ensures forall j: nat :: FirstFree(cells, idx, retries, j) ==>
      MarkAlone(s, m).cells == s.cells[CellAfter(idx, j, |cells|) := Some(idx)]
    ensures NoneFree(cells, idx, retries) ==> MarkAlone(s, m).cells == s.cells
  {
    MarkIsRun(s, m, idx, retries, cells);
    FreeSlotIsFirst(cells, idx, retries, 0);
  }

  /** An upper bound on the steps that are left of a call of NextUpdatedIndex. */
  function ScrapeRank(pc: Scraper, n: nat): int {
    match pc
    case Ready => 0
    case Check => 2 * n + 4
    case Exchange => 2 * n + 3
    case Scan(i, _) => if i >= n then 1 else 2 * (n - i) + 1
    case Store(i, _, _) => if i >= n then 2 else 2 * (n - i)
  }

  /** The scraper takes steps until it returns from NextUpdatedIndex. */
  function ScrapeAlone(s: State): State
    requires s.cells != []
    decreases ScrapeRank(s.scraper, |s.cells|)
  {
    if s.scraper == Ready then s else ScrapeAlone(Next(s, Scrape))
  }

  /** The cells before position i are free. */
  predicate FreeUpTo(cells: seq<int>, i: nat) { i <= |cells| && forall j :: 0 <= j < i ==> cells[j] == FREE }

  lemma {:induction false} ScansAlone(s: State, i: nat, full: bool, cells: seq<int>)
    requires cells != [] && s.scraper == Scan(i, full) && FreeUpTo(cells, i)
    requires (forall j :: 0 <= j < |cells| ==> cells[j] >= FREE) && s.cells == CellsOf(cells)
    ensures var s' := ScrapeAlone(s);
      && s'.scraper == Ready && s'.scrapeAll == s.scrapeAll
      && s'.last == Some(Scraped(cells, full).0) && s'.cells == CellsOf(Scraped(cells, full).1)
    decreases |cells| - i
  {
    var s1 := DoScrape(s);
    if i < |cells| && cells[i] == FREE {
      ScansAlone(s1, i + 1, full, cells);
    } else if i < |cells| {
      FirstHeldIs(cells, 0, i);
      var rest := cells[i := FREE];
      assert DoScrape(s1).cells == CellsOf(rest);
      assert ScrapeAlone(s1) == ScrapeAlone(DoScrape(s1));
      if full { ScansAlone(DoScrape(s1), i + 1, full, rest); }
    } else {
      FirstHeldIs(cells, 0, i);
      assert cells == AllFree(|cells|);
    }
  }

  lemma {:induction false} FirstHeldIs(cells: seq<int>, j: nat, i: nat)
    requires j <= i && FreeUpTo(cells, i) && (i < |cells| ==> cells[i] != FREE)
    ensures FirstHeld(cells, j) == i
    decreases i - j
  {
    if j < i { FirstHeldIs(cells, j + 1, i); }
  }

  /** NextUpdatedIndex alone reports, and leaves in the stream, what the run of its accesses does. */
  lemma {:induction false} ScrapeIsRun(s: State, cells: seq<int>)
    requires cells != [] && s.scraper == Check
    requires (forall j :: 0 <= j < |cells| ==> cells[j] >= FREE) && s.cells == CellsOf(cells)
    ensures var s' := ScrapeAlone(s);
      && s'.scraper == Ready && s'.scrapeAll == 0 && s'.last == Some(Scraped(cells, s.scrapeAll > 0).0)
      && s'.cells == CellsOf(Scraped(cells, s.scrapeAll > 0).1)
  {
    var s1 := DoScrape(s);
    if s.scrapeAll > 0 {
      assert ScrapeAlone(s1) == ScrapeAlone(DoScrape(s1));
      ScansAlone(DoScrape(s1), 0, true, cells);
    } else {
      ScansAlone(s1, 0, false, cells);
    }
  }
}
