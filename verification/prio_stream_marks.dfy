/** MarkUpdatedIndex among other threads. */
module PrioStreamMarks {
  /*
   It returns after a bounded number of steps of its own, whatever the others do; and it asks for a full
   scan only if one was due already or each of its attempts, at the cells idx, idx + 1 and so on, found
   the cell occupied or lost the exchange.  What an attempt met is read off the steps of the run, without
   regard to the thread's own count.
   */

  import opened Common
  import opened PrioStream
  import opened PrioStreamQuiet

  /** What a call of MarkUpdatedIndex has met: whether a full scan was due, and how many attempts failed. */
  datatype Met = Met(idx: Index, retries: int, full: bool, failed: nat)

  const NOTHING := Met(0, 0, false, 0)

  /** What thread m has met after step a in state s, given what it had met before. */
  function Meets(met: Met, s: State, a: Action, m: nat): Met
    requires m < |s.markers| && s.cells != []
  {
    if a.Begin? && a.m == m then Met(a.idx, a.retries, false, 0)
    else if a.Mark? && a.m == m then
      var occupied := s.cells[CellAfter(met.idx, met.failed, |s.cells|)].Some?;
      match s.markers[m]
      case Start(_, _) => met.(full := s.scrapeAll > 0)
      case Probe(_, _, _) => if met.failed <= met.retries && occupied then met.(failed := met.failed + 1) else met
      case Cas(_, _, _) => if occupied || a.spurious then met.(failed := met.failed + 1) else met
      case _ => met
    else met
  }

  ghost predicate HasThread(states: seq<State>, m: nat) {
    forall i :: 0 <= i < |states| ==> m < |states[i].markers| && states[i].cells != []
  }

  ghost function MetIn(states: seq<State>, actions: seq<Action>, i: nat, m: nat): Met
    requires |states| == |actions| + 1 && i < |states| && HasThread(states, m)
  {
    if i == 0 then NOTHING else Meets(MetIn(states, actions, i - 1, m), states[i - 1], actions[i - 1], m)
  }

  /** The thread is where what it has met should have brought it. */
  predicate MarkerOk(pc: Marker, met: Met) {
    match pc
    case Idle => true
    case Start(idx, retries) => met == Met(idx, retries, false, 0)
    case Probe(idx, retries, i) => met == Met(idx, retries, false, i)
    case Cas(idx, retries, i) => met == Met(idx, retries, false, i) && i <= retries
    case Add(idx) => idx == met.idx && (met.full || met.failed > met.retries)
  }

  lemma {:induction false} StepMeets(s: State, a: Action, m: nat, met: Met)
    requires m < |s.markers| && s.cells != [] && Enabled(s, a) && MarkerOk(s.markers[m], met)
    ensures m < |Next(s, a).markers| && MarkerOk(Next(s, a).markers[m], Meets(met, s, a, m))
  {
    SlotIsAfter(met.idx, met.failed, |s.cells|);
  }

  lemma {:induction false} ThreadStays(states: seq<State>, actions: seq<Action>, m: nat, i: nat)
    requires Run(states, actions) && m < |states[0].markers| && i < |states|
    ensures m < |states[i].markers| && states[i].cells != []
  {
    if i > 0 {
      ThreadStays(states, actions, m, i - 1);
      assert Steps(states[i - 1], actions[i - 1], states[i]);
    }
  }

  lemma {:induction false} RunMeets(states: seq<State>, actions: seq<Action>, i: nat, m: nat)
    requires Run(states, actions) && i < |states| && HasThread(states, m)
    ensures MarkerOk(states[i].markers[m], MetIn(states, actions, i, m))
  {
    if i > 0 {
      RunMeets(states, actions, i - 1, m);
      assert Steps(states[i - 1], actions[i - 1], states[i]);
      assert states[i - 1].cells != [];
      StepMeets(states[i - 1], actions[i - 1], m, MetIn(states, actions, i - 1, m));
    }
  }

  /**
   What a step of a mark changes, in every run.  It stores its index in the cell after as many as it has
   failed at, and only if that is free; it raises scrape_all only if that was raised when it began, or more
   attempts have failed than there are retries.
   */
  lemma {:induction false} MarksByTheBook(states: seq<State>, actions: seq<Action>, i: nat, m: nat, spurious: bool)
    requires Run(states, actions) && i < |actions| && actions[i] == Mark(m, spurious) && HasThread(states, m)
    ensures var s, s', met := states[i], states[i + 1], MetIn(states, actions, i, m);
      var k := CellAfter(met.idx, met.failed, |s.cells|);
      && (s'.cells == s.cells || (s.cells[k] == None && s'.cells == s.cells[k := Some(met.idx)]))
      && (s'.scrapeAll == s.scrapeAll
          || (s'.scrapeAll == s.scrapeAll + 1 && (met.full || met.failed > met.retries)))
      && (s'.markers[m] == Idle <==> s'.cells != s.cells || s'.scrapeAll != s.scrapeAll)
  {
    RunMeets(states, actions, i, m);
    assert Steps(states[i], actions[i], states[i + 1]);
    assert m < |states[i].markers| && m < |states[i + 1].markers|;
    var met := MetIn(states, actions, i, m);
    SlotIsAfter(met.idx, met.failed, |states[i].cells|);
  }

  /** Every step of a call brings it nearer to its return; what others do, and exchanges that fail, do not matter. */
  lemma {:induction false} MarkIsWaitFree(s: State, m: nat, spurious: bool)
    requires m < |s.markers| && s.cells != [] && s.markers[m] != Idle
    ensures MarkRank(Next(s, Mark(m, spurious)).markers[m]) < MarkRank(s.markers[m])
    ensures forall a :: Enabled(s, a) && !(a.Mark? && a.m == m) && !(a.Begin? && a.m == m) ==>
      m < |Next(s, a).markers| && Next(s, a).markers[m] == s.markers[m]
  {
  }

  /** The same of NextUpdatedIndex. */
  lemma {:induction false} ScrapeIsWaitFree(s: State)
    requires s.cells != [] && s.scraper != Ready
    ensures var n := |s.cells|;
      |Next(s, Scrape).cells| == n && ScrapeRank(Next(s, Scrape).scraper, n) < ScrapeRank(s.scraper, n)
    ensures forall a :: Enabled(s, a) && a != Scrape && a != Call ==> Next(s, a).scraper == s.scraper
  {
  }
}
