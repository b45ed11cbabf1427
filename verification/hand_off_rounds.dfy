/**
 What each thread of the hand-off does when nobody else takes a step.  Requests up to `limit` have
 arrived at the network.

 A dispatcher scans all of its workers and deals the requests it has, or that have arrived, to those
 that are idle, each in turn being given a full batch until none are left.  A worker handles its batch
 and waits again.  A load generator fills the slot of each dispatcher that has taken the last one.
 */
module HandOffRounds {
  import opened HandOff
  import opened HandOffInvariant

  //---------------------------------------------------------------------------
  // Steps of one thread
  //---------------------------------------------------------------------------

  function Iterate<T>(f: T -> T, x: T, k: nat): T
    decreases k
  {
    if k == 0 then x else Iterate(f, f(x), k - 1)
  }

  lemma {:induction false} IterateOn<T>(f: T -> T, x: T, j: nat, k: nat)
    ensures Iterate(f, x, j + k) == Iterate(f, Iterate(f, x, j), k)
    decreases j
  {
    if j > 0 { IterateOn(f, f(x), j - 1, k); }
  }

  /** Some number of steps leads from x to y. */
  ghost predicate Reaches<T(!new)>(f: T -> T, x: T, y: T) { exists k: nat :: Iterate(f, x, k) == y }

  lemma {:induction false} ReachesOn<T(!new)>(f: T -> T, x: T, y: T, z: T)
    requires Reaches(f, x, y) && Reaches(f, y, z)
    ensures Reaches(f, x, z)
  {
    var j: nat :| Iterate(f, x, j) == y;
    var k: nat :| Iterate(f, y, k) == z;
    IterateOn(f, x, j, k);
  }

  lemma {:induction false} ReachesNext<T(!new)>(f: T -> T, x: T)
    ensures Reaches(f, x, x) && Reaches(f, x, f(x))
  {
    assert Iterate(f, x, 0) == x;
    assert Iterate(f, x, 1) == Iterate(f, f(x), 0);
  }

  //---------------------------------------------------------------------------
  // A dispatcher
  //---------------------------------------------------------------------------

  function OneStep(s: State, d: nat, limit: nat): State {
    if DispEnabled(s, d) then DoDisp(s, d, s.polled < limit, false) else s
  }

  function DispAlone(d: nat, limit: nat): State -> State { (s: State) => OneStep(s, d, limit) }

  /** Dispatcher d, left alone, comes from s to s'. */
  ghost predicate Leads(s: State, d: nat, limit: nat, s': State) { Reaches(DispAlone(d, limit), s, s') }

  lemma {:induction false} LeadsOn(s: State, d: nat, limit: nat, s1: State, s2: State)
    requires Leads(s, d, limit, s1) && Leads(s1, d, limit, s2)
    ensures Leads(s, d, limit, s2)
  {
    ReachesOn(DispAlone(d, limit), s, s1, s2);
  }

  lemma {:induction false} LeadsStep(s: State, d: nat, limit: nat, s': State)
    requires s' == OneStep(s, d, limit)
    ensures Leads(s, d, limit, s')
  {
    ReachesNext(DispAlone(d, limit), s);
  }

  /** One step first. */
  lemma {:induction false} LeadsFirst(s: State, d: nat, limit: nat, s1: State, s2: State)
    requires s1 == OneStep(s, d, limit) && Leads(s1, d, limit, s2)
    ensures Leads(s, d, limit, s2)
  {
    LeadsStep(s, d, limit, s1);
    LeadsOn(s, d, limit, s1, s2);
  }

  //---------------------------------------------------------------------------
  // One batch
  //---------------------------------------------------------------------------

  /** The next requests for a batch with this much room: the head of the queue, or what has arrived. */
  function Chunk(v: Variant, room: nat, queue: seq<nat>, p: nat, limit: nat): seq<nat> {
    if v == Cfs then queue[..if room < |queue| then room else |queue|]
    else seq(if p >= limit then 0 else if room < limit - p then room else limit - p, i => p + i)
  }

  function QueueAfter(v: Variant, queue: seq<nat>, n: nat): seq<nat>
    requires v == Cfs ==> n <= |queue|
  {
    if v == Cfs then queue[n..] else queue
  }

  function PolledAfter(v: Variant, p: nat, n: nat): nat { if v == Cfs then p else p + n }

  lemma {:induction false} ChunkStep(v: Variant, room: nat, queue: seq<nat>, p: nat, limit: nat)
    requires room > 0 && (if v == Cfs then queue != [] else p < limit)
    ensures Chunk(v, room, queue, p, limit) ==
      if v == Cfs then [queue[0]] + Chunk(v, room - 1, queue[1..], p, limit)
      else [p] + Chunk(v, room - 1, queue, p + 1, limit)
  {
  }

  /** The step that pushes one request, or finds the batch full or nothing to push. */
  lemma {:induction false} PushIs(s: State, d: nat, limit: nat, w: nat, idle: seq<nat>, chunk: seq<nat>)
    requires d < |s.disps| && w < |s.workers| && s.disps[d].pc == DPush(w, idle) && |s.workers[w].batch| <= s.batch
    requires chunk == Chunk(s.variant, s.batch - |s.workers[w].batch|, s.disps[d].queue, s.polled, limit)
    ensures var x, y := s.disps[d], s.workers[w];
      OneStep(s, d, limit) ==
        if chunk == [] then Both(s, d, x.(pc := if y.batch == [] then DLoop else DPublish(w, idle)), w, y, s.polled)
        else Both(s, d, x.(queue := QueueAfter(s.variant, x.queue, 1)), w, y.(batch := y.batch + [chunk[0]]),
                  PolledAfter(s.variant, s.polled, 1))
  {
    DispIs(s, d, s.polled < limit, false);
  }

  /** The state after the pushes of a chunk into the batch of worker w. */
  function Filled(s: State, d: nat, w: nat, idle: seq<nat>, chunk: seq<nat>): State
    requires d < |s.disps| && w < |s.workers| && (s.variant == Cfs ==> |chunk| <= |s.disps[d].queue|)
  {
    var x, y := s.disps[d], s.workers[w];
    Both(s, d, x.(queue := QueueAfter(s.variant, x.queue, |chunk|),
                  pc := if y.batch + chunk == [] then DLoop else DPublish(w, idle)),
         w, y.(batch := y.batch + chunk), PolledAfter(s.variant, s.polled, |chunk|))
  }

  lemma {:induction false} FilledOn(s: State, d: nat, w: nat, idle: seq<nat>, chunk: seq<nat>, s1: State)
    requires d < |s.disps| && w < |s.workers| && (s.variant == Cfs ==> |chunk| <= |s.disps[d].queue|) && chunk != []
    requires var x, y := s.disps[d], s.workers[w];
      s1 == Both(s, d, x.(queue := QueueAfter(s.variant, x.queue, 1)), w, y.(batch := y.batch + [chunk[0]]),
                 PolledAfter(s.variant, s.polled, 1))
    ensures Filled(s1, d, w, idle, chunk[1..]) == Filled(s, d, w, idle, chunk)
    ensures s1.variant == s.variant && s1.batch == s.batch
    ensures s1.disps[d].pc == s.disps[d].pc && |s1.workers[w].batch| == |s.workers[w].batch| + 1
  {
    var y := s.workers[w];
    assert y.batch + [chunk[0]] + chunk[1..] == y.batch + chunk;
  }

  lemma {:induction false} PushOn(s: State, d: nat, limit: nat, w: nat, idle: seq<nat>, chunk: seq<nat>, s1: State)
    requires d < |s.disps| && w < |s.workers| && s.disps[d].pc == DPush(w, idle) && |s.workers[w].batch| <= s.batch
    requires chunk == Chunk(s.variant, s.batch - |s.workers[w].batch|, s.disps[d].queue, s.polled, limit)
    requires chunk != [] && s1 == OneStep(s, d, limit)
    ensures d < |s1.disps| && w < |s1.workers| && s1.disps[d].pc == DPush(w, idle)
    ensures s1.variant == s.variant && s1.batch == s.batch
    ensures |s1.workers[w].batch| == |s.workers[w].batch| + 1 <= s.batch
    ensures chunk[1..] == Chunk(s1.variant, s1.batch - |s1.workers[w].batch|, s1.disps[d].queue, s1.polled, limit)
    ensures Filled(s1, d, w, idle, chunk[1..]) == Filled(s, d, w, idle, chunk)
  {
    PushIs(s, d, limit, w, idle, chunk);
    ChunkStep(s.variant, s.batch - |s.workers[w].batch|, s.disps[d].queue, s.polled, limit);
    FilledOn(s, d, w, idle, chunk, s1);
  }

  /** The pushes into the batch of worker w. */
  lemma {:induction false} FillLeads(s: State, d: nat, limit: nat, w: nat, idle: seq<nat>, chunk: seq<nat>)
    requires d < |s.disps| && w < |s.workers| && s.disps[d].pc == DPush(w, idle) && |s.workers[w].batch| <= s.batch
    requires chunk == Chunk(s.variant, s.batch - |s.workers[w].batch|, s.disps[d].queue, s.polled, limit)
    ensures Leads(s, d, limit, Filled(s, d, w, idle, chunk))
    decreases s.batch - |s.workers[w].batch|
  {
    var s1 := OneStep(s, d, limit);
    if chunk == [] {
      PushIs(s, d, limit, w, idle, chunk);
      assert s.workers[w].batch + chunk == s.workers[w].batch;
      LeadsStep(s, d, limit, Filled(s, d, w, idle, chunk));
    } else {
      PushOn(s, d, limit, w, idle, chunk, s1);
      FillLeads(s1, d, limit, w, idle, chunk[1..]);
      LeadsFirst(s, d, limit, s1, Filled(s, d, w, idle, chunk));
    }
  }

  /** Worker y with a batch that is published, marked and announced. */
  function Served(y: Worker, chunk: seq<nat>): Worker {
    Wake(y.(batch := chunk, num := |chunk|, runnable := true))
  }

  lemma {:induction false} PublishIs(s: State, d: nat, limit: nat, w: nat, idle: seq<nat>)
    requires d < |s.disps| && w < |s.workers|
    ensures var x, y, s' := s.disps[d], s.workers[w], OneStep(s, d, limit);
      match x.pc
      case DPublish(v, rest) => v == w && rest == idle && |y.batch| <= s.batch ==>
        s' == Both(s, d, x.(pc := if s.variant.GhostPrioTable? then DCheckIdle(w, idle) else DMark(w, idle)),
                   w, y.(num := |y.batch|), s.polled)
      case DCheckIdle(v, rest) => v == w && rest == idle && !y.runnable ==>
        s' == Both(s, d, x.(pc := DMark(w, idle)), w, y, s.polled)
      case DMark(v, rest) => v == w && rest == idle ==>
        s' == Both(s, d, x.(pc := DWake(w, idle)), w, y.(runnable := true), s.polled)
      case DWake(v, rest) => v == w && rest == idle ==>
        s' == Both(s, d, x.(pc := DNext(idle)), w, Wake(y), s.polled)
      case _ => true
  {
    if DispEnabled(s, d) { DispIs(s, d, s.polled < limit, false); }
  }

  lemma {:induction false} MarkLeads(s: State, d: nat, limit: nat, w: nat, idle: seq<nat>, s': State)
    requires d < |s.disps| && w < |s.workers| && s.disps[d].pc == DMark(w, idle)
    requires s' == Both(s, d, s.disps[d].(pc := DNext(idle)), w, Wake(s.workers[w].(runnable := true)), s.polled)
    ensures Leads(s, d, limit, s')
  {
    var waking := Both(s, d, s.disps[d].(pc := DWake(w, idle)), w, s.workers[w].(runnable := true), s.polled);
    PublishIs(s, d, limit, w, idle);
    PublishIs(waking, d, limit, w, idle);
    LeadsStep(waking, d, limit, s');
    LeadsFirst(s, d, limit, waking, s');
  }

  /** The steps after the batch has been filled. */
  lemma {:induction false} PublishLeads(s: State, d: nat, limit: nat, w: nat, idle: seq<nat>, s': State)
    requires d < |s.disps| && w < |s.workers| && s.disps[d].pc == DPublish(w, idle)
    requires |s.workers[w].batch| <= s.batch && !s.workers[w].runnable
    requires s' == Both(s, d, s.disps[d].(pc := DNext(idle)), w, Served(s.workers[w], s.workers[w].batch), s.polled)
    ensures Leads(s, d, limit, s')
  {
    var y1 := s.workers[w].(num := |s.workers[w].batch|);
    var marking := Both(s, d, s.disps[d].(pc := DMark(w, idle)), w, y1, s.polled);
    MarkLeads(marking, d, limit, w, idle, s');
    PublishIs(s, d, limit, w, idle);
    if s.variant.GhostPrioTable? {
      var checking := Both(s, d, s.disps[d].(pc := DCheckIdle(w, idle)), w, y1, s.polled);
      PublishIs(checking, d, limit, w, idle);
      LeadsFirst(checking, d, limit, marking, s');
      LeadsFirst(s, d, limit, checking, s');
    } else {
      LeadsFirst(s, d, limit, marking, s');
    }
  }

  /** Dispatcher d has given worker w this batch, or had nothing to give. */
  function Given(s: State, d: nat, w: nat, rest: seq<nat>, chunk: seq<nat>): State
    requires d < |s.disps| && w < |s.workers| && (s.variant == Cfs ==> |chunk| <= |s.disps[d].queue|)
  {
    var x, y := s.disps[d], s.workers[w];
    if chunk == [] then Both(s, d, x.(pc := DLoop), w, y.(batch := []), s.polled)
    else Both(s, d, x.(queue := QueueAfter(s.variant, x.queue, |chunk|), pc := DNext(rest)),
              w, Served(y, chunk), PolledAfter(s.variant, s.polled, |chunk|))
  }

  lemma {:induction false} NextIs(s: State, d: nat, limit: nat, w: nat, rest: seq<nat>)
    requires d < |s.disps| && w < |s.workers| && s.disps[d].pc == DNext([w] + rest) && s.workers[w].num == 0
    ensures OneStep(s, d, limit) ==
      Both(s, d, s.disps[d].(pc := DPush(w, rest)), w, s.workers[w].(batch := []), s.polled)
  {
    DispIs(s, d, s.polled < limit, false);
    assert ([w] + rest)[1..] == rest && ([w] + rest)[0] == w;
  }

  lemma {:induction false} ServeLeads(s: State, d: nat, limit: nat, w: nat, rest: seq<nat>, chunk: seq<nat>)
    requires d < |s.disps| && w < |s.workers| && s.disps[d].pc == DNext([w] + rest)
    requires s.workers[w].num == 0 && !s.workers[w].runnable
    requires chunk == Chunk(s.variant, s.batch, s.disps[d].queue, s.polled, limit)
    ensures Leads(s, d, limit, Given(s, d, w, rest, chunk))
  {
    var s1 := Both(s, d, s.disps[d].(pc := DPush(w, rest)), w, s.workers[w].(batch := []), s.polled);
    NextIs(s, d, limit, w, rest);
    FillLeads(s1, d, limit, w, rest, chunk);
    var s2, s' := Filled(s1, d, w, rest, chunk), Given(s, d, w, rest, chunk);
    assert [] + chunk == chunk;
    if chunk != [] {
      PublishLeads(s2, d, limit, w, rest, s');
      LeadsOn(s1, d, limit, s2, s');
    }
    LeadsFirst(s, d, limit, s1, s');
  }

  //---------------------------------------------------------------------------
  // All idle workers
  //---------------------------------------------------------------------------

  /** The workers in `idle` are given their batches in turn, until there is nothing left. */
  function Deal(s: State, d: nat, limit: nat, idle: seq<nat>): State
    requires d < |s.disps| && forall i :: 0 <= i < |idle| ==> idle[i] < |s.workers|
    decreases |idle|
  {
    if idle == [] then SetDisp(s, d, s.disps[d].(pc := DLoop))
    else
      var chunk := Chunk(s.variant, s.batch, s.disps[d].queue, s.polled, limit);
      var s1 := Given(s, d, idle[0], idle[1..], chunk);
      if chunk == [] then s1 else Deal(s1, d, limit, idle[1..])
  }

  predicate AllIdle(s: State, idle: seq<nat>) {
    && Ascending(idle)
    && forall i :: 0 <= i < |idle| ==>
         idle[i] < |s.workers| && s.workers[idle[i]].num == 0 && !s.workers[idle[i]].runnable
  }

  lemma {:induction false} EndIs(s: State, d: nat, limit: nat)
    requires d < |s.disps| && s.disps[d].pc == DNext([])
    ensures OneStep(s, d, limit) == SetDisp(s, d, s.disps[d].(pc := DLoop))
  {
    DispIs(s, d, s.polled < limit, false);
  }

  lemma {:induction false} DealLeads(s: State, d: nat, limit: nat, idle: seq<nat>)
    requires d < |s.disps| && s.disps[d].pc == DNext(idle) && AllIdle(s, idle)
    ensures Leads(s, d, limit, Deal(s, d, limit, idle))
    decreases |idle|
  {
    if idle == [] {
      EndIs(s, d, limit);
      LeadsStep(s, d, limit, Deal(s, d, limit, idle));
    } else {
      var chunk := Chunk(s.variant, s.batch, s.disps[d].queue, s.polled, limit);
      assert idle == [idle[0]] + idle[1..];
      ServeLeads(s, d, limit, idle[0], idle[1..], chunk);
      var s1 := Given(s, d, idle[0], idle[1..], chunk);
      if chunk != [] {
        RestIdle(s, idle, s1);
        DealLeads(s1, d, limit, idle[1..]);
        LeadsOn(s, d, limit, s1, Deal(s, d, limit, idle));
      }
    }
  }

  /** Serving one worker leaves the others idle. */
  lemma {:induction false} RestIdle(s: State, idle: seq<nat>, s': State)
    requires idle != [] && AllIdle(s, idle) && |s'.workers| == |s.workers|
    requires forall v :: 0 <= v < |s.workers| && v != idle[0] ==> s'.workers[v] == s.workers[v]
    ensures AllIdle(s', idle[1..])
  {
  }

  //---------------------------------------------------------------------------
  // The scan
  //---------------------------------------------------------------------------

  /** The idle workers that a scan from worker w on finds. */
  function Idle(s: State, w: nat): seq<nat>
    requires s.disps != []
    decreases |s.workers| - w
  {
    if w >= |s.workers| then []
    else (if Assignable(s.variant, s.workers[w]) then [w] else []) + Idle(s, w + |s.disps|)
  }

  lemma {:induction false} NotBetween(w: nat, v: nat, n: nat)
    requires 0 < n && w < v < w + n
    ensures BossOf(v, n) != BossOf(w, n)
  {
    if w >= n {
      NotBetween(w - n, v - n, n);
    } else if v >= n {
      assert BossOf(v, n) == v - n;
    }
  }

  /** They are all of the dispatcher's own workers that are idle, each once. */
  lemma {:induction false} IdleIs(s: State, w: nat)
    requires s.disps != []
    ensures forall v :: v in Idle(s, w) <==>
      w <= v < |s.workers| && BossOf(v, |s.disps|) == BossOf(w, |s.disps|) && Assignable(s.variant, s.workers[v])
    ensures Ascending(Idle(s, w))
    decreases |s.workers| - w
  {
    var n := |s.disps|;
    if w < |s.workers| {
      IdleIs(s, w + n);
      var rest := Idle(s, w + n);
      forall v | w < v < w + n ensures BossOf(v, n) != BossOf(w, n) { NotBetween(w, v, n); }
      assert BossOf(w + n, n) == BossOf(w, n);
      forall i | 0 <= i < |rest| ensures w < rest[i] { assert rest[i] in rest; }
    }
  }

  lemma {:induction false} ScanStepIs(s: State, d: nat, limit: nat, w: nat, idle: seq<nat>)
    requires d < |s.disps| && s.disps[d].pc == DScan(w, idle)
    ensures OneStep(s, d, limit) == SetDisp(s, d, s.disps[d].(pc :=
      if w >= |s.workers| then DNext(idle)
      else DScan(w + |s.disps|, idle + if Assignable(s.variant, s.workers[w]) then [w] else [])))
  {
    DispIs(s, d, s.polled < limit, false);
    if w < |s.workers| {
      ScanIs(s, d, w, idle);
      assert idle + [] == idle;
    }
  }

  lemma {:induction false} ScanOn(s: State, d: nat, limit: nat, w: nat, idle: seq<nat>, s1: State, idle1: seq<nat>)
    requires d < |s.disps| && s.disps[d].pc == DScan(w, idle) && w < |s.workers| && s1 == OneStep(s, d, limit)
    requires idle1 == idle + if Assignable(s.variant, s.workers[w]) then [w] else []
    ensures s1 == SetDisp(s, d, s.disps[d].(pc := DScan(w + |s.disps|, idle1)))
    ensures idle1 + Idle(s1, w + |s.disps|) == idle + Idle(s, w)
  {
    ScanStepIs(s, d, limit, w, idle);
    SameIdle(s, s1, w + |s.disps|);
  }

  lemma {:induction false} ScanLeads(s: State, d: nat, limit: nat, w: nat, idle: seq<nat>, s': State)
    requires d < |s.disps| && s.disps[d].pc == DScan(w, idle)
    requires s' == SetDisp(s, d, s.disps[d].(pc := DNext(idle + Idle(s, w))))
    ensures Leads(s, d, limit, s')
    decreases |s.workers| - w
  {
    if w >= |s.workers| {
      ScanStepIs(s, d, limit, w, idle);
      assert idle + [] == idle;
      LeadsStep(s, d, limit, s');
    } else {
      var s1 := OneStep(s, d, limit);
      var idle1 := idle + if Assignable(s.variant, s.workers[w]) then [w] else [];
      ScanOn(s, d, limit, w, idle, s1, idle1);
      ScanLeads(s1, d, limit, w + |s.disps|, idle1, s');
      LeadsFirst(s, d, limit, s1, s');
    }
  }

  lemma {:induction false} SameIdle(s: State, s': State, w: nat)
    requires s.disps != [] && |s'.disps| == |s.disps| && s'.workers == s.workers && s'.variant == s.variant
    ensures Idle(s', w) == Idle(s, w)
    decreases |s.workers| - w
  {
    if w < |s.workers| { SameIdle(s, s', w + |s.disps|); }
  }

  //---------------------------------------------------------------------------
  // A round
  //---------------------------------------------------------------------------

  /** What can be handed out: the queue, or the requests that have arrived. */
  function Stock(s: State, d: nat, limit: nat): seq<nat>
    requires d < |s.disps|
  {
    if s.variant == Cfs then s.disps[d].queue
    else seq(if s.polled >= limit then 0 else limit - s.polled, i => s.polled + i)
  }

  function AtMost(n: nat, bound: nat): nat { if n < bound then n else bound }

  /** The part of the stock that the j-th idle worker is given, and what is left after the first j. */
  function Share(stock: seq<nat>, batch: nat, j: nat): seq<nat> {
    Left(stock, batch, j)[..AtMost(batch, |Left(stock, batch, j)|)]
  }

  function Left(stock: seq<nat>, batch: nat, j: nat): seq<nat> { stock[AtMost(j * batch, |stock|)..] }

  /** In s' the j-th idle worker has been given its share, or left with nothing to do. */
  predicate HasShare(s: State, s': State, stock: seq<nat>, idle: seq<nat>, j: nat)
    requires j < |idle| && idle[j] < |s.workers| == |s'.workers|
  {
    var y, y', share := s.workers[idle[j]], s'.workers[idle[j]], Share(stock, s.batch, j);
    if share != [] then y' == Served(y, share) else y' == y.(batch := y'.batch)
  }

  /** The stock has been dealt in order, a batch to each, and everything else is as it was. */
  ghost predicate Dealt(s: State, d: nat, limit: nat, idle: seq<nat>, s': State)
    requires d < |s.disps|
  {
    var stock := Stock(s, d, limit);
    && |s'.disps| == |s.disps| && |s'.workers| == |s.workers| && s'.variant == s.variant && s'.failed == s.failed
    && (forall j :: 0 <= j < |idle| ==> idle[j] < |s.workers| && HasShare(s, s', stock, idle, j))
    && (forall v :: 0 <= v < |s.workers| && v !in idle ==> s'.workers[v] == s.workers[v])
    && Stock(s', d, limit) == Left(stock, s.batch, |idle|)
    && s'.disps == s.disps[d := s.disps[d].(pc := DLoop, queue := s'.disps[d].queue)]
  }

  lemma {:induction false} LeftOn(stock: seq<nat>, batch: nat, j: nat)
    requires j > 0
    ensures Left(Left(stock, batch, 1), batch, j - 1) == Left(stock, batch, j)
  {
    assert (j - 1) * batch + batch == j * batch && 1 * batch == batch;
  }

  lemma {:induction false} StockIs(s: State, d: nat, limit: nat)
    requires d < |s.disps|
    ensures Chunk(s.variant, s.batch, s.disps[d].queue, s.polled, limit) == Share(Stock(s, d, limit), s.batch, 0)
  {
    var stock := Stock(s, d, limit);
    assert 0 * s.batch == 0 && stock[0..] == stock;
  }

  lemma {:induction false} NothingLeft(stock: seq<nat>, batch: nat, j: nat)
    requires Share(stock, batch, 0) == []
    ensures Share(stock, batch, j) == [] && Left(stock, batch, j) == stock
  {
    assert 0 * batch == 0 && stock[0..] == stock;
    if batch == 0 { assert j * batch == 0; }
  }

  lemma {:induction false} GivenStock(s: State, d: nat, limit: nat, w: nat, rest: seq<nat>, chunk: seq<nat>)
    requires d < |s.disps| && w < |s.workers| && chunk == Share(Stock(s, d, limit), s.batch, 0) && chunk != []
    requires s.variant == Cfs ==> |chunk| <= |s.disps[d].queue|
    ensures Stock(Given(s, d, w, rest, chunk), d, limit) == Left(Stock(s, d, limit), s.batch, 1)
  {
    assert 0 * s.batch == 0 && 1 * s.batch == s.batch;
    assert Stock(s, d, limit)[0..] == Stock(s, d, limit);
  }

  lemma {:induction false} DealtNothing(s: State, d: nat, limit: nat, idle: seq<nat>)
    requires d < |s.disps| && AllIdle(s, idle) && (idle == [] || Share(Stock(s, d, limit), s.batch, 0) == [])
    ensures Dealt(s, d, limit, idle, Deal(s, d, limit, idle))
  {
    var stock, s' := Stock(s, d, limit), Deal(s, d, limit, idle);
    StockIs(s, d, limit);
    if idle == [] {
      assert 0 * s.batch == 0 && stock[0..] == stock;
    } else {
      NothingLeft(stock, s.batch, |idle|);
      forall j | 0 <= j < |idle| ensures HasShare(s, s', stock, idle, j) {
        NothingLeft(stock, s.batch, j);
      }
    }
  }

  lemma {:induction false} DealIsDealt(s: State, d: nat, limit: nat, idle: seq<nat>)
    requires d < |s.disps| && AllIdle(s, idle)
    ensures Dealt(s, d, limit, idle, Deal(s, d, limit, idle))
    decreases |idle|
  {
    var chunk := Share(Stock(s, d, limit), s.batch, 0);
    if idle == [] || chunk == [] {
      DealtNothing(s, d, limit, idle);
    } else {
      StockIs(s, d, limit);
      var s1 := Given(s, d, idle[0], idle[1..], chunk);
      GivenStock(s, d, limit, idle[0], idle[1..], chunk);
      RestIdle(s, idle, s1);
      DealIsDealt(s1, d, limit, idle[1..]);
      DealtOn(s, d, limit, idle, s1, Deal(s1, d, limit, idle[1..]));
    }
  }

  /** The first worker has its share in s1, and the others have theirs in s'. */
  lemma {:induction false} DealtOn(s: State, d: nat, limit: nat, idle: seq<nat>, s1: State, s': State)
    requires d < |s.disps| && AllIdle(s, idle) && idle != []
    requires |s1.disps| == |s.disps| && |s1.workers| == |s.workers| && s1.variant == s.variant && s1.batch == s.batch
    requires s1.failed == s.failed && s1.disps == s.disps[d := s1.disps[d]]
    requires s1.disps[d] == s.disps[d].(pc := s1.disps[d].pc, queue := s1.disps[d].queue)
    requires var share := Share(Stock(s, d, limit), s.batch, 0);
      share != [] && s1.workers == s.workers[idle[0] := Served(s.workers[idle[0]], share)]
    requires Stock(s1, d, limit) == Left(Stock(s, d, limit), s.batch, 1)
    requires Dealt(s1, d, limit, idle[1..], s')
    ensures Dealt(s, d, limit, idle, s')
  {
    var stock, rest := Stock(s, d, limit), idle[1..];
    LeftOn(stock, s.batch, |idle|);
    forall j | 0 <= j < |idle| ensures HasShare(s, s', stock, idle, j) {
      if j > 0 {
        LeftOn(stock, s.batch, j);
        assert HasShare(s1, s', Stock(s1, d, limit), rest, j - 1);
        assert rest[j - 1] == idle[j] != idle[0];
      } else {
        assert idle[0] !in rest;
      }
    }
    forall v | 0 <= v < |s.workers| && v !in idle ensures s'.workers[v] == s.workers[v] {
      assert v !in rest && v != idle[0];
    }
  }

  /**
   A dispatcher that starts its scan and is left alone finds exactly those of its workers that are idle,
   and deals them what it has, or what has arrived: a full batch to each in turn, the last one less if
   there is no more, each published, marked and woken; the rest stays for the next round.
   */
  lemma {:induction false} RoundDeals(s: State, d: nat, limit: nat) returns (idle: seq<nat>, s': State)
    requires Inv(s) && d < |s.disps| && s.disps[d].pc == DScan(d, [])
    ensures Ascending(idle)
    ensures forall w: nat :: w in idle <==>
      w < |s.workers| && BossOf(w, |s.disps|) == d && Assignable(s.variant, s.workers[w])
    ensures Leads(s, d, limit, s') && Dealt(s, d, limit, idle, s')
  {
    idle := Idle(s, d);
    IdleIs(s, d);
    OwnFrom(s, d);
    var s1 := SetDisp(s, d, s.disps[d].(pc := DNext(idle)));
    assert [] + idle == idle;
    ScanLeads(s, d, limit, d, [], s1);
    IdleReady(s, d, idle, s1);
    s' := Deal(s1, d, limit, idle);
    DealLeads(s1, d, limit, idle);
    LeadsOn(s, d, limit, s1, s');
    DealIsDealt(s1, d, limit, idle);
    SameStock(s, s1, d, limit, idle, s');
  }

  lemma {:induction false} IdleReady(s: State, d: nat, idle: seq<nat>, s1: State)
    requires Structure(s) && DispEnabled(s, d) && s.disps[d].pc == DScan(d, []) && Ascending(idle)
    requires forall w :: w in idle ==>
      w < |s.workers| && BossOf(w, |s.disps|) == d && Assignable(s.variant, s.workers[w])
    requires s1 == SetDisp(s, d, s.disps[d].(pc := DNext(idle)))
    ensures AllIdle(s1, idle)
  {
    forall i | 0 <= i < |idle|
      ensures idle[i] < |s.workers| && s.workers[idle[i]].num == 0 && !s.workers[idle[i]].runnable
    {
      assert idle[i] in idle;
      KnownHolds(s, d, idle[i]);
      ListOk(s.variant, s.batch, s.workers[idle[i]]);
    }
  }

  lemma {:induction false} OwnFrom(s: State, d: nat)
    requires d < |s.disps|
    ensures forall w: nat :: BossOf(w, |s.disps|) == d ==> d <= w
    ensures BossOf(d, |s.disps|) == d
  {
    forall w: nat ensures BossOf(w, |s.disps|) <= w { BossBelow(w, |s.disps|); }
  }

  lemma {:induction false} BossBelow(w: nat, n: nat)
    requires n > 0
    ensures BossOf(w, n) <= w
  {
    if w >= n { BossBelow(w - n, n); }
  }

  lemma {:induction false} SameStock(s: State, s1: State, d: nat, limit: nat, idle: seq<nat>, s': State)
    requires d < |s.disps| == |s1.disps| && s1 == SetDisp(s, d, s.disps[d].(pc := s1.disps[d].pc))
    requires Dealt(s1, d, limit, idle, s')
    ensures Dealt(s, d, limit, idle, s')
  {
    var stock := Stock(s, d, limit);
    assert Stock(s1, d, limit) == stock;
    forall j | 0 <= j < |idle| ensures idle[j] < |s.workers| && HasShare(s, s', stock, idle, j) {
      assert HasShare(s1, s', stock, idle, j);
    }
  }

  /** What the queue of a dispatcher is when it has looked at its slot. */
  function Taken(v: Variant, x: Disp): seq<nat> { if v == Cfs && x.num > 0 then x.queue + x.slot else x.queue }

  /** Dispatcher d has seen to its slot, and goes on to the scan if it may have something to hand out. */
  function AfterSlot(s: State, d: nat): State
    requires d < |s.disps|
  {
    var x := s.disps[d];
    var queue := Taken(s.variant, x);
    SetDisp(s, d, x.(queue := queue, num := if s.variant == Cfs then 0 else x.num,
                     pc := if s.variant == Cfs && queue == [] then DLoop else DScan(d, [])))
  }

  lemma {:induction false} TakeIs(s: State, d: nat, limit: nat)
    requires d < |s.disps| && Taking(s.disps[d].pc) && s.disps[d].pc != DStart
    requires s.disps[d].num > 0 ==> s.disps[d].num == |s.disps[d].slot|
    ensures OneStep(s, d, limit) == SetDisp(s, d, Take(s.variant, d, s.disps[d]))
  {
    DispIs(s, d, s.polled < limit, false);
  }

  /**
   A dispatcher that begins a round and is left alone appends a full slot to its queue and empties the
   slot; then it scans for idle workers, unless it has nothing to hand out.
   */
  lemma {:induction false} TakesSlot(s: State, d: nat, limit: nat)
    requires Structure(s) && d < |s.disps| && s.disps[d].pc == DLoop && !s.disps[d].exit
    ensures Leads(s, d, limit, AfterSlot(s, d))
  {
    var x, s' := s.disps[d], AfterSlot(s, d);
    assert DispOk(x, d, s.gen, |s.disps|, |s.workers|);
    TakeIs(s, d, limit);
    if s.variant != Cfs {
      LeadsStep(s, d, limit, s');
    } else {
      var s1 := SetDisp(s, d, x.(pc := DLoad));
      TakeIs(s1, d, limit);
      if x.num > 0 {
        var s2 := SetDisp(s, d, x.(pc := DTake));
        var s3 := SetDisp(s, d, x.(pc := DStoreZero, queue := x.queue + x.slot));
        TakeIs(s2, d, limit);
        TakeIs(s3, d, limit);
        LeadsStep(s3, d, limit, s');
        LeadsFirst(s2, d, limit, s3, s');
        LeadsFirst(s1, d, limit, s2, s');
      } else {
        LeadsStep(s1, d, limit, s');
      }
      LeadsFirst(s, d, limit, s1, s');
    }
  }

  //---------------------------------------------------------------------------
  // A worker
  //---------------------------------------------------------------------------

  function WorkAlone(v: Variant, batch: nat): Worker -> Worker { (y: Worker) => StepWorker(v, batch, y).0 }

  /** A worker, left alone, comes from y to y'. */
  ghost predicate Works(v: Variant, batch: nat, y: Worker, y': Worker) { Reaches(WorkAlone(v, batch), y, y') }

  lemma {:induction false} WorksFirst(v: Variant, batch: nat, y: Worker, y1: Worker, y': Worker)
    requires y1 == StepWorker(v, batch, y).0 && (y1 == y' || Works(v, batch, y1, y'))
    ensures Works(v, batch, y, y')
  {
    ReachesNext(WorkAlone(v, batch), y);
    if y1 != y' { ReachesOn(WorkAlone(v, batch), y, y1, y'); }
  }

  /** From inside the loop over the batch. */
  lemma {:induction false} HandlesRest(v: Variant, batch: nat, y: Worker, k: nat, y': Worker)
    requires y.pc == WHandle(k) && k <= y.num == |y.batch|
    requires y' == y.(num := 0, runnable := false, completed := y.completed + y.batch[k..], pc := WWait(false))
    ensures Works(v, batch, y, y')
    decreases y.num - k
  {
    var y1 := StepWorker(v, batch, y).0;
    if k < y.num {
      assert y.completed + [y.batch[k]] + y.batch[k + 1..] == y.completed + y.batch[k..];
      HandlesRest(v, batch, y1, k + 1, y');
    } else {
      assert y.completed + y.batch[k..] == y.completed;
      var y2 := StepWorker(v, batch, y1).0;
      var y3 := StepWorker(v, batch, y2).0;
      assert y3 == y';
      WorksFirst(v, batch, y2, y3, y');
      WorksFirst(v, batch, y1, y2, y');
    }
    WorksFirst(v, batch, y, y1, y');
  }

  /** The worker y when it has handled its batch. */
  function HasServed(y: Worker): Worker {
    y.(num := 0, runnable := false, completed := y.completed + y.batch, pc := WWait(false))
  }

  lemma {:induction false} LoadIs(v: Variant, batch: nat, y: Worker)
    requires y.num > 0 && !y.exit
    ensures y.pc == WLoad ==> StepWorker(v, batch, y).0 == y.(pc := WHandle(0))
    ensures y.pc == WLoop ==> StepWorker(v, batch, y).0 == y.(pc := WLoad)
  {
  }

  lemma {:induction false} FromLoad(v: Variant, batch: nat, y: Worker, y': Worker)
    requires y.num == |y.batch| > 0 && !y.exit && y.pc == WLoad && y' == HasServed(y)
    ensures Works(v, batch, y, y')
  {
    assert y.batch[0..] == y.batch;
    LoadIs(v, batch, y);
    HandlesRest(v, batch, y.(pc := WHandle(0)), 0, y');
    WorksFirst(v, batch, y, y.(pc := WHandle(0)), y');
  }

  lemma {:induction false} FromLoop(v: Variant, batch: nat, y: Worker, y': Worker)
    requires y.num == |y.batch| > 0 && !y.exit && (y.pc == WLoad || y.pc == WLoop) && y' == HasServed(y)
    ensures Works(v, batch, y, y')
  {
    if y.pc == WLoad {
      FromLoad(v, batch, y, y');
    } else {
      LoadIs(v, batch, y);
      FromLoad(v, batch, y.(pc := WLoad), y');
      WorksFirst(v, batch, y, y.(pc := WLoad), y');
    }
  }

  /** A marked worker handles its whole batch, in order, and waits for the next one, unless it is told to exit. */
  lemma {:induction false} WorkerServes(v: Variant, batch: nat, y: Worker)
    requires y.num == |y.batch| > 0 && y.runnable && !y.exit
    requires y.pc == WStart || y.pc.WWait? || y.pc.WWoken?
    ensures Works(v, batch, y, y.(num := 0, runnable := false, completed := y.completed + y.batch, pc := WWait(false)))
  {
    var y1 := StepWorker(v, batch, y).0;
    if y1.pc == WWait(true) && y.pc == WStart {
      var y2 := StepWorker(v, batch, y1).0;
      FromLoop(v, batch, y2, HasServed(y));
      WorksFirst(v, batch, y1, y2, HasServed(y));
    } else {
      FromLoop(v, batch, y1, HasServed(y));
    }
    WorksFirst(v, batch, y, y1, HasServed(y));
  }

  //---------------------------------------------------------------------------
  // A load generator
  //---------------------------------------------------------------------------

  function GenOnce(s: State, limit: nat): State { if GenEnabled(s) then DoGen(s, s.polled < limit) else s }

  function GenAlone(limit: nat): State -> State { (s: State) => GenOnce(s, limit) }

  /** The load generator, left alone, comes from s to s'. */
  ghost predicate Generates(s: State, limit: nat, s': State) { Reaches(GenAlone(limit), s, s') }

  lemma {:induction false} GeneratesFirst(s: State, limit: nat, s1: State, s': State)
    requires s1 == GenOnce(s, limit) && (s1 == s' || Generates(s1, limit, s'))
    ensures Generates(s, limit, s')
  {
    ReachesNext(GenAlone(limit), s);
    if s1 != s' { ReachesOn(GenAlone(limit), s, s1, s'); }
  }

  /** The requests that have arrived, up to n of them. */
  function Arrived(p: nat, limit: nat, n: nat): seq<nat> {
    seq(if p >= limit then 0 else AtMost(n, limit - p), i => p + i)
  }

  /** Dispatcher i has these requests in its slot, published. */
  function Stored(s: State, i: nat, slot: seq<nat>, p: nat): State
    requires i < |s.disps|
  {
    SetDisp(s, i, s.disps[i].(slot := slot, num := |slot|)).(gen := LgCheck(i + 1), polled := p)
  }

  lemma {:induction false} PollIs(s: State, limit: nat, i: nat, k: nat, news: seq<nat>, s1: State)
    requires i < |s.disps| && s.gen == LgPoll(i, k) && k <= 100 && news == Arrived(s.polled, limit, 100 - k)
    requires s1 == GenOnce(s, limit)
    ensures news == [] ==> s1 == s.(gen := LgStore(i))
    ensures news != [] ==> k < 100 && news == [s.polled] + Arrived(s.polled + 1, limit, 100 - (k + 1))
    ensures var x := s.disps[i];
      news != [] ==>
        s1 == SetDisp(s, i, x.(slot := x.slot + [s.polled])).(gen := LgPoll(i, k + 1), polled := s.polled + 1)
  {
  }

  lemma {:induction false} PollsRest(s: State, limit: nat, i: nat, k: nat, news: seq<nat>, s': State)
    requires i < |s.disps| && s.gen == LgPoll(i, k) && k <= 100 && news == Arrived(s.polled, limit, 100 - k)
    requires s' == Stored(s, i, s.disps[i].slot + news, s.polled + |news|)
    ensures Generates(s, limit, s')
    decreases 100 - k
  {
    var slot, s1 := s.disps[i].slot, GenOnce(s, limit);
    PollIs(s, limit, i, k, news, s1);
    if news == [] {
      assert slot + news == slot;
      GeneratesFirst(s1, limit, s', s');
    } else {
      assert slot + [s.polled] + news[1..] == slot + news;
      PollsRest(s1, limit, i, k + 1, news[1..], s');
    }
    GeneratesFirst(s, limit, s1, s');
  }

  /**
   The load generator passes over a dispatcher that has not taken its slot; otherwise it gives it all
   requests that have arrived, up to 100.
   */
  lemma {:induction false} GenFills(s: State, limit: nat, i: nat)
    requires i < |s.disps| && s.gen == LgCheck(i)
    ensures var news := Arrived(s.polled, limit, 100);
      Generates(s, limit,
                if s.disps[i].num != 0 then s.(gen := LgCheck(i + 1)) else Stored(s, i, news, s.polled + |news|))
  {
    var news, s1 := Arrived(s.polled, limit, 100), GenOnce(s, limit);
    if s.disps[i].num != 0 {
      GeneratesFirst(s, limit, s1, s1);
    } else {
      var s', s2 := Stored(s, i, news, s.polled + |news|), GenOnce(s1, limit);
      assert [] + news == news;
      PollsRest(s2, limit, i, 0, news, s');
      GeneratesFirst(s1, limit, s2, s');
      GeneratesFirst(s, limit, s1, s');
    }
  }
}
