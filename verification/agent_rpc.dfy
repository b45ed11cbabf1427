/** The RPC between a parent process and the agent process. */
module AgentRpc {
  /*
   It has two notifications in shared memory, each reset by the side that waited on it.  Callers take
   rpc_mutex, so one call is under way at a time.
   */

  import opened Notifications

  datatype Response = Response(code: int, data: int)

  const ENODEV := 19
  const EMPTY := Response(-1, 0)

  datatype Client =
    | NoCall
    | WriteRequest(req: int)
    | NotifyPending(req: int, n: Notify)
    | WaitDone(req: int, w: Wait)
    | ResetDone(req: int)
    | ReadResponse(req: int)

  datatype Handler =
    | WaitPending(w: Wait)
    | ResetPending
    | CheckOnline
    | ClearResponse
    | RunHandler
    | SetNoDevice
    | NotifyDoneWord(n: Notify)

  datatype Call = Call(req: int, res: Response)

  /** handled and returned only record history: what the handler computed, what callers received. */
  datatype State = State(
    pending: Word, done: Word, req: int, res: Response,
    client: Client, handler: Handler, failed: bool,
    issued: seq<int>, handled: seq<Call>, returned: seq<Call>)

  /** fluke as in WaitStep; res and online are the environment's answers. */
  datatype Action =
    | StartCall(req: int)
    | ClientStep(fluke: bool)
    | ClientWakesUp(interrupted: bool)
    | HandlerStep(fluke: bool, online: bool, res: Response)
    | HandlerWakesUp(interrupted: bool)

  predicate ClientAsleep(s: State) { s.client.WaitDone? && s.client.w == Asleep }

  predicate HandlerAsleep(s: State) { s.handler == WaitPending(Asleep) }

  predicate Enabled(s: State, a: Action) {
    match a
    case StartCall(_) => s.client == NoCall
    case ClientStep(_) => s.client != NoCall && !ClientAsleep(s)
    case ClientWakesUp(_) => ClientAsleep(s)
    case HandlerStep(_, _, _) => !HandlerAsleep(s)
    case HandlerWakesUp(_) => HandlerAsleep(s)
  }

  function DoClient(s: State, fluke: bool): State {
    match s.client
    case NoCall => s
    case WriteRequest(r) => s.(req := r, client := NotifyPending(r, NotifyLoad))
    case NotifyPending(r, n) =>
      var (word, n') := NotifyStep(s.pending, n, fluke);
      s.(pending := word, failed := s.failed || CheckFails(s.pending, n),
         client := if n' == NotifyDone then WaitDone(r, WaitLoad) else NotifyPending(r, n'),
         handler := if n == NotifyWake && HandlerAsleep(s) then WaitPending(Woken) else s.handler)
    case WaitDone(r, w) =>
      var (word, w') := WaitStep(s.done, w, fluke);
      s.(done := word, client := if w' == Returned then ResetDone(r) else WaitDone(r, w'))
    case ResetDone(r) => s.(done := NoWaiter, client := ReadResponse(r))
    case ReadResponse(r) => s.(returned := s.returned + [Call(r, s.res)], client := NoCall)
  }

  function DoHandler(s: State, fluke: bool, online: bool, res: Response): State {
    match s.handler
    case WaitPending(w) =>
      var (word, w') := WaitStep(s.pending, w, fluke);
      s.(pending := word, handler := if w' == Returned then ResetPending else WaitPending(w'))
    case ResetPending => s.(pending := NoWaiter, handler := CheckOnline)
    case CheckOnline => s.(handler := if online then ClearResponse else SetNoDevice)
    case ClearResponse => s.(res := EMPTY, handler := RunHandler)
    case RunHandler => Answer(s, res)
    case SetNoDevice => Answer(s, s.res.(code := -ENODEV))
    case NotifyDoneWord(n) =>
      var (word, n') := NotifyStep(s.done, n, fluke);
      s.(done := word, failed := s.failed || CheckFails(s.done, n),
         handler := if n' == NotifyDone then WaitPending(WaitLoad) else NotifyDoneWord(n'),
         client := if n == NotifyWake && ClientAsleep(s) then s.client.(w := Woken) else s.client)
  }

  function Answer(s: State, res: Response): State {
    s.(res := res, handled := s.handled + [Call(s.req, res)], handler := NotifyDoneWord(NotifyLoad))
  }

  function Next(s: State, a: Action): State
    requires Enabled(s, a)
  {
    match a
    case StartCall(r) => s.(client := WriteRequest(r), issued := s.issued + [r])
    case ClientStep(fluke) => DoClient(s, fluke)
    case ClientWakesUp(i) => s.(client := s.client.(w := if i then FutexCall else Woken))
    case HandlerStep(fluke, online, res) => DoHandler(s, fluke, online, res)
    case HandlerWakesUp(i) => s.(handler := WaitPending(if i then FutexCall else Woken))
  }

  predicate Init(s: State) {
    && s.pending == NoWaiter && s.done == NoWaiter && s.client == NoCall
    && s.handler == WaitPending(WaitLoad) && !s.failed
    && s.issued == [] && s.handled == [] && s.returned == []
  }

  //---------------------------------------------------------------------------
  // Invariant
  //---------------------------------------------------------------------------

  /** The handler is between two requests: still in its last Wake, or waiting. */
  predicate HandlerResting(h: Handler) { h == NotifyDoneWord(NotifyWake) || h.WaitPending? }

  predicate HandlerWorking(h: Handler) {
    h == CheckOnline || h == ClearResponse || h == RunHandler || h == SetNoDevice || HandlerAnswering(h)
  }

  predicate HandlerAnswering(h: Handler) { h.NotifyDoneWord? && BeforeCas(h.n) }

  predicate BeforeCas(n: Notify) {
    n == NotifyLoad || (n.NotifyCheck? && n.v != Notified) || (n.NotifyCas? && n.v != Notified)
  }

  /** The caller has posted its request and not yet seen the answer. */
  predicate ClientWaiting(c: Client) {
    (c.NotifyPending? && c.n == NotifyWake) || (c.WaitDone? && c.w != Returned)
  }

  predicate ClientPreparing(c: Client) {
    c == NoCall || c.WriteRequest? || (c.NotifyPending? && BeforeCas(c.n))
  }

  /** Where the two sides and the two words can be together. */
  predicate Phase(s: State) {
    // nothing posted
    || (ClientPreparing(s.client) && HandlerResting(s.handler) && s.pending != Notified && s.done == NoWaiter)
    // posted, not taken
    || (ClientWaiting(s.client) && (HandlerResting(s.handler) || s.handler == ResetPending)
        && s.pending == Notified && s.done != Notified)
    // taken, not answered
    || (ClientWaiting(s.client) && HandlerWorking(s.handler) && s.pending == NoWaiter && s.done != Notified)
    // answered
    || ((ClientWaiting(s.client) || s.client.ResetDone?) && HandlerResting(s.handler)
        && s.pending != Notified && s.done == Notified)
    // answer acknowledged
    || (s.client.ReadResponse? && HandlerResting(s.handler) && s.pending != Notified && s.done == NoWaiter)
  }

  predicate Waits(s: State) {
    && (s.handler.WaitPending? ==>
        && s.handler.w != Returned
        && (Committed(s.handler.w) ==> s.pending != NoWaiter)
        && (s.handler.w == Asleep ==> s.pending == Waiter || (s.client.NotifyPending? && s.client.n == NotifyWake)))
    && (s.client.WaitDone? ==>
        && (Committed(s.client.w) ==> s.done != NoWaiter)
        && (s.client.w == Asleep ==> s.done == Waiter || s.handler == NotifyDoneWord(NotifyWake)))
    && (s.pending == Waiter ==> s.handler.WaitPending?)
    && (s.done == Waiter ==> s.client.WaitDone?)
  }

  predicate Answered(s: State) {
    HandlerAnswering(s.handler) || s.done == Notified || s.client.ReadResponse?
  }

  function Requests(calls: seq<Call>): seq<int> {
    seq(|calls|, i requires 0 <= i < |calls| => calls[i].req)
  }

  predicate History(s: State) {
    && (s.client == NoCall ==> s.issued == Requests(s.returned))
    && (s.client != NoCall ==> s.issued == Requests(s.returned) + [s.client.req])
    && (s.client != NoCall && !s.client.WriteRequest? ==> s.req == s.client.req)
    && (!Answered(s) ==> s.handled == s.returned)
    && (Answered(s) ==> s.client != NoCall && s.handled == s.returned + [Call(s.client.req, s.res)])
  }

  ghost predicate Inv(s: State) {
    !s.failed && Phase(s) && Waits(s) && History(s)
  }

  lemma {:induction false} ClientPhase(s: State, fluke: bool)
    requires Inv(s) && Enabled(s, ClientStep(fluke))
    ensures var s' := DoClient(s, fluke); !s'.failed && Phase(s') && Waits(s')
  {
  }

  lemma {:induction false} HandlerPhase(s: State, fluke: bool, online: bool, res: Response)
    requires Inv(s) && Enabled(s, HandlerStep(fluke, online, res))
    ensures var s' := DoHandler(s, fluke, online, res); !s'.failed && Phase(s')
  {
  }

  lemma {:induction false} HandlerWaits(s: State, fluke: bool, online: bool, res: Response)
    requires Inv(s) && Enabled(s, HandlerStep(fluke, online, res))
    ensures Waits(DoHandler(s, fluke, online, res))
  {
  }

  lemma {:induction false} ClientHistory(s: State, fluke: bool)
    requires Inv(s) && Enabled(s, ClientStep(fluke))
    ensures History(DoClient(s, fluke))
  {
    var s' := DoClient(s, fluke);
    if s.client.ReadResponse? {
      assert Requests(s'.returned) == Requests(s.returned) + [s.client.req];
    }
  }

  lemma {:induction false} HandlerHistory(s: State, fluke: bool, online: bool, res: Response)
    requires Inv(s) && Enabled(s, HandlerStep(fluke, online, res))
    ensures History(DoHandler(s, fluke, online, res))
  {
  }

  lemma {:induction false} StepKeeps(s: State, a: Action)
    requires Inv(s) && Enabled(s, a)
    ensures Inv(Next(s, a))
  {
    match a
    case StartCall(r) =>
    case ClientStep(fluke) =>
      ClientPhase(s, fluke);
      ClientHistory(s, fluke);
    case ClientWakesUp(i) =>
    case HandlerStep(fluke, online, res) =>
      HandlerPhase(s, fluke, online, res);
      HandlerWaits(s, fluke, online, res);
      HandlerHistory(s, fluke, online, res);
    case HandlerWakesUp(i) =>
  }

  ghost predicate Steps(s: State, a: Action, s': State) { Enabled(s, a) && s' == Next(s, a) }

  ghost predicate Run(states: seq<State>, actions: seq<Action>) {
    && |states| == |actions| + 1 && Init(states[0])
    && forall i :: 0 <= i < |actions| ==> Steps(states[i], actions[i], states[i + 1])
  }

  lemma {:induction false} RunKeepsInv(states: seq<State>, actions: seq<Action>, i: nat)
    requires Run(states, actions) && i < |states|
    ensures Inv(states[i])
  {
    if i > 0 {
      RunKeepsInv(states, actions, i - 1);
      assert Steps(states[i - 1], actions[i - 1], states[i]);
      StepKeeps(states[i - 1], actions[i - 1]);
    }
  }

  /**
   What the environment has answered in a run, read off its steps alone: whether the enclave was online
   when last asked, the last response, and the calls answered so far.
   */
  datatype Answers = Answers(online: bool, last: Response, calls: seq<Call>)

  /** The handler asks IsOnline, or fills in the response for the request it finds. */
  function Replied(log: Answers, s: State, a: Action): Answers {
    if !a.HandlerStep? then log
    else if s.handler == CheckOnline then log.(online := a.online)
    else if s.handler == RunHandler || s.handler == SetNoDevice then
      var res := if log.online then a.res else Response(-ENODEV, log.last.data);
      log.(last := res, calls := log.calls + [Call(s.req, res)])
    else log
  }

  function AnswersOf(states: seq<State>, actions: seq<Action>, i: nat): Answers
    requires |states| == |actions| + 1 && i < |states|
  {
    if i == 0 then Answers(false, states[0].res, [])
    else Replied(AnswersOf(states, actions, i - 1), states[i - 1], actions[i - 1])
  }

  /** The handler has done what the answers say. */
  predicate Logged(s: State, log: Answers) {
    && s.handled == log.calls
    && (s.handler != RunHandler ==> s.res == log.last)
    && (s.handler == RunHandler ==> s.res == EMPTY)
    && (s.handler == ClearResponse || s.handler == RunHandler ==> log.online)
    && (s.handler == SetNoDevice ==> !log.online)
  }

  lemma {:induction false} StepIsLogged(s: State, a: Action, log: Answers)
    requires Logged(s, log) && Enabled(s, a)
    ensures Logged(Next(s, a), Replied(log, s, a))
  {
  }

  lemma {:induction false} RunIsLogged(states: seq<State>, actions: seq<Action>, i: nat)
    requires Run(states, actions) && i < |states|
    ensures Logged(states[i], AnswersOf(states, actions, i))
  {
    if i > 0 {
      RunIsLogged(states, actions, i - 1);
      assert Steps(states[i - 1], actions[i - 1], states[i]);
      StepIsLogged(states[i - 1], actions[i - 1], AnswersOf(states, actions, i - 1));
    }
  }

  /** The handler finds the request of the call under way and an empty response. */
  lemma {:induction false} HandlerStartsClean(states: seq<State>, actions: seq<Action>, i: nat)
    requires Run(states, actions) && i < |states| && states[i].handler == RunHandler
    ensures states[i].res == EMPTY && states[i].client != NoCall && states[i].req == states[i].client.req
  {
    RunKeepsInv(states, actions, i);
    RunIsLogged(states, actions, i);
  }

  /**
   Every call returns the response to its own request: the calls that returned are, in order, the
   requests that were issued, each once, with what the handler computed for it if the enclave was online
   then, and otherwise with -ENODEV and the rest of the response before; and no CHECK in Notify fails.
   */
  lemma {:induction false} EachCallGetsItsAnswer(states: seq<State>, actions: seq<Action>, i: nat)
    requires Run(states, actions) && i < |states|
    ensures var s, calls := states[i], AnswersOf(states, actions, i).calls;
      && !s.failed
      && |s.returned| <= |calls| <= |s.issued| <= |s.returned| + 1
      && (forall k :: 0 <= k < |s.returned| ==> s.returned[k] == calls[k])
      && (forall k :: 0 <= k < |calls| ==> calls[k].req == s.issued[k])
  {
    RunKeepsInv(states, actions, i);
    RunIsLogged(states, actions, i);
    var s := states[i];
    forall k | 0 <= k < |s.returned| ensures s.returned[k].req == s.issued[k] {
      assert Requests(s.returned)[k] == s.issued[k];
    }
  }

  /** Both sides are never asleep while a call is under way, so a step is always possible. */
  lemma {:induction false} NoDeadlock(states: seq<State>, actions: seq<Action>, i: nat)
    requires Run(states, actions) && i < |states| && states[i].client != NoCall
    ensures Enabled(states[i], ClientStep(false))
      || forall online, res :: Enabled(states[i], HandlerStep(false, online, res))
    ensures HandlerAsleep(states[i]) && states[i].pending == Notified ==> Enabled(states[i], ClientStep(false))
  {
    RunKeepsInv(states, actions, i);
  }

  //---------------------------------------------------------------------------
  // Every call returns
  //---------------------------------------------------------------------------

  /** What a waiter may still do on its own; a sleeper does nothing. */
  function WaitRank(word: Word, w: Wait): nat {
    match (word, w)
    case (_, Asleep) => 0
    case (_, Returned) => 0
    case (Notified, WaitCas) => 2
    case (Notified, _) => 1
    case (Waiter, FutexCall) => 2
    case (Waiter, WaitCas) => 4
    case (Waiter, _) => 3
    case (NoWaiter, WaitLoad) => 8
    case (NoWaiter, _) => 7
  }

  /** What a notifier may still do; its exchange fails if the word changed since it was loaded. */
  function NotifyRank(word: Word, n: Notify): nat {
    match n
    case NotifyDone => 0
    case NotifyWake => 2
    case NotifyCas(v) => if v == word then 3 else 6
    case NotifyCheck(v) => if v == word then 4 else 7
    case NotifyLoad => 5
  }

  function ClientRank(s: State): nat {
    match s.client
    case NoCall => 0
    case WriteRequest(_) => 20
    case NotifyPending(_, n) => 10 + NotifyRank(s.pending, n)
    case WaitDone(_, w) => WaitRank(s.done, w)
    case ResetDone(_) => 0
    case ReadResponse(_) => 0
  }

  function HandlerRank(s: State): nat {
    match s.handler
    case WaitPending(w) => WaitRank(s.pending, w)
    case ResetPending => 0
    case CheckOnline => 23
    case ClearResponse => 22
    case RunHandler => 21
    case SetNoDevice => 21
    case NotifyDoneWord(n) => 10 + NotifyRank(s.done, n)
  }

  function Stage(s: State): nat {
    if s.client == NoCall then 0
    else if s.client.ReadResponse? then 1
    else if s.done == Notified then 2
    else if ClientPreparing(s.client) then 5
    else if s.pending == Notified then 4
    else 3
  }

  function Rank(s: State): nat { 40 * Stage(s) + ClientRank(s) + HandlerRank(s) }

  lemma {:induction false} ClientStepLowersRank(s: State)
    requires Inv(s) && Enabled(s, ClientStep(false))
    ensures Rank(DoClient(s, false)) < Rank(s)
  {
  }

  lemma {:induction false} HandlerStepLowersRank(s: State, online: bool, res: Response)
    requires Inv(s) && Enabled(s, HandlerStep(false, online, res)) && s.client != NoCall
    ensures Rank(DoHandler(s, false, online, res)) < Rank(s)
  {
  }

  /** Steps other than flukes, spurious wake-ups and the start of a call. */
  predicate Plain(a: Action) { (a.ClientStep? && !a.fluke) || (a.HandlerStep? && !a.fluke) }

  /** Once exchanges stop failing and nobody is woken for no reason, a call returns in bounded time. */
  lemma {:induction false} CallReturns(states: seq<State>, actions: seq<Action>, i: nat, j: nat)
    requires Run(states, actions) && i <= j < |states|
    requires forall k :: i <= k < j ==> Plain(actions[k]) && states[k].client != NoCall
    ensures j - i <= Rank(states[i]) - Rank(states[j]) <= 240
    decreases j - i
  {
    RunKeepsInv(states, actions, i);
    if i < j {
      assert Steps(states[i], actions[i], states[i + 1]);
      match actions[i] {
        case ClientStep(_) => ClientStepLowersRank(states[i]);
        case HandlerStep(_, online, res) => HandlerStepLowersRank(states[i], online, res);
      }
      CallReturns(states, actions, i + 1, j);
    }
  }
}
