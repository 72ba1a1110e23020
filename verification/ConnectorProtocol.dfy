/**
 * The Connector (zdq_connector.cpp) with the part of the loop it depends on: rounds of poll, dispatch and functors,
 * the FIFO of functors, the retry timer, and the handed-over connection whose end may restart it
 * (zdq_tcp_client.cpp). A failed assertion, a use of a destroyed channel, and a removal that the poller cannot do, are
 * the outcome `broken`. Whether the poller can remove the channel depends on the other channels of the loop: each event
 * that may ask for it says so by `removable`.
 * Sockets are numbered in the order in which they are opened, so a number is never used twice.
 */
module ConnectorProtocol {
  type Sock = nat

  const INIT_RETRY_DELAY_MS: nat := 500
  const MAX_RETRY_DELAY_MS: nat := 30000

  datatype ConnState = Disconnected | Connecting | Connected

  /** What connect(2) led to: one of the errno cases that go on, that retry, or that give up. */
  datatype Outcome = InProgress | Retriable | Fatal

  /** channel_: the socket it watches and whether the poller still has it. */
  datatype Channel = None | Chan(sock: Sock, registered: bool)

  datatype Fn = ResetChannel | StopInLoop | StartInLoop | CloseConn(sock: Sock)

  /** A retry timer: its delay, and the round of the loop in which it was set. */
  datatype Timer = Timer(delay: nat, round: nat)

  datatype Live = NoConn | Handed(sock: Sock, round: nat)

  datatype Phase =
    | Dispatching(active: set<Sock>)                     // channels of ours in activeChannels_ still to be handled
    | Handling(sock: Sock, onError: bool, onWrite: bool) // in handleEvent of our channel, callbacks still to make
    | Functors

  datatype State = State(
    phase: Phase,
    round: nat,
    batch: seq<Fn>,          // functors of the current batch still to run
    pending: seq<Fn>,        // appendFunctors_
    timers: seq<Timer>,
    connect: bool,           // connect_
    state: ConnState,
    channel: Channel,
    retryDelay: nat,         // retryDelayMs_
    started: bool,
    stopped: bool,
    live: Live,              // the connection made from the last socket handed over, until it ends
    broken: bool,
    made: nat,               // history: sockets opened
    closed: set<Sock>,       // history: sockets closed by the connector
    handed: set<Sock>,       // history: sockets handed to newConnectionCallback_
    delays: seq<nat>         // history: delays scheduled since construction or restart
  )

  const Fresh: State := State(Functors, 0, [], [], [], false, Disconnected, None, INIT_RETRY_DELAY_MS,
                              false, false, NoConn, false, 0, {}, {}, [])

  datatype Event =
    | StartHere(res: Outcome) | StartElsewhere | Stop
    | PollRound(ready: bool) | BeginHandle(onError: bool, onWrite: bool)
    | HandleError(removable: bool) | HandleWrite(failed: bool, removable: bool) | EndHandle
    | TimerFires(res: Outcome)
    | PeerClose(restart: bool, res: Outcome) | ForceClose
    | BeginFunctors | RunFunctor(restart: bool, res: Outcome, removable: bool)

  function Min(a: nat, b: nat): nat { if a < b then a else b }

  // ---------------------------------------------------------------- the source's functions

  /** retry. */
  function Retry(s: State, sock: Sock): State {
    var s := s.(closed := s.closed + {sock}, state := Disconnected);
    if s.connect then
      s.(timers := s.timers + [Timer(s.retryDelay, s.round)], delays := s.delays + [s.retryDelay],
         retryDelay := Min(s.retryDelay * 2, MAX_RETRY_DELAY_MS))
    else s
  }

  /** connecting, which asserts that there is no channel. */
  function ConnectingTo(s: State, sock: Sock): State {
    if s.channel.None? then s.(state := Connecting, channel := Chan(sock, true)) else s.(broken := true)
  }

  /** connect. */
  function Connect(s: State, res: Outcome): State {
    var sock := s.made;
    var s := s.(made := s.made + 1);
    match res
    case InProgress => ConnectingTo(s, sock)
    case Retriable => Retry(s, sock)
    case Fatal => s.(closed := s.closed + {sock})
  }

  /** startInLoop, which asserts that the state is kDisconnected. */
  function StartNow(s: State, res: Outcome): State {
    if !s.state.Disconnected? then s.(broken := true)
    else if s.connect then Connect(s, res)
    else s
  }

  /** removeAndResetChannel, which needs a channel that the poller can remove; its destruction is left to a functor. */
  function RemoveAndReset(s: State, removable: bool): State {
    if s.channel.Chan? && s.channel.registered && removable then
      s.(channel := Chan(s.channel.sock, false), pending := s.pending + [ResetChannel])
    else s.(broken := true)
  }

  /** The common end of handleError, stopInLoop and a failed handleWrite. */
  function GiveUpAttempt(s: State, removable: bool): State
    requires s.channel.Chan?
  {
    Retry(RemoveAndReset(s, removable), s.channel.sock)
  }

  /** handleWrite; `failed` stands for a socket error or a self-connection. */
  function OnWrite(s: State, failed: bool, removable: bool): State {
    if s.state.Connecting? && s.channel.Chan? then
      if failed then GiveUpAttempt(s, removable)
      else
        var sock := s.channel.sock;
        var s := RemoveAndReset(s, removable).(state := Connected);
        if s.connect then s.(handed := s.handed + {sock}, live := Handed(sock, s.round))
        else s.(closed := s.closed + {sock})
    else if s.state.Disconnected? then s
    else s.(broken := true)
  }

  /** handleError; stopInLoop does the same. */
  function OnError(s: State, removable: bool): State {
    if s.state.Connecting? then (if s.channel.Chan? then GiveUpAttempt(s, removable) else s.(broken := true)) else s
  }

  /** restart, called when the handed-over connection has ended. */
  function Restart(s: State, res: Outcome): State {
    StartNow(s.(state := Disconnected, retryDelay := INIT_RETRY_DELAY_MS, delays := [], connect := true), res)
  }

  /** TcpClient::removeConnection: the connection is gone, and the client may want another. */
  function Ended(s: State, restart: bool, res: Outcome): State {
    var s := s.(live := NoConn);
    if restart then Restart(s, res) else s
  }

  /** resetChannel: destroys the channel, whose destructor asserts that its handler is not running. */
  function DoReset(s: State): State {
    if s.phase.Functors? then s.(channel := None) else s.(broken := true)
  }

  function RunFn(s: State, f: Fn, restart: bool, res: Outcome, removable: bool): State {
    match f
    case ResetChannel => DoReset(s)
    case StopInLoop => OnError(s, removable)
    case StartInLoop => StartNow(s, res)
    case CloseConn(sock) => if s.live.Handed? && s.live.sock == sock then Ended(s, restart, res) else s
  }

  // ---------------------------------------------------------------- the steps

  predicate Enabled(s: State, e: Event) {
    !s.broken &&
    match e
    case StartHere(_) => !s.started && !s.phase.Handling?
    case StartElsewhere => !s.started
    case Stop => s.started && !s.stopped
    case PollRound(ready) => s.phase.Functors? && s.batch == [] && (ready ==> s.channel.Chan? && s.channel.registered)
    case BeginHandle(_, _) => s.phase.Dispatching? && s.phase.active != {}
    case HandleError(_) => s.phase.Handling? && s.phase.onError
    case HandleWrite(_, _) => s.phase.Handling? && !s.phase.onError && s.phase.onWrite
    case EndHandle => s.phase.Handling? && !s.phase.onError && !s.phase.onWrite
    // a retry timer is not dispatched in the round that set it
    case TimerFires(_) => s.phase.Dispatching? && s.timers != [] && s.timers[0].round < s.round
    // poll cannot report the new connection's own channel in the round that made it
    case PeerClose(restart, _) =>
      s.phase.Dispatching? && s.live.Handed? && s.live.round < s.round && (restart ==> !s.stopped)
    case ForceClose => s.live.Handed?
    case BeginFunctors => s.phase.Dispatching? && s.phase.active == {}
    // a client that has been stopped does not restart
    case RunFunctor(restart, _, _) => s.phase.Functors? && s.batch != [] && (restart ==> !s.stopped)
  }

  function Step(s: State, e: Event): State
    requires Enabled(s, e)
  {
    match e
    case StartHere(res) => StartNow(s.(started := true, connect := true), res)
    case StartElsewhere => s.(started := true, connect := true, pending := s.pending + [StartInLoop])
    case Stop => s.(stopped := true, connect := false, pending := s.pending + [StopInLoop])
    case PollRound(ready) =>
      s.(phase := Dispatching(if ready then {s.channel.sock} else {}), round := s.round + 1)
    case BeginHandle(onError, onWrite) =>
      // handleEvent runs on the pointer in activeChannels_: it must still be our channel
      if s.channel.Chan? && s.channel.sock in s.phase.active then
        s.(phase := Handling(s.channel.sock, onError, onWrite))
      else s.(broken := true)
    case HandleError(removable) => OnError(s.(phase := Handling(s.phase.sock, false, s.phase.onWrite)), removable)
    case HandleWrite(failed, removable) => OnWrite(s.(phase := Handling(s.phase.sock, false, false)), failed, removable)
    case EndHandle =>
      // handleEvent ends by lowering the channel's flag
      if s.channel.Chan? && s.channel.sock == s.phase.sock then s.(phase := Dispatching({})) else s.(broken := true)
    case TimerFires(res) => StartNow(s.(timers := s.timers[1..]), res)
    case PeerClose(restart, res) => Ended(s, restart, res)
    case ForceClose => s.(pending := s.pending + [CloseConn(s.live.sock)])
    case BeginFunctors => s.(phase := Functors, batch := s.pending, pending := [])
    case RunFunctor(restart, res, removable) =>
      RunFn(s.(batch := s.batch[1..]), s.batch[0], restart, res, removable)
  }

  datatype Run = Start | Then(past: Run, last: Event)

  ghost predicate Legal(r: Run) {
    match r
    case Start => true
    case Then(past, e) => Legal(past) && Enabled(Now(past), e)
  }

  ghost function Now(r: Run): State {
    match r
    case Start => Fresh
    case Then(past, e) => if Enabled(Now(past), e) then Step(Now(past), e) else Now(past)
  }

  // ---------------------------------------------------------------- invariants

  /** The delay of the k-th retry: 500 ms doubled k times, at most 30 s. */
  ghost function Pow2(k: nat): nat { if k == 0 then 1 else 2 * Pow2(k - 1) }
  ghost function Backoff(k: nat): nat { Min(INIT_RETRY_DELAY_MS * Pow2(k), MAX_RETRY_DELAY_MS) }

  ghost predicate BacksOff(s: State) {
    && s.retryDelay == Backoff(|s.delays|)
    && (forall k :: 0 <= k < |s.delays| ==> s.delays[k] == Backoff(k))
  }

  /** The socket of the attempt in flight, or -1. */
  ghost function InFlight(s: State): int {
    if s.state.Connecting? && s.channel.Chan? then s.channel.sock else -1
  }

  /** Every socket opened is exactly one of closed, handed over, or the attempt in flight. */
  ghost predicate Books(made: nat, closed: set<Sock>, handed: set<Sock>, inFlight: int) {
    forall x: Sock ::
      && (x < made <==> x in closed || x in handed || x == inFlight)
      && !(x in closed && x in handed) && !(x == inFlight && (x in closed || x in handed))
  }

  ghost predicate LedgerAgrees(s: State) {
    Books(s.made, s.closed, s.handed, InFlight(s))
  }

  /** No second f comes after a first. */
  ghost predicate AtMostOne(q: seq<Fn>, f: Fn) {
    forall i, j :: 0 <= i < j < |q| ==> !(q[i] == f && q[j] == f)
  }

  ghost predicate Once(s: State, f: Fn) {
    AtMostOne(s.batch, f) && AtMostOne(s.pending, f) && !(f in s.batch && f in s.pending)
  }

  /** The attempt in flight is the channel the poller has; a functor is to destroy one that it no longer has. */
  ghost predicate ChannelFits(s: State) {
    && (s.state.Connecting? <==> s.channel.Chan? && s.channel.registered)
    && (ResetChannel in s.batch || ResetChannel in s.pending <==> s.channel.Chan? && !s.channel.registered)
    && Once(s, ResetChannel)
    && (!s.phase.Functors? ==> s.batch == [])
  }

  /** The channels poll reported, and the one being handled, are still there. */
  ghost predicate SnapshotAlive(s: State) {
    && (s.phase.Dispatching? && s.phase.active != {} ==>
          s.channel.Chan? && s.channel.registered && s.phase.active == {s.channel.sock})
    && (s.phase.Handling? ==> s.channel.Chan? && s.channel.sock == s.phase.sock)
    && (s.phase.Handling? && s.phase.onWrite ==> !s.state.Connected?)
  }

  ghost predicate StartIn(s: State) { StartInLoop in s.batch || StartInLoop in s.pending }

  /** A start or retry is outstanding at most once, and only while nothing is in flight or handed over. */
  ghost predicate OneStart(s: State) {
    && |s.timers| <= 1
    && (s.timers != [] ==> s.state.Disconnected? && s.live.NoConn? && !StartIn(s) && s.timers[0].round <= s.round)
    && (StartIn(s) ==> s.state.Disconnected? && s.live.NoConn? && s.channel.None?)
    && Once(s, StartInLoop)
    && (StopInLoop in s.batch || StopInLoop in s.pending ==> s.stopped)
    && (s.live.Handed? ==> s.state.Connected? && s.live.sock in s.handed && s.live.round <= s.round)
    && (!s.started ==> s.state.Disconnected? && s.channel.None? && s.timers == [] && !StartIn(s) && s.live.NoConn?)
    && (s.stopped ==> s.started && !s.connect)
  }

  /** The destruction of a dead channel comes before the retry timer and before the end of the connection. */
  ghost predicate ResetComesFirst(s: State) {
    s.channel.Chan? && !s.channel.registered ==>
      && (s.timers != [] ==> s.timers[0].round == s.round && (s.phase.Functors? ==> ResetChannel in s.batch))
      && (s.live.Handed? ==> s.live.round == s.round && (s.phase.Functors? ==> ResetChannel in s.batch))
      && (s.live.Handed? ==> CloseAfterReset(s.batch, s.live.sock) && CloseAfterReset(s.pending, s.live.sock))
  }

  ghost predicate CloseAfterReset(q: seq<Fn>, sock: Sock) {
    forall i, j :: 0 <= i < j < |q| ==> !(q[i] == CloseConn(sock) && q[j] == ResetChannel)
  }

  /** No close functor names a socket that has not been handed over. */
  ghost predicate ClosesAreOld(s: State) {
    forall f :: (f in s.batch || f in s.pending) && f.CloseConn? ==> f.sock in s.handed
  }

  ghost predicate Inv(s: State) {
    !s.broken && BacksOff(s) && LedgerAgrees(s) && ChannelFits(s) && SnapshotAlive(s) && OneStart(s)
    && ResetComesFirst(s) && ClosesAreOld(s)
  }

  /** The step takes the channel of an attempt in flight from the poller. */
  predicate Removes(s: State, e: Event) {
    s.state.Connecting? &&
    (e.HandleError? || e.HandleWrite? || (e.RunFunctor? && s.batch != [] && s.batch[0] == StopInLoop))
  }

  /** And the poller cannot do it. */
  predicate Blocked(s: State, e: Event) { Removes(s, e) && !e.removable }

  lemma BackoffDoubles(k: nat)
    ensures Min(Backoff(k) * 2, MAX_RETRY_DELAY_MS) == Backoff(k + 1)
  {
    assert Pow2(k + 1) == 2 * Pow2(k);
  }

  /** Nothing is outstanding, in flight or handed over, and no dead channel waits for its destruction. */
  ghost predicate AtRest(s: State) {
    s.started && s.state.Disconnected? && s.channel.None? && s.timers == [] && !StartIn(s) && s.live.NoConn?
  }

  lemma ConnectKeeps(s: State, res: Outcome)
    requires Inv(s) && AtRest(s)
    ensures Inv(Connect(s, res))
  {
    BackoffDoubles(|s.delays|);
  }

  lemma StartKeeps(s: State, res: Outcome)
    requires Inv(s) && AtRest(s)
    ensures Inv(StartNow(s, res))
  {
    if s.connect { ConnectKeeps(s, res); }
  }

  lemma RestartKeeps(s: State, res: Outcome)
    requires Inv(s) && !s.stopped && AtRest(s.(state := Disconnected))
    ensures Inv(Restart(s, res))
  {
    assert Backoff(0) == INIT_RETRY_DELAY_MS;
    StartKeeps(s.(state := Disconnected, retryDelay := INIT_RETRY_DELAY_MS, delays := [], connect := true), res);
  }

  lemma GiveUpKeeps(s: State)
    requires Inv(s) && s.state.Connecting? && (s.phase.Handling? || (s.phase.Functors? && s.stopped))
    ensures Inv(GiveUpAttempt(s, true))
  {
    BackoffDoubles(|s.delays|);
  }

  lemma SuccessKeeps(s: State)
    requires Inv(s) && s.state.Connecting? && s.phase.Handling? && !s.phase.onWrite
    ensures Inv(OnWrite(s, false, true))
  {
  }

  /** Running a batch in order keeps the invariant; the head may be gone before its function runs. */
  lemma PopKeeps(s: State)
    requires Inv(s) && s.phase.Functors? && s.batch != [] && s.batch[0] != ResetChannel
    ensures Inv(s.(batch := s.batch[1..]))
  {
    var q := s.batch[1..];
    assert forall f :: f in s.batch <==> f == s.batch[0] || f in q;
  }

  lemma PopResetKeeps(s: State)
    requires Inv(s) && s.phase.Functors? && s.batch != [] && s.batch[0] == ResetChannel
    ensures Inv(DoReset(s.(batch := s.batch[1..])))
  {
    var q := s.batch[1..];
    assert forall f :: f in s.batch <==> f == s.batch[0] || f in q;
    assert ResetChannel !in q by { assert forall i :: 0 <= i < |q| ==> q[i] == s.batch[i + 1]; }
  }

  lemma EndedKeeps(s: State, restart: bool, res: Outcome)
    requires Inv(s) && s.live.Handed? && s.channel.None? && (restart ==> !s.stopped)
    ensures Inv(Ended(s, restart, res))
  {
    if restart {
      RestartKeeps(s.(live := NoConn), res);
    }
  }

  /** A forced close runs after the destruction of the dead channel, because it was queued after it. */
  lemma CloseFindsNoChannel(s: State)
    requires Inv(s) && s.phase.Functors? && s.batch != [] && s.live.Handed? && s.batch[0] == CloseConn(s.live.sock)
    ensures s.channel.None?
  {
  }

  lemma RunStopKeeps(s: State)
    requires Inv(s) && s.phase.Functors? && s.batch != [] && s.batch[0] == StopInLoop
    ensures Inv(OnError(s.(batch := s.batch[1..]), true))
  {
    PopKeeps(s);
    if s.state.Connecting? { GiveUpKeeps(s.(batch := s.batch[1..])); }
  }

  lemma RunStartKeeps(s: State, res: Outcome)
    requires Inv(s) && s.phase.Functors? && s.batch != [] && s.batch[0] == StartInLoop
    ensures Inv(StartNow(s.(batch := s.batch[1..]), res))
  {
    PopKeeps(s);
    var q := s.batch[1..];
    assert StartInLoop !in q by { assert forall i :: 0 <= i < |q| ==> q[i] == s.batch[i + 1]; }
    StartKeeps(s.(batch := q), res);
  }

  lemma RunCloseKeeps(s: State, sock: Sock, restart: bool, res: Outcome)
    requires Inv(s) && s.phase.Functors? && s.batch != [] && s.batch[0] == CloseConn(sock) && (restart ==> !s.stopped)
    ensures Inv(RunFn(s.(batch := s.batch[1..]), CloseConn(sock), restart, res, true))
  {
    PopKeeps(s);
    if s.live.Handed? && s.live.sock == sock {
      CloseFindsNoChannel(s);
      EndedKeeps(s.(batch := s.batch[1..]), restart, res);
    }
  }

  lemma RunFunctorKeeps(s: State, restart: bool, res: Outcome, removable: bool)
    requires Inv(s) && Enabled(s, RunFunctor(restart, res, removable))
    requires !Blocked(s, RunFunctor(restart, res, removable))
    ensures Inv(Step(s, RunFunctor(restart, res, removable)))
  {
    match s.batch[0]
    case ResetChannel => PopResetKeeps(s);
    case StopInLoop => RunStopKeeps(s);
    case StartInLoop => RunStartKeeps(s, res);
    case CloseConn(sock) => RunCloseKeeps(s, sock, restart, res);
  }

  lemma StartHereKeeps(s: State, res: Outcome)
    requires Inv(s) && Enabled(s, StartHere(res))
    ensures Inv(Step(s, StartHere(res)))
  {
    StartKeeps(s.(started := true, connect := true), res);
  }

  lemma AppendKeeps(s: State, e: Event)
    requires Inv(s) && Enabled(s, e) && (e.StartElsewhere? || e.Stop? || e.ForceClose?)
    ensures Inv(Step(s, e))
  {
  }

  lemma PhaseKeeps(s: State, e: Event)
    requires Inv(s) && Enabled(s, e) && (e.PollRound? || e.BeginHandle? || e.EndHandle? || e.BeginFunctors?)
    ensures Inv(Step(s, e))
  {
  }

  lemma HandlerKeeps(s: State, e: Event)
    requires Inv(s) && Enabled(s, e) && (e.HandleError? || e.HandleWrite?) && !Blocked(s, e)
    ensures Inv(Step(s, e))
  {
    if s.state.Connecting? {
      var s' := s.(phase := Handling(s.phase.sock, false, if e.HandleError? then s.phase.onWrite else false));
      if e.HandleError? || e.failed { GiveUpKeeps(s'); } else { SuccessKeeps(s'); }
    }
  }

  lemma StepKeepsInv(s: State, e: Event)
    requires Inv(s) && Enabled(s, e) && !Blocked(s, e)
    ensures Inv(Step(s, e))
  {
    match e
    case StartHere(res) => StartHereKeeps(s, res);
    case TimerFires(res) => StartKeeps(s.(timers := s.timers[1..]), res);
    case PeerClose(restart, res) => EndedKeeps(s, restart, res);
    case RunFunctor(restart, res, removable) => RunFunctorKeeps(s, restart, res, removable);
    case HandleError(_) => HandlerKeeps(s, e);
    case HandleWrite(_, _) => HandlerKeeps(s, e);
    case StartElsewhere => AppendKeeps(s, e);
    case Stop => AppendKeeps(s, e);
    case ForceClose => AppendKeeps(s, e);
    case _ => PhaseKeeps(s, e);
  }

  lemma BlockedBreaks(s: State, e: Event)
    requires Enabled(s, e) && Blocked(s, e)
    ensures Step(s, e).broken
  {
  }

  /** Every reachable state satisfies the invariant, as long as the poller removes what it is asked to. */
  lemma {:induction false} RunKeepsInv(r: Run)
    requires Legal(r) && !Now(r).broken
    ensures Inv(Now(r))
  {
    match r
    case Start => assert Backoff(0) == INIT_RETRY_DELAY_MS;
    case Then(past, e) =>
      RunKeepsInv(past);
      if Blocked(Now(past), e) { BlockedBreaks(Now(past), e); }
      StepKeepsInv(Now(past), e);
  }

  // ---------------------------------------------------------------- main results

  /**
   * Exactly what can break. In every run no assertion of the connector fails, no channel is missing when it is needed,
   * none is destroyed in the dispatch phase or while its handler runs, and every channel poll reported is still there
   * when its handler is called: a run is broken exactly if its last step asked the poller for a removal that the poller
   * cannot do.
   */
  lemma BrokenIff(r: Run)
    requires Legal(r)
    ensures Now(r).broken <==> r.Then? && Blocked(Now(r.past), r.last)
  {
    match r
    case Start =>
    case Then(past, e) =>
      RunKeepsInv(past);
      if Blocked(Now(past), e) { BlockedBreaks(Now(past), e); } else { StepKeepsInv(Now(past), e); }
  }

  /** A channel is destroyed only by a functor, in the functor phase, after the poller has let go of it. */
  lemma DestroyedOnlyByFunctor(r: Run, e: Event)
    requires Legal(r) && Enabled(Now(r), e) && Now(r).channel.Chan? && Step(Now(r), e).channel.None?
    ensures e.RunFunctor? && Now(r).phase.Functors? && Now(r).batch[0] == ResetChannel && !Now(r).channel.registered
  {
    RunKeepsInv(r);
  }

  /** The ledger: every socket opened is exactly one of closed, handed over, or the attempt that is in flight. */
  lemma EverySocketIsAccountedFor(r: Run, x: Sock)
    requires Legal(r) && !Now(r).broken
    ensures var s := Now(r);
            var flying := s.channel.Chan? && s.channel.registered && s.channel.sock == x;
            && (x < s.made <==> x in s.closed || x in s.handed || flying)
            && !(x in s.closed && x in s.handed) && !(flying && (x in s.closed || x in s.handed))
            && (s.state.Connecting? <==> s.channel.Chan? && s.channel.registered)
  {
    RunKeepsInv(r);
    assert Books(Now(r).made, Now(r).closed, Now(r).handed, InFlight(Now(r)));
  }

  /** At most one start or retry is outstanding, and then nothing is in flight or handed over. */
  lemma OneStartOutstanding(r: Run)
    requires Legal(r) && !Now(r).broken
    ensures |Now(r).timers| <= 1
    ensures Now(r).timers != [] || StartIn(Now(r)) ==> Now(r).state.Disconnected? && Now(r).live.NoConn?
    ensures !(Now(r).timers != [] && StartIn(Now(r)))
  {
    RunKeepsInv(r);
  }

  /** The k-th retry since construction or restart is scheduled after min(500 * 2^k, 30000) milliseconds. */
  lemma RetriesBackOff(r: Run, k: nat)
    requires Legal(r) && !Now(r).broken && k < |Now(r).delays|
    ensures Now(r).delays[k] == Min(500 * Pow2(k), 30000)
  {
    RunKeepsInv(r);
  }

  /** A failed attempt has its socket closed and one retry scheduled, at the delay its turn calls for. */
  lemma FailureIsRetried(r: Run, e: Event)
    requires Legal(r) && Enabled(Now(r), e) && Now(r).state.Connecting? && Now(r).connect
    requires e == HandleError(true) || e == HandleWrite(true, true)
    ensures var t := Step(Now(r), e);
            |t.timers| == 1 && t.timers[0] == Timer(Min(500 * Pow2(|Now(r).delays|), 30000), Now(r).round)
            && Now(r).channel.Chan? && Now(r).channel.sock in t.closed
  {
    RunKeepsInv(r);
  }

  /**
   * The assumption on retry timers is needed, and this is how much of it: if an outstanding timer fired now and
   * connect(2) went on, the assertion that there is no channel would fail exactly if the last channel has still to be
   * destroyed; and that is so only in the round that set the timer.
   */
  lemma EarlyTimerBreaksIff(r: Run)
    requires Legal(r) && !Now(r).broken && Now(r).timers != [] && Now(r).connect
    ensures StartNow(Now(r).(timers := Now(r).timers[1..]), InProgress).broken <==> Now(r).channel.Chan?
    ensures Now(r).channel.Chan? ==> Now(r).timers[0].round == Now(r).round
  {
    RunKeepsInv(r);
  }

  // ---------------------------------------------------------------- what the steps that try or give up come to

  /** One attempt has been made, with a new socket, and this is what became of it. */
  ghost predicate Attempted(t: State, res: Outcome, sock: Sock, delay: nat) {
    && !t.broken && t.made == sock + 1 && t.channel == (if res.InProgress? then Chan(sock, true) else None)
    && t.state == (if res.InProgress? then Connecting else Disconnected)
    && (sock in t.closed <==> !res.InProgress?)
    && t.timers == (if res.Retriable? then [Timer(delay, t.round)] else [])
  }

  /** An attempt has been given up: its socket is closed, its channel dead, and a retry set if one is wanted. */
  ghost predicate GaveUpOn(t: State, sock: Sock, delay: nat) {
    && !t.broken && t.state.Disconnected? && sock in t.closed && t.channel == Chan(sock, false)
    && t.timers == (if t.connect then [Timer(delay, t.round)] else [])
  }

  lemma AtRestAttempts(s: State, res: Outcome)
    requires Inv(s) && AtRest(s) && s.connect
    ensures Attempted(StartNow(s, res), res, s.made, s.retryDelay)
  {
  }

  lemma StartAttempts(s: State, res: Outcome)
    requires Inv(s) && Enabled(s, StartHere(res))
    ensures Attempted(Step(s, StartHere(res)), res, s.made, s.retryDelay)
  {
    AtRestAttempts(s.(started := true, connect := true), res);
  }

  lemma TimerAttempts(s: State, res: Outcome)
    requires Inv(s) && Enabled(s, TimerFires(res)) && s.connect
    ensures Attempted(Step(s, TimerFires(res)), res, s.made, s.retryDelay)
  {
    AtRestAttempts(s.(timers := s.timers[1..]), res);
  }

  lemma TimerIsAlone(s: State, res: Outcome)
    requires Reachable(s) && Enabled(s, TimerFires(res))
    ensures s.state.Disconnected? && (s.connect ==> s.channel.None?) && |s.timers| == 1
    ensures s.connect ==> Attempted(Step(s, TimerFires(res)), res, s.made, s.retryDelay)
  {
    ReachableIsInv(s);
    if s.connect { TimerAttempts(s, res); }
  }

  lemma RestartAttempts(s: State, res: Outcome)
    requires Inv(s) && Enabled(s, PeerClose(true, res))
    ensures Attempted(Step(s, PeerClose(true, res)), res, s.made, INIT_RETRY_DELAY_MS)
  {
    assert Backoff(0) == INIT_RETRY_DELAY_MS;
    AtRestAttempts(s.(live := NoConn, state := Disconnected, retryDelay := INIT_RETRY_DELAY_MS, delays := [],
                      connect := true), res);
  }

  lemma QueuedStartAttempts(s: State, res: Outcome)
    requires Inv(s) && s.phase.Functors? && s.batch != [] && s.batch[0] == StartInLoop && s.connect
    ensures Attempted(StartNow(s.(batch := s.batch[1..]), res), res, s.made, s.retryDelay)
  {
    PopKeeps(s);
    var q := s.batch[1..];
    assert StartInLoop !in q by { assert forall i :: 0 <= i < |q| ==> q[i] == s.batch[i + 1]; }
    AtRestAttempts(s.(batch := q), res);
  }

  /**
   * A forced close that is run ends the connection it was queued for: if the client wants another, one attempt is made
   * with the delay at its start; if not, or if the connection has ended already, no attempt is made.
   */
  lemma CloseRestarts(s: State, sock: Sock, restart: bool, res: Outcome, removable: bool)
    requires Reachable(s) && Enabled(s, RunFunctor(restart, res, removable)) && s.batch[0] == CloseConn(sock)
    ensures s.live.Handed? && s.live.sock == sock ==> s.channel.None?
    ensures var t := Step(s, RunFunctor(restart, res, removable));
            && t == RunFn(s.(batch := s.batch[1..]), CloseConn(sock), restart, res, true)
            && !t.broken
            && if s.live.Handed? && s.live.sock == sock then
                 t.live.NoConn? && if restart then t.connect && Attempted(t, res, s.made, INIT_RETRY_DELAY_MS)
                                   else t == s.(batch := s.batch[1..], live := NoConn)
               else t == s.(batch := s.batch[1..])
  {
    ReachableIsInv(s);
    if s.live.Handed? && s.live.sock == sock {
      CloseFindsNoChannel(s);
      PopKeeps(s);
      if restart { EndedAttempts(s.(batch := s.batch[1..]), res); }
    }
    RunCloseKeeps(s, sock, restart, res);
  }

  lemma EndedAttempts(s: State, res: Outcome)
    requires Inv(s) && s.live.Handed? && s.channel.None?
    ensures var t := Ended(s, true, res);
            t.live.NoConn? && t.connect && Attempted(t, res, s.made, INIT_RETRY_DELAY_MS)
  {
  }

  lemma AttemptGivenUp(s: State)
    requires !s.broken && OneStart(s) && ChannelFits(s) && s.state.Connecting?
    ensures GaveUpOn(GiveUpAttempt(s, true), s.channel.sock, s.retryDelay)
  {
  }

  lemma GoOn(r: Run, e: Event) returns (next: Run)
    requires Legal(r) && Enabled(Now(r), e)
    ensures next == Then(r, e) && Legal(next) && Now(next) == Step(Now(r), e)
  {
    next := Then(r, e);
  }

  /** There is such a round: the first attempt fails in its handler, and the old channel is still there. */
  lemma EarlyTimerCanBreak() returns (r: Run)
    ensures Legal(r) && !Now(r).broken && Now(r).timers != [] && Now(r).connect
    ensures StartNow(Now(r).(timers := Now(r).timers[1..]), InProgress).broken
  {
    r := GoOn(Start, StartHere(InProgress));
    r := GoOn(r, PollRound(true));
    r := GoOn(r, BeginHandle(true, false));
    r := GoOn(r, HandleError(true));
  }

  ghost predicate Reaches(r: Run, s: State) { Legal(r) && Now(r) == s }

  ghost predicate Reachable(s: State) { exists r: Run :: Reaches(r, s) }

  lemma FreshIsReachable()
    ensures Reachable(Fresh)
  {
    assert Reaches(Start, Fresh);
  }

  lemma ReachableGoesOn(s: State, e: Event)
    requires Reachable(s) && Enabled(s, e)
    ensures Reachable(Step(s, e))
  {
    var r :| Reaches(r, s);
    assert Reaches(Then(r, e), Step(s, e));
  }

  lemma ReachableIsInv(s: State)
    requires Reachable(s) && !s.broken
    ensures Inv(s)
  {
    var r :| Reaches(r, s);
    RunKeepsInv(r);
  }

  // ---------------------------------------------------------------- rounds go on

  /** An attempt is in flight, and nobody has asked to stop. */
  ghost predicate InTheAir(s: State) { !s.broken && s.state.Connecting? && s.connect && !s.stopped }

  lemma WhileInTheAir(s: State)
    requires Inv(s) && InTheAir(s) && s.phase.Functors? && s.batch != []
    ensures s.batch[0].CloseConn? && s.live.NoConn?
    ensures forall res :: Step(s, RunFunctor(false, res, true)) == s.(batch := s.batch[1..])
  {
    assert s.batch[0] in s.batch;
  }

  /** The rest of a batch leaves an attempt in flight alone. */
  lemma {:induction false} FinishBatch(before: Run) returns (r: Run)
    requires Legal(before) && InTheAir(Now(before)) && Now(before).phase.Functors?
    ensures Legal(r) && Now(r) == Now(before).(batch := [])
    decreases |Now(before).batch|
  {
    r := before;
    if Now(r).batch != [] {
      RunKeepsInv(r);
      WhileInTheAir(Now(r));
      r := GoOn(r, RunFunctor(false, InProgress, true));
      r := FinishBatch(r);
    }
  }

  /**
   * An attempt in flight can always succeed: when the loop is between two polls, the next may report the channel
   * writable, its handler is called, and the socket is handed over as a live connection.
   */
  lemma AttemptCanSucceed(before: Run) returns (r: Run)
    requires Legal(before) && InTheAir(Now(before)) && Now(before).phase.Functors?
    ensures var sock := Now(before).channel;
            Legal(r) && sock.Chan? && Now(r).state.Connected? && Now(r).live == Handed(sock.sock, Now(r).round)
            && sock.sock in Now(r).handed && Now(r).phase.Dispatching?
  {
    RunKeepsInv(before);
    r := FinishBatch(before);
    r := GoOn(r, PollRound(true));
    r := GoOn(r, BeginHandle(false, true));
    r := GoOn(r, HandleWrite(false, true));
    RunKeepsInv(r);
    r := GoOn(r, EndHandle);
  }

  /** A round in which poll reports an error as well: both callbacks are made, the second to no effect. */
  lemma ErrorThenWrite(before: Run) returns (r: Run)
    requires Legal(before) && InTheAir(Now(before)) && Now(before).phase.Functors?
    ensures Legal(r) && Now(r).phase == Dispatching({}) && Now(before).channel.Chan?
    ensures GaveUpOn(Now(r), Now(before).channel.sock, Now(before).retryDelay)
  {
    RunKeepsInv(before);
    r := FinishBatch(before);
    r := GoOn(r, PollRound(true));
    r := GoOn(r, BeginHandle(true, true));
    RunKeepsInv(r);
    AttemptGivenUp(Now(r).(phase := Handling(Now(r).phase.sock, false, true)));
    r := GoOn(r, HandleError(true));
    r := GoOn(r, HandleWrite(true, true));
    r := GoOn(r, EndHandle);
  }

  /** A retry is set and wanted. */
  ghost predicate Waiting(s: State) { !s.broken && s.timers != [] && s.connect }

  lemma WhileWaiting(s: State)
    requires Inv(s) && Waiting(s) && s.phase.Functors? && s.batch != []
    ensures s.batch[0].CloseConn? || s.batch[0] == ResetChannel
    ensures var t := Step(s, RunFunctor(false, InProgress, true));
            t == s.(batch := s.batch[1..], channel := if s.batch[0] == ResetChannel then None else s.channel)
  {
    assert s.batch[0] in s.batch;
  }

  lemma {:induction false} FinishBatchWaiting(before: Run) returns (r: Run)
    requires Legal(before) && Waiting(Now(before)) && Now(before).phase.Functors?
    ensures Legal(r) && Now(r) == Now(before).(batch := [], channel := Now(r).channel)
    decreases |Now(before).batch|
  {
    r := before;
    if Now(r).batch != [] {
      RunKeepsInv(r);
      WhileWaiting(Now(r));
      r := GoOn(r, RunFunctor(false, InProgress, true));
      r := FinishBatchWaiting(r);
    }
  }

  /** A retry that is set can always be made in the next round: by then the dead channel has been destroyed. */
  lemma RetryCanFire(before: Run, res: Outcome) returns (r: Run)
    requires Legal(before) && Waiting(Now(before)) && Now(before).phase.Functors?
    ensures Legal(r) && Attempted(Now(r), res, Now(before).made, Now(before).retryDelay)
    ensures Now(r).round == Now(before).round + 1
  {
    r := FinishBatchWaiting(before);
    RunKeepsInv(r);
    r := GoOn(r, PollRound(false));
    RunKeepsInv(r);
    TimerAttempts(Now(r), res);
    r := GoOn(r, TimerFires(res));
  }

  /** A connection is live, and nobody has asked to stop. */
  ghost predicate Living(s: State) { !s.broken && s.live.Handed? && !s.stopped }

  lemma WhileLiving(s: State)
    requires Inv(s) && Living(s) && s.phase.Functors? && s.batch != []
    ensures s.batch[0].CloseConn? || s.batch[0] == ResetChannel
    ensures s.batch[0] != CloseConn(s.live.sock) ==>
              Step(s, RunFunctor(false, InProgress, true))
              == s.(batch := s.batch[1..], channel := if s.batch[0] == ResetChannel then None else s.channel)
  {
    assert s.batch[0] in s.batch;
  }

  /**
   * When a connection is live, its end can always lead to the next attempt: by a forced close that is queued, or by the
   * peer's close, which the next poll may report. The delay is at its start again.
   */
  lemma {:induction false} EndCanRestart(before: Run, res: Outcome) returns (r: Run)
    requires Legal(before) && Living(Now(before)) && Now(before).phase.Functors?
    ensures Legal(r) && Attempted(Now(r), res, Now(before).made, 500) && Now(r).live.NoConn? && Now(r).connect
    decreases |Now(before).batch|
  {
    var s := Now(before);
    RunKeepsInv(before);
    if s.batch == [] {
      r := GoOn(before, PollRound(false));
      RunKeepsInv(r);
      RestartAttempts(Now(r), res);
      r := GoOn(r, PeerClose(true, res));
    } else {
      WhileLiving(s);
      if s.batch[0] == CloseConn(s.live.sock) {
        assert Reaches(before, s);
        CloseRestarts(s, s.live.sock, true, res, true);
        r := GoOn(before, RunFunctor(true, res, true));
      } else {
        r := GoOn(before, RunFunctor(false, InProgress, true));
        r := EndCanRestart(r, res);
      }
    }
  }
}
