/**
 * The task queue of one EventLoop, its wakeup eventfd and `quit_` (zdq_event_loop.cpp), as the steps
 * of one I/O thread interleaved with the steps of any number of foreign threads.
 * Each step is one access to shared state; a callback is any finite number of steps of the I/O thread.
 */
module LoopProtocol {
  import opened EventFd

  type Functor = nat
  type Tid = nat

  datatype Chan = Wakeup | Other(id: nat)

  /** Where the I/O thread is. `busy` says that the callback of the first element of `rest` is running. */
  datatype Pc =
    | Outside                                      // loop() is not running
    | Test                                         // at `while(!quit_)`
    | Polling                                      // inside poll
    | Dispatching(active: seq<Chan>, handling: bool)
    | InBatch(rest: seq<Functor>, busy: bool)      // in doAppendFunctors, after the swap

  datatype State = State(
    pc: Pc,
    quit: bool,
    pending: seq<Functor>,   // appendFunctors_
    calling: bool,           // callingPendingFunctors_
    counter: nat,            // wakeupFd_
    ioOwes: bool,            // the I/O thread is between its push and its eventfd write
    pushers: set<Tid>,       // foreign threads between push and eventfd write
    quitters: set<Tid>,      // foreign threads between `quit_ = true` and eventfd write
    pushed: seq<Functor>,    // history: every functor ever pushed
    executed: seq<Functor>,  // history: every functor whose call has begun
    silent: bool             // history: the I/O thread pushed outside loop(), not yet swapped out
  )

  datatype Event =
    | EnterLoop | TestQuit | PollReturn(ready: seq<Chan>)
    | HandlerBegin | HandlerEnd | Swap | FunctorBegin | FunctorEnd | EndBatch
    | IoPush(g: Functor) | IoWake | IoQuit
    | Push(t: Tid, f: Functor) | QuitSet(t: Tid) | Wake(t: Tid)

  predicate InCallback(pc: Pc) {
    (pc.Dispatching? && pc.handling) || (pc.InBatch? && pc.busy)
  }

  predicate NoRepeats(cs: seq<Chan>) {
    forall i, j :: 0 <= i < j < |cs| ==> cs[i] != cs[j]
  }

  predicate Enabled(s: State, e: Event) {
    match e
    case EnterLoop => s.pc.Outside? && !s.ioOwes
    case TestQuit => s.pc.Test?
    // poll is level triggered: the wakeup channel is reported exactly when its counter is not zero;
    // a poll that is interrupted reports nothing
    case PollReturn(ready) =>
      s.pc.Polling? && NoRepeats(ready) && (ready != [] ==> (Wakeup in ready <==> s.counter > 0))
    case HandlerBegin => s.pc.Dispatching? && !s.pc.handling && s.pc.active != []
    case HandlerEnd => s.pc.Dispatching? && s.pc.handling && s.pc.active != []
    case Swap => s.pc.Dispatching? && !s.pc.handling && s.pc.active == []
    case FunctorBegin => s.pc.InBatch? && !s.pc.busy && s.pc.rest != []
    case FunctorEnd => s.pc.InBatch? && s.pc.busy && s.pc.rest != [] && !s.ioOwes
    case EndBatch => s.pc.InBatch? && !s.pc.busy && s.pc.rest == []
    case IoPush(_) => (InCallback(s.pc) || s.pc.Outside?) && !s.ioOwes
    case IoWake => s.ioOwes
    case IoQuit => (InCallback(s.pc) || s.pc.Outside?) && !s.ioOwes
    case Push(t, _) => t !in s.pushers && t !in s.quitters
    case QuitSet(t) => t !in s.pushers && t !in s.quitters
    case Wake(t) => t in s.pushers || t in s.quitters
  }

  function Step(s: State, e: Event): State
    requires Enabled(s, e)
  {
    match e
    case EnterLoop => s.(pc := Test, quit := false)
    case TestQuit => s.(pc := if s.quit then Outside else Polling)
    case PollReturn(ready) => s.(pc := Dispatching(ready, false))
    case HandlerBegin =>
      s.(pc := Dispatching(s.pc.active, true),
         counter := if s.pc.active[0] == Wakeup then HandleRead(s.counter) else s.counter)
    case HandlerEnd => s.(pc := Dispatching(s.pc.active[1..], false))
    case Swap => s.(pc := InBatch(s.pending, false), pending := [], calling := true, silent := false)
    case FunctorBegin => s.(pc := InBatch(s.pc.rest, true), executed := s.executed + [s.pc.rest[0]])
    case FunctorEnd => s.(pc := InBatch(s.pc.rest[1..], false))
    case EndBatch => s.(pc := Test, calling := false)
    case IoPush(f) =>
      s.(pending := s.pending + [f], pushed := s.pushed + [f], ioOwes := s.calling,
         silent := s.silent || s.pc.Outside?)
    case IoWake => s.(counter := WeakFd(s.counter), ioOwes := false)
    case IoQuit => s.(quit := true)
    case Push(t, f) =>
      s.(pending := s.pending + [f], pushed := s.pushed + [f], pushers := s.pushers + {t})
    case QuitSet(t) => s.(quit := true, quitters := s.quitters + {t})
    case Wake(t) =>
      s.(counter := WeakFd(s.counter), pushers := s.pushers - {t}, quitters := s.quitters - {t})
  }

  const Fresh: State := State(Outside, false, [], false, 0, false, {}, {}, [], [], false)

  /** A run: a state to start from and the events since, newest last. */
  datatype Run = Start(from: State) | Then(past: Run, last: Event)

  ghost predicate Legal(r: Run) {
    match r
    case Start(_) => true
    case Then(past, e) => Legal(past) && Enabled(Now(past), e)
  }

  /** The state a run has reached; an event that is not enabled changes nothing, and makes the run illegal. */
  ghost function Now(r: Run): State {
    match r
    case Start(s) => s
    case Then(past, e) => if Enabled(Now(past), e) then Step(Now(past), e) else Now(past)
  }

  ghost function Origin(r: Run): State {
    match r
    case Start(s) => s
    case Then(past, _) => Origin(past)
  }

  ghost predicate FromFresh(r: Run) { Legal(r) && Origin(r) == Fresh }

  // ---------------------------------------------------------------- invariants

  /** The part of the current batch whose calls have not begun. */
  ghost function Unstarted(s: State): seq<Functor> {
    if s.pc.InBatch? then (if s.pc.busy && s.pc.rest != [] then s.pc.rest[1..] else s.pc.rest) else []
  }

  ghost predicate Shape(s: State) {
    && (s.calling <==> s.pc.InBatch?)
    && (s.ioOwes ==> s.pc.InBatch? && s.pc.busy)
    && (InCallback(s.pc) ==> (if s.pc.InBatch? then s.pc.rest != [] else s.pc.active != []))
  }

  /** The queue is a FIFO log: nothing is lost, repeated or reordered. */
  ghost predicate LogAgrees(s: State) {
    s.pushed == s.executed + Unstarted(s) + s.pending
  }

  /** Someone has written, or is about to write, the wakeup eventfd. */
  ghost predicate WakeupComing(s: State) {
    s.counter > 0 || s.pushers != {} || s.ioOwes
  }

  ghost predicate NoLostWakeup(s: State) {
    s.pending != [] && !s.pc.Dispatching? ==> WakeupComing(s) || s.silent
  }

  ghost predicate QuitIsHeard(s: State) {
    s.pc.Polling? && s.quit ==> s.counter > 0 || s.quitters != {}
  }

  ghost predicate Inv(s: State) {
    Shape(s) && LogAgrees(s) && NoLostWakeup(s) && QuitIsHeard(s)
  }

  lemma Associative(a: seq<Functor>, b: seq<Functor>, c: seq<Functor>)
    ensures a + b + c == a + (b + c)
  {
  }

  lemma PushKeepsLog(s: State, e: Event)
    requires LogAgrees(s) && Enabled(s, e) && (e.IoPush? || e.Push?)
    ensures LogAgrees(Step(s, e))
  {
    Associative(s.executed + Unstarted(s), s.pending, [if e.IoPush? then e.g else e.f]);
  }

  lemma SwapKeepsLog(s: State)
    requires LogAgrees(s) && Enabled(s, Swap)
    ensures LogAgrees(Step(s, Swap))
  {
    var t := Step(s, Swap);
    assert Unstarted(s) == [] && s.executed + [] == s.executed;
    assert Unstarted(t) == s.pending && t.executed + s.pending + [] == t.executed + s.pending;
  }

  lemma FunctorBeginKeepsLog(s: State)
    requires LogAgrees(s) && Enabled(s, FunctorBegin)
    ensures LogAgrees(Step(s, FunctorBegin))
  {
    var first, rest := s.pc.rest[0], s.pc.rest[1..];
    assert [first] + rest == s.pc.rest;
    Associative(s.executed, [first], rest);
  }

  lemma StepKeepsLog(s: State, e: Event)
    requires Inv(s) && Enabled(s, e)
    ensures LogAgrees(Step(s, e))
  {
    match e
    case FunctorBegin => FunctorBeginKeepsLog(s);
    case IoPush(_) => PushKeepsLog(s, e);
    case Push(_, _) => PushKeepsLog(s, e);
    case Swap => SwapKeepsLog(s);
    case _ => assert Unstarted(Step(s, e)) == Unstarted(s);
  }

  lemma StepKeepsInv(s: State, e: Event)
    requires Inv(s) && Enabled(s, e)
    ensures Inv(Step(s, e))
  {
    StepKeepsLog(s, e);
  }

  /** Every reachable state satisfies the invariant. */
  lemma {:induction false} RunKeepsInv(r: Run)
    requires Legal(r) && Inv(Origin(r))
    ensures Inv(Now(r))
  {
    match r
    case Start(_) =>
    case Then(past, e) =>
      RunKeepsInv(past);
      StepKeepsInv(Now(past), e);
  }

  // ---------------------------------------------------------------- what the events alone say

  /** The functors pushed, by any thread, in order. */
  ghost function Pushes(r: Run): seq<Functor> {
    match r
    case Start(_) => []
    case Then(past, Push(_, f)) => Pushes(past) + [f]
    case Then(past, IoPush(g)) => Pushes(past) + [g]
    case Then(past, _) => Pushes(past)
  }

  /** The next handler is the wakeup channel's. */
  ghost predicate WakeupIsNext(s: State) {
    s.pc.Dispatching? && s.pc.active != [] && s.pc.active[0] == Wakeup
  }

  /** The eventfd writes since the wakeup channel was last handled. */
  ghost function Unread(r: Run): nat {
    match r
    case Start(_) => 0
    case Then(past, Wake(_)) => Unread(past) + 1
    case Then(past, IoWake) => Unread(past) + 1
    case Then(past, HandlerBegin) => if WakeupIsNext(Now(past)) then 0 else Unread(past)
    case Then(past, _) => Unread(past)
  }

  /** The foreign threads that have pushed, or called quit(), and have not written since. */
  ghost function Pushing(r: Run): set<Tid> {
    match r
    case Start(_) => {}
    case Then(past, Push(t, _)) => Pushing(past) + {t}
    case Then(past, Wake(t)) => Pushing(past) - {t}
    case Then(past, _) => Pushing(past)
  }

  ghost function Quitting(r: Run): set<Tid> {
    match r
    case Start(_) => {}
    case Then(past, QuitSet(t)) => Quitting(past) + {t}
    case Then(past, Wake(t)) => Quitting(past) - {t}
    case Then(past, _) => Quitting(past)
  }

  /** quit() has been called since loop() was last entered. */
  ghost predicate QuitCalled(r: Run) {
    match r
    case Start(_) => false
    case Then(past, e) => e.QuitSet? || e.IoQuit? || (QuitCalled(past) && !e.EnterLoop?)
  }

  /** The I/O thread has pushed outside loop() since the last swap. */
  ghost predicate PushedSilently(r: Run) {
    match r
    case Start(_) => false
    case Then(past, e) => (e.IoPush? && Now(past).pc.Outside?) || (PushedSilently(past) && !e.Swap?)
  }

  ghost predicate Remembers(s: State, r: Run) {
    && s.pushed == Pushes(r) && s.counter == Min(Unread(r), COUNTER_MAX) && s.pushers == Pushing(r)
    && s.quitters == Quitting(r) && s.quit == QuitCalled(r) && s.silent == PushedSilently(r)
  }

  /**
   * The state is what the events alone say: the functors pushed, the eventfd counter as the number of writes since the
   * wakeup channel was last handled, the threads that have still to write, and the flag.
   */
  lemma {:induction false} StateIsHistory(r: Run)
    requires FromFresh(r)
    ensures Remembers(Now(r), r)
  {
    match r
    case Start(_) =>
    case Then(past, e) =>
      StateIsHistory(past);
      StepRemembers(past, e);
  }

  lemma StepRemembers(past: Run, e: Event)
    requires Enabled(Now(past), e) && Remembers(Now(past), past)
    ensures Remembers(Step(Now(past), e), Then(past, e))
  {
    OneMoreWrite(Unread(past));
  }

  /**
   * The wakeup is consumed: the eventfd is readable exactly if somebody has written it since the wakeup channel was
   * last handled. So a loop with nothing to do comes to rest.
   */
  lemma ReadableIffWritten(r: Run)
    requires FromFresh(r)
    ensures Now(r).counter > 0 <==> Unread(r) > 0
  {
    StateIsHistory(r);
  }

  /** What poll reported last, and the channels handled since. */
  ghost function Reported(r: Run): seq<Chan> {
    match r
    case Start(_) => []
    case Then(_, PollReturn(ready)) => ready
    case Then(past, _) => Reported(past)
  }

  ghost function Served(r: Run): seq<Chan> {
    match r
    case Start(_) => []
    case Then(_, PollReturn(_)) => []
    case Then(past, HandlerBegin) =>
      if Now(past).pc.Dispatching? && Now(past).pc.active != [] then Served(past) + [Now(past).pc.active[0]]
      else Served(past)
    case Then(past, _) => Served(past)
  }

  ghost function Unserved(pc: Pc): seq<Chan> {
    if !pc.Dispatching? then [] else if pc.handling && pc.active != [] then pc.active[1..] else pc.active
  }

  /**
   * Every channel that poll reports is handled, once and in order, before the next batch is taken: those handled since
   * and those still to be make up the report, and at the swap it has been worked off.
   */
  lemma {:induction false} DispatchIsExact(r: Run)
    requires FromFresh(r)
    ensures Now(r).pc.Dispatching? || Now(r).pc.InBatch? ==> Served(r) + Unserved(Now(r).pc) == Reported(r)
    ensures Enabled(Now(r), Swap) ==> Served(r) == Reported(r)
  {
    match r
    case Start(_) =>
    case Then(past, e) =>
      DispatchIsExact(past);
      RunKeepsInv(past);
      DispatchStep(past, e);
  }

  lemma DispatchStep(past: Run, e: Event)
    requires Enabled(Now(past), e) && Shape(Now(past))
    requires Now(past).pc.Dispatching? || Now(past).pc.InBatch? ==>
               Served(past) + Unserved(Now(past).pc) == Reported(past)
    ensures var r, t := Then(past, e), Step(Now(past), e);
            && (t.pc.Dispatching? || t.pc.InBatch? ==> Served(r) + Unserved(t.pc) == Reported(r))
            && (Enabled(t, Swap) ==> Served(r) == Reported(r))
  {
    var s := Now(past);
    if e.HandlerBegin? {
      assert [s.pc.active[0]] + s.pc.active[1..] == s.pc.active;
      assert Served(past) + [s.pc.active[0]] + s.pc.active[1..] == Served(past) + s.pc.active;
    }
    assert Served(Then(past, e)) + [] == Served(Then(past, e));
  }

  // ---------------------------------------------------------------- no lost wakeup

  /**
   * No wakeup is lost: in every interleaving, while the I/O thread is in poll with functors queued, the eventfd is
   * readable or a foreign thread is between its push and its write; unless the I/O thread itself has pushed outside
   * loop() since the last swap.
   */
  lemma NoWakeupIsLost(r: Run)
    requires FromFresh(r) && !Now(r).silent && Now(r).pc.Polling? && Now(r).pending != []
    ensures Now(r).counter > 0 || Now(r).pushers != {}
  {
    RunKeepsInv(r);
  }

  lemma GoesOn(r: Run, e: Event)
    requires FromFresh(r) && Enabled(Now(r), e)
    ensures FromFresh(Then(r, e)) && Now(Then(r, e)) == Step(Now(r), e)
  {
  }

  /** From outside loop() to its first poll. */
  lemma ReachesPoll(r: Run)
    requires FromFresh(r) && Now(r).pc.Outside? && !Now(r).ioOwes
    ensures var r' := Then(Then(r, EnterLoop), TestQuit);
            FromFresh(r') && Now(r') == Now(r).(pc := Polling, quit := false)
  {
    GoesOn(r, EnterLoop);
    GoesOn(Then(r, EnterLoop), TestQuit);
  }

  /** A run outside loop() goes on with one append, and then loop() reaches its first poll. */
  function AppendThenLoop(before: Run, foreign: bool, t: Tid, f: Functor): Run {
    var append := if foreign then Then(Then(before, Push(t, f)), Wake(t)) else Then(before, IoPush(f));
    Then(Then(append, EnterLoop), TestQuit)
  }

  /**
   * The hypothesis about silent pushes is needed. After any run that is outside loop(), a functor appended before
   * loop() leaves the first poll readable exactly when a foreign thread appended it or the eventfd was readable
   * already: the I/O thread's own append is not signalled.
   */
  lemma AppendBeforeLoopWakesIff(before: Run, foreign: bool, t: Tid, f: Functor)
    requires FromFresh(before) && Now(before).pc.Outside? && t !in Now(before).pushers && t !in Now(before).quitters
    ensures var r := AppendThenLoop(before, foreign, t, f);
            FromFresh(r) && Now(r).pc.Polling? && Now(r).pending == Now(before).pending + [f] &&
            Now(r).pushers == Now(before).pushers &&
            (Now(r).counter > 0 <==> foreign || Now(before).counter > 0)
  {
    RunKeepsInv(before);
    var first := if foreign then Push(t, f) else IoPush(f);
    GoesOn(before, first);
    if foreign {
      GoesOn(Then(before, first), Wake(t));
      assert Now(before).pushers + {t} - {t} == Now(before).pushers;
      ReachesPoll(Then(Then(before, first), Wake(t)));
    } else {
      ReachesPoll(Then(before, first));
    }
  }

  /** A run outside loop() goes on with one quit(), and then loop() reaches its first poll. */
  function QuitThenLoop(before: Run, foreign: bool, t: Tid): Run {
    var quitting := if foreign then Then(Then(before, QuitSet(t)), Wake(t)) else Then(before, IoQuit);
    Then(Then(quitting, EnterLoop), TestQuit)
  }

  /** A quit() before loop() is lost, whoever calls it: loop() goes on to poll, with the flag down. */
  lemma QuitBeforeLoopIsLost(before: Run, foreign: bool, t: Tid)
    requires FromFresh(before) && Now(before).pc.Outside? && t !in Now(before).pushers && t !in Now(before).quitters
    ensures var r := QuitThenLoop(before, foreign, t);
            FromFresh(r) && Now(r).pc.Polling? && !Now(r).quit
  {
    RunKeepsInv(before);
    var first := if foreign then QuitSet(t) else IoQuit;
    GoesOn(before, first);
    if foreign {
      GoesOn(Then(before, first), Wake(t));
      ReachesPoll(Then(Then(before, first), Wake(t)));
    } else {
      ReachesPoll(Then(before, first));
    }
  }

  // ---------------------------------------------------------------- FIFO log and batches

  /** At every point of every run the pushes are the calls begun, then the unstarted batch, then the queue. */
  lemma QueueIsFifoLog(r: Run)
    requires FromFresh(r)
    ensures Now(r).pushed == Now(r).executed + Unstarted(Now(r)) + Now(r).pending
  {
    RunKeepsInv(r);
  }

  /** Between two batches the pushes are the calls begun and then the queue. */
  lemma LogBetweenBatches(r: Run)
    requires FromFresh(r) && !Now(r).pc.InBatch?
    ensures Now(r).pushed == Now(r).executed + Now(r).pending
  {
    QueueIsFifoLog(r);
    assert Now(r).executed + [] == Now(r).executed;
  }

  ghost function Count(r: Run, e: Event): nat {
    match r
    case Start(_) => 0
    case Then(past, last) => Count(past, e) + (if last == e then 1 else 0)
  }

  /**
   * A batch is the queue at its swap and nothing else: until the batch ends the calls begun and the calls still
   * to begin make up that queue, whatever functors are appended meanwhile. So a batch makes at most as many calls
   * as the queue was long, and it can end only when every one of them has been made.
   */
  lemma {:induction false} BatchIsQueueAtSwap(o: State, r: Run)
    requires Shape(o) && Enabled(o, Swap) && Legal(r) && Origin(r) == Step(o, Swap) && Count(r, EndBatch) == 0
    ensures Shape(Now(r)) && Now(r).pc.InBatch?
    ensures Now(r).executed + Unstarted(Now(r)) == o.executed + o.pending
    ensures Count(r, FunctorBegin) <= |o.pending|
    ensures |Now(r).executed| == |o.executed| + Count(r, FunctorBegin)
    ensures Enabled(Now(r), EndBatch) ==> Now(r).executed == o.executed + o.pending
  {
    match r
    case Start(_) =>
    case Then(past, e) =>
      BatchIsQueueAtSwap(o, past);
      StepWithinBatch(Now(past), e);
  }

  /** Within a batch a step begins the next call of it or leaves the calls alone. */
  lemma StepWithinBatch(s: State, e: Event)
    requires Shape(s) && s.pc.InBatch? && Enabled(s, e) && e != EndBatch
    ensures var t := Step(s, e);
            && Shape(t) && t.pc.InBatch? && t.executed + Unstarted(t) == s.executed + Unstarted(s)
            && |t.executed| == |s.executed| + B2N(e == FunctorBegin) && e != Swap
  {
    if e == FunctorBegin {
      assert s.executed + s.pc.rest == Step(s, e).executed + s.pc.rest[1..];
    }
  }

  ghost function B2N(b: bool): nat { if b then 1 else 0 }

  // ---------------------------------------------------------------- quit

  /** A callback-free measure of what is left of a round: phase first, then what the phase has still to do. */
  ghost function Phase(pc: Pc): nat {
    match pc
    case Outside => 0
    case Test => 1
    case InBatch(_, _) => 2
    case Dispatching(_, _) => 3
    case Polling => 4
  }

  ghost function Left(pc: Pc): nat {
    match pc
    case InBatch(rest, busy) => 2 * |rest| + (if busy then 0 else 1)
    case Dispatching(active, handling) => 2 * |active| + (if handling then 0 else 1)
    case _ => 0
  }

  /** The events by which the I/O thread itself gets on: all its own steps except those made inside a callback. */
  predicate Progress(e: Event) {
    e.TestQuit? || e.PollReturn? || e.HandlerBegin? || e.HandlerEnd? || e.Swap? || e.FunctorBegin?
    || e.FunctorEnd? || e.EndBatch?
  }

  /**
   * Once `quit_` is set while looping, every step of the I/O thread brings loop() closer to its end and no other
   * step takes it further away; `quit_` stays set.
   */
  lemma QuitProgress(s: State, e: Event)
    requires Shape(s) && s.quit && !s.pc.Outside? && Enabled(s, e)
    ensures var t := Step(s, e);
            t.quit &&
            (if Progress(e) then Phase(t.pc) < Phase(s.pc) || (Phase(t.pc) == Phase(s.pc) && Left(t.pc) < Left(s.pc))
             else t.pc == s.pc)
  {
  }

  /**
   * After quit() the loop is never blocked: some step of the I/O thread is enabled, and if it is waiting in poll
   * then the wakeup channel is readable or the thread that called quit() has still to write it.
   */
  lemma QuitNeverStuck(r: Run)
    requires FromFresh(r) && Now(r).quit && !Now(r).pc.Outside?
    ensures exists e :: Enabled(Now(r), e) && (Progress(e) || e == IoWake)
    ensures Now(r).pc.Polling? ==> Now(r).counter > 0 || Now(r).quitters != {}
  {
    RunKeepsInv(r);
    var s := Now(r);
    var e := if s.ioOwes then IoWake else match s.pc
      case Test => TestQuit
      case Polling => PollReturn(if s.counter > 0 then [Wakeup] else [])
      case Dispatching(active, handling) =>
        if active == [] then Swap else if handling then HandlerEnd else HandlerBegin
      case InBatch(rest, busy) =>
        if rest == [] then EndBatch else if busy then FunctorEnd else FunctorBegin
      case Outside => TestQuit;
    assert Enabled(s, e);
  }

  ghost function Polls(r: Run): nat {
    match r
    case Start(_) => 0
    case Then(past, last) => Polls(past) + (if last.PollReturn? then 1 else 0)
  }

  /** How a step after quit() moves the I/O thread through what is left of loop(). */
  lemma QuitStep(s: State, e: Event)
    requires Shape(s) && s.quit && Enabled(s, e) && e != EnterLoop
    ensures var t := Step(s, e);
            && Shape(t) && t.quit
            && B2N(e.PollReturn?) + B2N(t.pc.Polling?) == B2N(s.pc.Polling?)
            && B2N(e == Swap) + B2N(Phase(t.pc) >= 3) == B2N(Phase(s.pc) >= 3)
            && B2N(e == TestQuit) + B2N(!t.pc.Outside?) == B2N(!s.pc.Outside?)
  {
  }

  /**
   * quit() ends the loop: from any state inside loop() with `quit_` set, until loop() is entered again, poll
   * returns at most once more, at most one more batch is taken, and `quit_` is tested at most once more.
   */
  lemma {:induction false} QuitBoundsTheRun(r: Run)
    requires Legal(r) && Shape(Origin(r)) && Origin(r).quit && !Origin(r).pc.Outside? && Count(r, EnterLoop) == 0
    ensures Shape(Now(r)) && Now(r).quit
    ensures Polls(r) + B2N(Now(r).pc.Polling?) == B2N(Origin(r).pc.Polling?)
    ensures Count(r, Swap) + B2N(Phase(Now(r).pc) >= 3) == B2N(Phase(Origin(r).pc) >= 3)
    ensures Count(r, TestQuit) + B2N(!Now(r).pc.Outside?) == 1
  {
    match r
    case Start(_) =>
    case Then(past, e) =>
      QuitBoundsTheRun(past);
      QuitStep(Now(past), e);
  }

  ghost predicate NoFurtherQuit(r: Run) {
    match r
    case Start(_) => true
    case Then(past, e) => NoFurtherQuit(past) && !e.IoQuit? && !e.QuitSet?
  }

  /** Apart from quit() itself only the entry of loop() changes the flag, and only a test of it leaves loop(). */
  lemma FlagStep(s: State, e: Event)
    requires Shape(s) && Enabled(s, e) && !e.IoQuit? && !e.QuitSet?
    ensures Shape(Step(s, e))
    ensures e == EnterLoop ==> s.pc.Outside? && !Step(s, e).quit && !Step(s, e).pc.Outside?
    ensures e != EnterLoop ==> Step(s, e).quit == s.quit
    ensures e != EnterLoop && !s.quit && !s.pc.Outside? ==> !Step(s, e).pc.Outside?
  {
  }

  /**
   * Exactly when a quit() is effective. From a state in which quit() has been called, and until it is called again,
   * the flag is up exactly if loop() has not been entered since. If it has not, the next test of the flag leaves
   * loop(); if it has, loop() is never left.
   */
  lemma {:induction false} QuitEndsLoopIff(r: Run)
    requires Legal(r) && Shape(Origin(r)) && Origin(r).quit && NoFurtherQuit(r)
    ensures Shape(Now(r))
    ensures Now(r).quit <==> Count(r, EnterLoop) == 0
    ensures Enabled(Now(r), TestQuit) ==> (Step(Now(r), TestQuit).pc.Outside? <==> Count(r, EnterLoop) == 0)
    ensures Count(r, EnterLoop) > 0 ==> !Now(r).pc.Outside?
  {
    match r
    case Start(_) =>
    case Then(past, e) =>
      QuitEndsLoopIff(past);
      FlagStep(Now(past), e);
  }
}
