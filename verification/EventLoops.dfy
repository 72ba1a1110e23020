/**
 * The EventLoop object itself: its fields, updated in place by the I/O thread, with the steps of foreign threads
 * interleaved at every access to shared state. `run` records the steps; Valid() says that the fields are what
 * that run of the protocol leads to, so every theorem about runs holds of every object.
 */
module EventLoops {
  import opened EventFd
  import opened LoopProtocol

  /** The events a foreign thread, or a callback of the I/O thread, may cause. */
  predicate Foreign(e: Event) { e.Push? || e.QuitSet? || e.Wake? }
  predicate InsideCallback(e: Event) { Foreign(e) || e.IoPush? || e.IoWake? || e.IoQuit? }

  /** `r` is `r0` followed by events of callbacks and foreign threads only. */
  ghost predicate Extends(r0: Run, r: Run, foreignOnly: bool) {
    r == r0 || (r.Then? && (if foreignOnly then Foreign(r.last) else InsideCallback(r.last))
                && Extends(r0, r.past, foreignOnly))
  }

  lemma {:induction false} ExtendsTransitive(a: Run, b: Run, c: Run, first: bool, second: bool)
    requires Extends(a, b, first) && Extends(b, c, second)
    ensures Extends(a, c, first && second)
  {
    if b == c {
      Weaken(a, b, first, second);
    } else {
      ExtendsTransitive(a, b, c.past, first, second);
    }
  }

  lemma {:induction false} Weaken(a: Run, b: Run, first: bool, second: bool)
    requires Extends(a, b, first)
    ensures Extends(a, b, first && second)
  {
    if a != b {
      Weaken(a, b.past, first, second);
    }
  }

  /** What callbacks and foreign threads leave alone: the I/O thread's place, the calls made; the queue only grows. */
  ghost predicate Undisturbed(s: State, t: State) {
    && t.pc == s.pc && t.executed == s.executed && t.calling == s.calling
    && s.pending <= t.pending && s.pushed <= t.pushed && (s.quit ==> t.quit)
    && (s.counter > 0 ==> t.counter > 0)
  }

  lemma StepLeavesAlone(s: State, e: Event)
    requires Enabled(s, e) && InsideCallback(e)
    ensures Undisturbed(s, Step(s, e))
    ensures Foreign(e) ==> Step(s, e).ioOwes == s.ioOwes
  {
  }

  lemma UndisturbedTransitive(s: State, t: State, u: State)
    requires Undisturbed(s, t) && Undisturbed(t, u)
    ensures Undisturbed(s, u)
  {
    assert s.pending <= t.pending <= u.pending && s.pushed <= t.pushed <= u.pushed;
  }

  lemma {:induction false} ExtendsLeavesAlone(r0: Run, r: Run, foreignOnly: bool)
    requires Extends(r0, r, foreignOnly)
    ensures Undisturbed(Now(r0), Now(r))
    ensures foreignOnly ==> Now(r).ioOwes == Now(r0).ioOwes
    ensures Legal(r) ==> Legal(r0)
  {
    if r != r0 {
      ExtendsLeavesAlone(r0, r.past, foreignOnly);
      if Enabled(Now(r.past), r.last) {
        StepLeavesAlone(Now(r.past), r.last);
        UndisturbedTransitive(Now(r0), Now(r.past), Now(r));
      }
    }
  }

  /** The eventfd writes of a run. */
  ghost function Writes(r: Run): nat {
    match r
    case Start(_) => 0
    case Then(past, e) => Writes(past) + (if e.Wake? || e.IoWake? then 1 else 0)
  }

  lemma {:induction false} WritesAccumulate(r0: Run, r: Run)
    requires Extends(r0, r, false)
    ensures Unread(r) - Unread(r0) == Writes(r) - Writes(r0) >= 0
  {
    if r != r0 {
      WritesAccumulate(r0, r.past);
    }
  }

  class EventLoop {
    var looping: bool
    var quit: bool
    var appendFunctors: seq<Functor>
    var callingPendingFunctors: bool
    var wakeCounter: nat            // the kernel's counter behind wakeupFd_
    var activeChannels: seq<Chan>
    var called: seq<Functor>        // the functors called, in order
    var pushers: set<Tid>           // where the foreign threads are: between push and write,
    var quitters: set<Tid>          // between `quit_ = true` and write
    ghost var run: Run

    ghost predicate Valid()
      reads this
    {
      var s := Now(run);
      && FromFresh(run)
      && s.quit == quit && s.pending == appendFunctors && s.calling == callingPendingFunctors
      && s.executed == called && s.counter == wakeCounter && s.pushers == pushers && s.quitters == quitters
      && (looping <==> !s.pc.Outside?)
    }

    constructor ()
      ensures Valid() && !looping && run == Start(Fresh)
    {
      looping, quit, appendFunctors, callingPendingFunctors := false, false, [], false;
      wakeCounter, activeChannels, called, pushers, quitters := 0, [], [], {}, {};
      run := Start(Fresh);
    }

    /** What the protocol's theorems say of the object: while it is in poll with work queued, a wakeup is coming. */
    lemma WorkIsSignalled()
      requires Valid() && Now(run).pc.Polling? && !Now(run).silent && appendFunctors != []
      ensures wakeCounter > 0 || pushers != {}
    {
      NoWakeupIsLost(run);
    }

    /** After quit() it is not blocked in poll, unless the eventfd write of the quitting thread is still to come. */
    lemma QuitIsSignalled()
      requires Valid() && Now(run).pc.Polling? && quit
      ensures wakeCounter > 0 || quitters != {}
    {
      QuitNeverStuck(run);
    }

    /** The eventfd is readable exactly if it has been written since the wakeup channel was last handled. */
    lemma ReadableIfWritten()
      requires Valid()
      ensures wakeCounter > 0 <==> Unread(run) > 0
    {
      ReadableIffWritten(run);
    }

    /** Everything ever pushed has been called, or is left of the batch, or is queued; in order. */
    lemma NothingIsDropped()
      requires Valid()
      ensures Pushes(run) == called + Unstarted(Now(run)) + appendFunctors
    {
      QueueIsFifoLog(run);
      StateIsHistory(run);
    }

    // ---------------------------------------------------------------- foreign threads

    /** The critical section of appendFuncInLoop, on a foreign thread. */
    method PushFromForeign(t: Tid, cb: Functor)
      requires Valid() && t !in pushers && t !in quitters
      modifies this
      ensures Valid() && run == Then(old(run), Push(t, cb)) && activeChannels == old(activeChannels)
      ensures appendFunctors == old(appendFunctors) + [cb] && t in pushers && wakeCounter == old(wakeCounter)
    {
      appendFunctors := appendFunctors + [cb];
      pushers := pushers + {t};
      run := Then(run, Push(t, cb));
    }

    /** The first half of quit(), on a foreign thread. */
    method QuitFromForeign(t: Tid)
      requires Valid() && t !in pushers && t !in quitters
      modifies this
      ensures Valid() && run == Then(old(run), QuitSet(t)) && activeChannels == old(activeChannels)
      ensures quit && t in quitters && wakeCounter == old(wakeCounter)
    {
      quit := true;
      quitters := quitters + {t};
      run := Then(run, QuitSet(t));
    }

    /** The eventfd write that ends both appendFuncInLoop and quit() on a foreign thread. */
    method WakeFromForeign(t: Tid)
      requires Valid() && (t in pushers || t in quitters)
      modifies this
      ensures Valid() && run == Then(old(run), Wake(t)) && activeChannels == old(activeChannels)
      ensures wakeCounter > 0 && t !in pushers && t !in quitters
    {
      wakeCounter := WeakFd(wakeCounter);
      pushers, quitters := pushers - {t}, quitters - {t};
      run := Then(run, Wake(t));
    }

    /** Any number of steps of any foreign threads. */
    method Interfere()
      requires Valid()
      modifies this
      ensures Valid() && Extends(old(run), run, true) && activeChannels == old(activeChannels)
    {
      var n: nat := *;
      while n > 0
        invariant Valid() && Extends(old(run), run, true) && activeChannels == old(activeChannels)
      {
        var t: Tid, cb: Functor, quitting: bool := *, *, *;
        ghost var before := run;
        if t in pushers || t in quitters {
          WakeFromForeign(t);
        } else if quitting {
          QuitFromForeign(t);
        } else {
          PushFromForeign(t, cb);
        }
        assert Extends(before, run, true);
        ExtendsTransitive(old(run), before, run, true, true);
        n := n - 1;
      }
    }

    // ---------------------------------------------------------------- the I/O thread

    /** appendFuncInLoop on the I/O thread, from inside a callback. */
    method AppendFuncInLoop(cb: Functor)
      requires Valid() && InCallback(Now(run).pc) && !Now(run).ioOwes
      modifies this
      ensures Valid() && Extends(old(run), run, false) && !Now(run).ioOwes && activeChannels == old(activeChannels)
      ensures old(Now(run)).pending + [cb] <= Now(run).pending
      ensures callingPendingFunctors ==> wakeCounter > 0
    {
      PushHere(cb);
      ghost var pushed := run;
      assert Extends(old(run), run, false);
      Interfere();
      ExtendsTransitive(old(run), pushed, run, false, true);
      ExtendsLeavesAlone(pushed, run, true);
      if callingPendingFunctors {
        wakeCounter := WeakFd(wakeCounter);
        run := Then(run, IoWake);
      }
    }

    /** The critical section of appendFuncInLoop, on the I/O thread. */
    method PushHere(cb: Functor)
      requires Valid() && InCallback(Now(run).pc) && !Now(run).ioOwes
      modifies this`appendFunctors, this`run
      ensures Valid() && run == Then(old(run), IoPush(cb)) && Now(run).ioOwes == callingPendingFunctors
    {
      appendFunctors := appendFunctors + [cb];
      run := Then(run, IoPush(cb));
    }

    /** quit() on the I/O thread: no eventfd write. */
    method Quit()
      requires Valid() && InCallback(Now(run).pc) && !Now(run).ioOwes
      modifies this
      ensures Valid() && run == Then(old(run), IoQuit) && quit && activeChannels == old(activeChannels)
    {
      quit := true;
      run := Then(run, IoQuit);
    }

    /** The body of a callback or functor: any finite number of appends and quits, with interference. */
    method RunCallback()
      requires Valid() && InCallback(Now(run).pc) && !Now(run).ioOwes
      modifies this
      ensures Valid() && Extends(old(run), run, false) && !Now(run).ioOwes && activeChannels == old(activeChannels)
    {
      var n: nat := *;
      while n > 0
        invariant Valid() && Extends(old(run), run, false) && !Now(run).ioOwes
        invariant InCallback(Now(run).pc) && activeChannels == old(activeChannels)
      {
        var cb: Functor, what: nat := *, *;
        ghost var before := run;
        if what == 0 {
          AppendFuncInLoop(cb);
        } else if what == 1 {
          Quit();
        } else {
          Interfere();
          Weaken(before, run, true, false);
          ExtendsLeavesAlone(before, run, true);
        }
        assert Extends(before, run, false);
        ExtendsLeavesAlone(before, run, false);
        ExtendsTransitive(old(run), before, run, false, false);
        n := n - 1;
      }
    }

    /** poll: some channels are ready, the wakeup channel exactly when its counter is not zero; or poll fails. */
    method Poll()
      requires Valid() && Now(run).pc.Polling?
      modifies this
      ensures Valid() && Now(run).pc == Dispatching(activeChannels, false) && !Now(run).ioOwes
      ensures run.Then? && run.last == PollReturn(activeChannels)
      ensures old(called) == called && old(Now(run)).pushed <= Now(run).pushed
      ensures old(wakeCounter) > 0 ==> Wakeup in activeChannels || activeChannels == []
    {
      activeChannels := [];
      Interfere();
      ExtendsLeavesAlone(old(run), run, true);
      RunKeepsInv(old(run));
      activeChannels := KernelPoll();
      run := Then(run, PollReturn(activeChannels));
    }

    /** The kernel's part of poll. */
    method KernelPoll() returns (ready: seq<Chan>)
      ensures NoRepeats(ready) && (ready != [] ==> (Wakeup in ready <==> wakeCounter > 0))
    {
      ready := *;
      if !NoRepeats(ready) || (ready != [] && !(Wakeup in ready <==> wakeCounter > 0)) {
        ready := if wakeCounter > 0 then [Wakeup] else [];
      }
    }

    /** Channel::handleEvent on the next active channel; the wakeup channel's callback reads the eventfd. */
    method HandleEvent(c: Chan)
      requires Valid() && Enabled(Now(run), HandlerBegin) && Now(run).pc.active[0] == c && !Now(run).ioOwes
      modifies this
      ensures Valid() && !Now(run).ioOwes && activeChannels == old(activeChannels)
      ensures Now(run).pc == Dispatching(old(Now(run)).pc.active[1..], false)
      ensures old(called) == called && old(Now(run)).pushed <= Now(run).pushed
      ensures c == Wakeup ==> (wakeCounter > 0 <==> Writes(run) > Writes(old(run)))
      ensures c != Wakeup && old(wakeCounter) > 0 ==> wakeCounter > 0
    {
      ghost var before := Now(run);
      if c == Wakeup {
        wakeCounter := HandleRead(wakeCounter);
      }
      run := Then(run, HandlerBegin);
      ghost var began := run;
      RunHandler(c);
      ExtendsLeavesAlone(began, run, false);
      assert Now(run).pc == Dispatching(before.pc.active, true);
      assert Enabled(Now(run), HandlerEnd) && Origin(run) == Fresh;
      WritesAccumulate(began, run);
      run := Then(run, HandlerEnd);
      ReadableIffWritten(run);
    }

    /** What happens while a channel is handled: only the wakeup channel's callback is known to do nothing more. */
    method RunHandler(c: Chan)
      requires Valid() && InCallback(Now(run).pc) && !Now(run).ioOwes
      modifies this
      ensures Valid() && Extends(old(run), run, false) && !Now(run).ioOwes && activeChannels == old(activeChannels)
    {
      if c == Wakeup {
        Interfere();
        Weaken(old(run), run, true, false);
        ExtendsLeavesAlone(old(run), run, true);
      } else {
        RunCallback();
      }
    }

    /** The dispatch loop over activeChannels_. */
    method Dispatch()
      requires Valid() && Now(run).pc == Dispatching(activeChannels, false) && !Now(run).ioOwes
      modifies this
      ensures Served(run) == Reported(run)
      ensures Valid() && Now(run).pc == Dispatching([], false) && !Now(run).ioOwes
      ensures old(called) == called && old(Now(run)).pushed <= Now(run).pushed
    {
      var i := 0;
      ghost var start, before := Now(run), called;
      while i < |activeChannels|
        invariant Valid() && 0 <= i <= |activeChannels| && activeChannels == old(activeChannels)
        invariant Now(run).pc == Dispatching(activeChannels[i..], false) && !Now(run).ioOwes
        invariant before == called && start.pushed <= Now(run).pushed
      {
        HandleEvent(activeChannels[i]);
        assert activeChannels[i..][1..] == activeChannels[i + 1..];
        i := i + 1;
      }
      DispatchIsExact(run);
    }

    /** One iteration of the loop over the swapped-out functors. */
    method CallFunctor(elem: Functor)
      requires Valid() && Enabled(Now(run), FunctorBegin) && Now(run).pc.rest[0] == elem && !Now(run).ioOwes
      modifies this
      ensures Valid() && !Now(run).ioOwes
      ensures Now(run).pc == InBatch(old(Now(run)).pc.rest[1..], false)
      ensures called == old(called) + [elem]
    {
      called := called + [elem];
      run := Then(run, FunctorBegin);
      ghost var began := run;
      RunCallback();
      ExtendsLeavesAlone(began, run, false);
      run := Then(run, FunctorEnd);
    }

    /** The critical section of doAppendFunctors: the queue is swapped against an empty vector. */
    method TakeBatch() returns (functors: seq<Functor>)
      requires Valid() && Now(run).pc == Dispatching([], false) && !Now(run).ioOwes
      modifies this
      ensures Valid() && Now(run).pc == InBatch(functors, false) && !Now(run).ioOwes && callingPendingFunctors
      ensures called + functors == Now(run).pushed && old(Now(run)).pushed <= Now(run).pushed
    {
      Interfere();
      ExtendsLeavesAlone(old(run), run, true);
      LogBetweenBatches(run);
      callingPendingFunctors := true;
      functors := appendFunctors;
      appendFunctors := [];
      run := Then(run, LoopProtocol.Swap);
    }

    /** The loop of doAppendFunctors over the batch. */
    method CallBatch(functors: seq<Functor>)
      requires Valid() && Now(run).pc == InBatch(functors, false) && !Now(run).ioOwes
      modifies this
      ensures Valid() && Now(run).pc == InBatch([], false) && !Now(run).ioOwes
      ensures called == old(called) + functors
    {
      ghost var before := called;
      var i := 0;
      while i < |functors|
        invariant Valid() && 0 <= i <= |functors|
        invariant Now(run).pc == InBatch(functors[i..], false) && !Now(run).ioOwes
        invariant called == before + functors[..i]
      {
        CallFunctor(functors[i]);
        assert functors[i..][1..] == functors[i + 1..];
        assert functors[..i] + [functors[i]] == functors[..i + 1];
        i := i + 1;
      }
      assert functors[..i] == functors;
    }

    /** doAppendFunctors: everything queued at the swap is called, in order; what is appended meanwhile waits. */
    method DoAppendFunctors()
      requires Valid() && Now(run).pc == Dispatching([], false) && !Now(run).ioOwes
      modifies this
      ensures Valid() && Now(run).pc == Test && !Now(run).ioOwes && !callingPendingFunctors
      ensures old(Now(run)).pushed <= called
      ensures Now(run).pushed == called + appendFunctors
    {
      var functors := TakeBatch();
      CallBatch(functors);
      callingPendingFunctors := false;
      run := Then(run, EndBatch);
      LogBetweenBatches(run);
    }

    /**
     * One round of the loop: every functor pushed before the round has been called by its end, in push order,
     * and at that point what is left in the queue is exactly what was pushed since.
     */
    method Round()
      requires Valid() && Now(run).pc.Polling?
      modifies this
      ensures Valid() && Now(run).pc == Test && !Now(run).ioOwes
      ensures old(Now(run)).pushed <= called
      ensures Now(run).pushed == called + appendFunctors
    {
      Poll();
      Dispatch();
      DoAppendFunctors();
    }

    /** loop(), cut off after `rounds` rounds. `finished` says that it returned, which needs a quit(). */
    method Loop(rounds: nat) returns (finished: bool)
      requires Valid() && !looping && !Now(run).ioOwes
      modifies this
      ensures Valid() && finished == !looping
      ensures finished ==> Now(run).pc.Outside? && quit
      ensures !finished ==> old(Now(run)).pushed <= called || rounds == 0
    {
      looping, quit := true, false;
      run := Then(run, EnterLoop);
      ghost var round := 0;
      var n := rounds;
      ghost var atStart := Now(run).pushed;
      while !quit && n > 0
        invariant Valid() && Now(run).pc == Test && !Now(run).ioOwes
        invariant n <= rounds && (n < rounds ==> atStart <= called)
        invariant atStart <= Now(run).pushed
      {
        run := Then(run, TestQuit);
        ghost var before := run;
        Round();
        RunKeepsInv(run);
        ghost var ended := run;
        Interfere();
        ExtendsLeavesAlone(ended, run, true);
        n := n - 1;
      }
      if quit {
        run := Then(run, TestQuit);
        looping := false;
      }
      finished := !looping;
    }
  }
}
