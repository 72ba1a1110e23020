/**
 * The ThreadPool object: its fields and the bodies of its critical sections, each run by the thread that holds the
 * mutex. Between two critical sections the other threads do whatever the protocol allows; `run` records all of it.
 */
module ThreadPools {
  import opened PoolProtocol

  class ThreadPool {
    const sizeQueue: nat
    var queue: seq<Task>            // b_queue_
    var isStart: bool
    var notFull: Cond
    var notEmpty: Cond
    var called: seq<Call>           // the tasks called, in order, and by whom
    ghost var run: Run

    ghost predicate Valid()
      reads this
    {
      var s := Now(run);
      && FromStart(run)
      && s.capacity == sizeQueue && s.queue == queue && s.started == isStart
      && s.notFull == notFull && s.notEmpty == notEmpty && s.calls == called
    }

    /** start(), up to the point where its `sizeThread` threads are about to enter runInThread. */
    constructor (sizeQueue: nat, sizeThread: nat)
      ensures Valid() && run == Start(Begun(sizeQueue, sizeThread)) && queue == [] && isStart
      ensures |Now(run).workers| == sizeThread && forall w :: 0 <= w < sizeThread ==> Now(run).workers[w] == AtTest
    {
      this.sizeQueue := sizeQueue;
      queue, isStart := [], true;
      notFull, notEmpty, called := Cond({}, {}), Cond({}, {}), [];
      run := Start(Begun(sizeQueue, sizeThread));
    }

    ghost method Record(e: Event)
      requires FromStart(run) && Enabled(Now(run), e)
      modifies this`run
      ensures run == Then(old(run), e) && FromStart(run) && Now(run) == Step(old(Now(run)), e)
    {
      run := Then(run, e);
    }

    /** pthread_cond_signal: some waiting thread, if there is one. */
    method PickOne(c: Cond) returns (woken: set<Id>)
      ensures MaySignal(c, woken)
    {
      if c.waiting == {} {
        woken := {};
      } else {
        var x :| x in c.waiting;
        woken := {x};
      }
    }

    /** A step by which a thread moves without touching the fields. */
    method MoveThread(e: Event)
      requires Valid() && Enabled(Now(run), e)
      requires e.StopCall? || e.StopLock? || e.StopUnlock?
      modifies this
      ensures Valid() && run == Then(old(run), e) && queue == old(queue) && isStart == old(isStart)
    {
      Record(e);
    }

    /** The test of runInThread's while: in a started pool the worker goes on to take(), else it is done. */
    method TestFlag(w: Id) returns (again: bool)
      requires Valid() && Enabled(Now(run), WorkerTest(w))
      modifies this`run
      ensures Valid() && again == isStart && WorkerAt(Now(run), w)
      ensures Now(run).workers[w] == if again then Entering else Exited
    {
      again := isStart;
      Record(WorkerTest(w));
    }

    /** `if(run) run();` calls the task that take() returned, unless it is empty. */
    method CallTask(w: Id, t: Task)
      requires Valid() && WorkerAt(Now(run), w) && Now(run).workers[w] == Ready(t)
      modifies this`called, this`run
      ensures Valid() && called == (if t.Empty? then old(called) else old(called) + [Call(t, w)])
      ensures WorkerAt(Now(run), w) && Now(run).workers[w] == if t.Empty? then AtTest else Running(t)
    {
      if !t.Empty? {
        called := called + [Call(t, w)];
      }
      Record(WorkerCall(w));
    }

    /** The task ends, and the worker is at the while again. */
    method EndTask(w: Id)
      requires Valid() && Enabled(Now(run), WorkerReturn(w))
      modifies this`run
      ensures Valid() && WorkerAt(Now(run), w) && Now(run).workers[w] == AtTest
    {
      Record(WorkerReturn(w));
    }

    /** A thread comes into addTask(). */
    method EnterAddTask(p: Id, t: Task)
      requires Valid() && Enabled(Now(run), ProducerEnter(p, t))
      modifies this`run
      ensures Valid() && ProducerAt(Now(run), p) && Now(run).producers[p] == PEntering(t)
    {
      Record(ProducerEnter(p, t));
    }

    /** Each worker has called exactly the non-empty tasks it has taken, in order, but for one in its hands. */
    lemma CallsAreTakings(w: Id)
      requires Valid() && w < |Now(run).workers|
      ensures TakenBy(Now(run).removed, w) == CalledBy(called, w) + InHand(Now(run).workers[w])
    {
      TasksAreConserved(run, w);
    }

    /** A wait() of a worker or a producer returns although nobody notified. */
    method WakeSpuriously(e: Event)
      requires Valid() && Enabled(Now(run), e) && (e.SpuriousWorker? || e.SpuriousProducer?)
      modifies this
      ensures Valid() && run == Then(old(run), e) && queue == old(queue)
    {
      if e.SpuriousWorker? {
        notEmpty := SignalCond(notEmpty, {e.w});
      } else {
        notFull := SignalCond(notFull, {e.p});
      }
      Record(e);
    }

    /** A worker gets the mutex, from take() or back from wait(). */
    method WorkerLocks(w: Id)
      requires Valid() && Enabled(Now(run), WorkerLock(w))
      modifies this
      ensures Valid() && run == Then(old(run), WorkerLock(w)) && queue == old(queue)
    {
      notEmpty := Cond(notEmpty.waiting, notEmpty.signalled - {w});
      Record(WorkerLock(w));
    }

    /** A producer gets the mutex, from addTask() or back from wait(). */
    method ProducerLocks(p: Id)
      requires Valid() && Enabled(Now(run), ProducerLock(p))
      modifies this
      ensures Valid() && run == Then(old(run), ProducerLock(p)) && queue == old(queue)
    {
      notFull := Cond(notFull.waiting, notFull.signalled - {p});
      Record(ProducerLock(p));
    }

    /**
     * take(), from the test of its while to the release of the mutex. Either the worker is asleep in wait(), which
     * happens only with an empty queue and the pool running, or `t` is the oldest task, or `Empty` after stop().
     */
    method Take(w: Id) returns (asleep: bool, t: Task)
      requires Valid() && Enabled(Now(run), WorkerCheck(w))
      modifies this
      ensures Valid() && isStart == old(isStart)
      ensures asleep <==> old(queue) == [] && isStart
      ensures asleep ==> queue == [] && w in notEmpty.waiting && run == Then(old(run), WorkerCheck(w))
      ensures !asleep && old(queue) != [] ==> old(queue) == [t] + queue
      ensures !asleep && old(queue) == [] ==> t == Empty && queue == []
      ensures !asleep ==> Now(run).owner.Nobody? && WorkerAt(Now(run), w) && Now(run).workers[w] == Ready(t)
    {
      t := Empty;
      asleep := queue == [] && isStart;
      if asleep {
        notEmpty := Cond(notEmpty.waiting + {w}, notEmpty.signalled);
        Record(WorkerCheck(w));
        return;
      }
      if queue == [] {
        Record(WorkerCheck(w));
      } else {
        t := PopFront(w);
        NotifyNotFull(w);
      }
      Record(WorkerUnlock(w));
    }

    method PopFront(w: Id) returns (t: Task)
      requires Valid() && Enabled(Now(run), WorkerCheck(w)) && queue != []
      modifies this`queue, this`run
      ensures Valid() && run == Then(old(run), WorkerCheck(w)) && old(queue) == [t] + queue
      ensures Now(run).workers[w] == Popped(t)
    {
      t := queue[0];
      queue := queue[1..];
      Record(WorkerCheck(w));
    }

    /** cond_notFull_.notify() */
    method NotifyNotFull(w: Id)
      requires Valid() && WorkerAt(Now(run), w) && Now(run).workers[w].Popped?
      modifies this`notFull, this`run
      ensures Valid() && WorkerAt(Now(run), w) && Now(run).workers[w] == Leaving(old(Now(run)).workers[w].t)
    {
      var woken := PickOne(notFull);
      notFull := SignalCond(notFull, woken);
      Record(WorkerNotify(w, woken));
    }

    /** cond_notEmpty_.notify() */
    method NotifyNotEmpty(p: Id)
      requires Valid() && ProducerAt(Now(run), p) && Now(run).producers[p].PPushed?
      modifies this`notEmpty, this`run
      ensures Valid() && ProducerAt(Now(run), p) && Now(run).producers[p].PLeaving?
      ensures old(notEmpty).waiting != {} ==> |notEmpty.signalled| > 0
    {
      var woken := PickOne(notEmpty);
      notEmpty := SignalCond(notEmpty, woken);
      Record(ProducerNotify(p, woken));
    }

    /**
     * addTask(), from the test of its while to the release of the mutex: with a full queue the producer is asleep
     * and nothing is added, otherwise the task is at the back and one sleeping worker, if any, has been woken.
     */
    method AddTask(p: Id, t: Task) returns (asleep: bool)
      requires Valid() && Enabled(Now(run), ProducerCheck(p)) && Now(run).producers[p].t == t
      modifies this
      ensures Valid() && isStart == old(isStart)
      ensures asleep <==> |old(queue)| >= sizeQueue
      ensures asleep ==> queue == old(queue) && p in notFull.waiting
      ensures !asleep ==> queue == old(queue) + [t] && Now(run).owner.Nobody? && |queue| <= sizeQueue
      ensures asleep <==> ProducerAt(Now(run), p)
      ensures !asleep && old(notEmpty).waiting != {} ==> |notEmpty.signalled| > 0
    {
      asleep := |queue| >= sizeQueue;
      if asleep {
        notFull := Cond(notFull.waiting + {p}, notFull.signalled);
        Record(ProducerCheck(p));
      } else {
        PushBack(p, t);
        NotifyNotEmpty(p);
        Record(ProducerUnlock(p));
      }
    }

    method PushBack(p: Id, t: Task)
      requires Valid() && Enabled(Now(run), ProducerCheck(p)) && Now(run).producers[p].t == t && |queue| < sizeQueue
      modifies this`queue, this`run
      ensures Valid() && queue == old(queue) + [t]
      ensures ProducerAt(Now(run), p) && Now(run).producers[p].PPushed?
    {
      queue := queue + [t];
      Record(ProducerCheck(p));
    }

    /** The critical section of stop(): the flag goes down and every sleeping worker is woken. */
    method StopSection()
      requires Valid() && Enabled(Now(run), StopSet)
      modifies this
      ensures Valid() && !isStart && queue == old(queue)
      ensures notEmpty == Cond({}, old(notEmpty).signalled + old(notEmpty).waiting) && notFull == old(notFull)
      ensures ShutDown(Now(run)) && Now(run).owner.Nobody?
    {
      LowerFlag();
      NotifyAll();
      Record(StopUnlock);
    }

    method LowerFlag()
      requires Valid() && Enabled(Now(run), StopSet)
      modifies this`isStart, this`run
      ensures Valid() && !isStart && run == Then(old(run), StopSet)
    {
      isStart := false;
      Record(StopSet);
    }

    /** cond_notEmpty_.notifyAll() */
    method NotifyAll()
      requires Valid() && Enabled(Now(run), StopBroadcast)
      modifies this`notEmpty, this`run
      ensures Valid() && run == Then(old(run), StopBroadcast)
      ensures notEmpty == Cond({}, old(notEmpty).signalled + old(notEmpty).waiting)
    {
      notEmpty := SignalCond(notEmpty, notEmpty.waiting);
      Record(StopBroadcast);
    }

    /** The end of stop(), after every join: what is left in the queue is dropped, one task at a time. */
    method DropTasks()
      requires Valid() && Enabled(Now(run), StopJoin)
      modifies this
      ensures Valid() && queue == []
      ensures Now(run).removed == old(Now(run)).removed + ClearedAll(old(queue))
      ensures notFull == old(notFull)
    {
      ghost var dropped := 0;
      while |queue| > 0
        invariant 0 <= dropped <= |old(queue)|
        invariant queue == old(queue)[dropped..] && dropped <= |old(queue)|
        invariant run == old(run) && notFull == old(notFull) && notEmpty == old(notEmpty) && isStart == old(isStart)
        invariant called == old(called)
        decreases |queue|
      {
        queue := queue[1..];
        dropped := dropped + 1;
      }
      Record(StopJoin);
    }
  }
}
