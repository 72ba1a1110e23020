/**
 * Exactly when stop() can leave a producer asleep for ever (zdq_thread_pool.cpp:34-63): a condition on the pool at the
 * time of the call, for any number of threads wherever they are, provided no further thread enters addTask().
 */
module PoolStops {
  import opened PoolProtocol

  /** Past the test of the flag, and still to look at the queue. */
  predicate PastTest(pc: WorkerPc) { pc.Entering? || pc.Asleep? || pc.Signalled? || pc.Checking? }

  /** In addTask(), with the task not in the queue yet. */
  predicate Unpushed(pc: ProducerPc) { pc.PEntering? || pc.PAsleep? || pc.PSignalled? || pc.PChecking? }

  ghost function TakersOf(ws: seq<WorkerPc>): set<Id> { set w: Id | w < |ws| && PastTest(ws[w]) }
  ghost function AddersOf(ps: map<Id, ProducerPc>): set<Id> { set p | p in ps && Unpushed(ps[p]) }
  ghost function Takers(s: State): set<Id> { TakersOf(s.workers) }
  ghost function Adders(s: State): set<Id> { AddersOf(s.producers) }

  /** Whether the mutex is held by a producer that is about to push. */
  ghost function Pushing(s: State): nat { if |s.queue| < s.capacity then ProducerLooking(s) else 0 }

  function Min(a: nat, b: nat): nat { if a < b then a else b }

  /**
   * What the queue would have to hold: the tasks in it and those on their way in, less those that must come out. Each
   * worker past the test takes one if there is one, before or after the next push.
   */
  ghost function Load(s: State): int {
    |s.queue| + |Adders(s)| - Min(|Takers(s)|, |s.queue| + Pushing(s))
  }

  // ---------------------------------------------------------------- the load never grows

  predicate Takes(s: State, e: Event) {
    e.WorkerCheck? && (s.queue != [] || !s.started)
  }

  predicate Adds(s: State, e: Event) {
    e.ProducerCheck? && |s.queue| < s.capacity
  }

  lemma TakersMoved(ws: seq<WorkerPc>, w: Id, pc: WorkerPc)
    requires w < |ws|
    ensures TakersOf(ws[w := pc]) == if PastTest(pc) then TakersOf(ws) + {w} else TakersOf(ws) - {w}
    ensures PastTest(ws[w]) <==> w in TakersOf(ws)
  {
  }

  lemma TakersWoken(ws: seq<WorkerPc>, woken: set<Id>)
    requires forall w :: w in woken && w < |ws| ==> ws[w].Asleep?
    ensures TakersOf(WakeWorkers(ws, woken)) == TakersOf(ws)
  {
  }

  /** A worker's step changes where it stands, and nobody else. */
  lemma WorkerMoves(s: State, e: Event)
    requires Enabled(s, e) && ByWorker(e)
    ensures e.w < |s.workers| && Step(s, e).workers == s.workers[e.w := Step(s, e).workers[e.w]]
    ensures var before, after := PastTest(s.workers[e.w]), PastTest(Step(s, e).workers[e.w]);
            && (e.WorkerTest? && s.started ==> after) && (Takes(s, e) ==> before && !after)
            && (!(e.WorkerTest? && s.started) && !Takes(s, e) ==> before == after)
  {
  }

  lemma TakersAfter(s: State, e: Event)
    requires CondsAgree(s) && Enabled(s, e)
    ensures Takers(Step(s, e)) == if e.WorkerTest? && s.started then Takers(s) + {e.w}
                                  else if Takes(s, e) then Takers(s) - {e.w}
                                  else Takers(s)
    ensures Takes(s, e) ==> e.w in Takers(s)
  {
    if ByWorker(e) {
      WorkerMoves(s, e);
      TakersMoved(s.workers, e.w, Step(s, e).workers[e.w]);
    } else if e.ProducerNotify? {
      TakersWoken(s.workers, e.woken);
    } else if e.StopBroadcast? {
      TakersWoken(s.workers, s.notEmpty.waiting);
    } else {
      assert Step(s, e).workers == s.workers;
    }
  }

  lemma AddersMoved(ps: map<Id, ProducerPc>, p: Id, pc: ProducerPc)
    requires p in ps
    ensures AddersOf(ps[p := pc]) == if Unpushed(pc) then AddersOf(ps) + {p} else AddersOf(ps) - {p}
    ensures Unpushed(ps[p]) <==> p in AddersOf(ps)
  {
  }

  lemma AddersWoken(ps: map<Id, ProducerPc>, woken: set<Id>)
    requires forall p :: p in woken && p in ps ==> ps[p].PAsleep?
    ensures AddersOf(WakeProducers(ps, woken)) == AddersOf(ps)
  {
  }

  lemma AddersLeft(ps: map<Id, ProducerPc>, p: Id)
    requires p in ps ==> !Unpushed(ps[p])
    ensures AddersOf(ps - {p}) == AddersOf(ps)
  {
  }

  /** A producer's step, other than its way in and out, changes where it stands, and nobody else. */
  lemma ProducerMoves(s: State, e: Event)
    requires Enabled(s, e) && ByProducer(e) && !e.ProducerEnter? && !e.ProducerUnlock?
    ensures e.p in s.producers && e.p in Step(s, e).producers
    ensures Step(s, e).producers == s.producers[e.p := Step(s, e).producers[e.p]]
    ensures var before, after := Unpushed(s.producers[e.p]), Unpushed(Step(s, e).producers[e.p]);
            if Adds(s, e) then before && !after else before == after
  {
  }

  lemma AddersAfter(s: State, e: Event)
    requires CondsAgree(s) && Enabled(s, e) && !e.ProducerEnter?
    ensures Adders(Step(s, e)) == if Adds(s, e) then Adders(s) - {e.p} else Adders(s)
    ensures Adds(s, e) ==> e.p in Adders(s)
  {
    if e.ProducerUnlock? {
      AddersLeft(s.producers, e.p);
    } else if ByProducer(e) {
      ProducerMoves(s, e);
      AddersMoved(s.producers, e.p, Step(s, e).producers[e.p]);
    } else if e.WorkerNotify? {
      AddersWoken(s.producers, e.woken);
    } else {
      assert Step(s, e).producers == s.producers;
    }
  }

  lemma PushingAfter(s: State, e: Event)
    requires MutexAgrees(s) && Enabled(s, e) && !e.StopJoin?
    ensures Pushing(Step(s, e)) == if e.ProducerLock? && |s.queue| < s.capacity then 1
                                   else if e.ProducerCheck? then 0 else Pushing(s)
    ensures e.ProducerLock? || e.WorkerCheck? ==> Pushing(s) == 0
    ensures Adds(s, e) ==> Pushing(s) == 1
  {
  }

  lemma QueueAfter(s: State, e: Event)
    requires Enabled(s, e) && !e.StopJoin?
    ensures |Step(s, e).queue| == |s.queue| + (if Adds(s, e) then 1 else 0)
                                  - (if e.WorkerCheck? && s.queue != [] then 1 else 0)
  {
  }

  /** Unless a thread enters addTask() the load never grows, and only two kinds of step may lower it. */
  lemma LoadAfter(s: State, e: Event)
    requires Monitor(s) && Enabled(s, e) && !e.ProducerEnter? && !e.StopJoin?
    ensures Load(Step(s, e)) <= Load(s)
    ensures !e.ProducerLock? && !(e.WorkerTest? && s.started) ==> Load(Step(s, e)) == Load(s)
  {
    TakersAfter(s, e);
    AddersAfter(s, e);
    PushingAfter(s, e);
    QueueAfter(s, e);
  }

  // ---------------------------------------------------------------- a stranded producer needs a load over capacity

  /** `b` goes on from `a`, and no thread enters addTask() on the way. */
  ghost predicate Later(a: Run, b: Run) {
    b == a || (b.Then? && !b.last.ProducerEnter? && Later(a, b.past))
  }

  lemma {:induction false} LoadOnlyFalls(a: Run, b: Run)
    requires Legal(b) && Later(a, b) && Monitor(Now(a)) && !Now(b).stopping.Stopped?
    ensures Monitor(Now(b)) && Load(Now(b)) <= Load(Now(a)) && Now(b).capacity == Now(a).capacity
  {
    if b != a {
      StoppedStays(Now(b.past), b.last);
      LoadOnlyFalls(a, b.past);
      StepKeepsMonitor(Now(b.past), b.last);
      LoadAfter(Now(b.past), b.last);
      SameWorkers(Now(b.past), b.last);
    }
  }

  lemma StoppedStays(s: State, e: Event)
    requires Enabled(s, e)
    ensures s.stopping.Stopped? || e.StopJoin? ==> Step(s, e).stopping.Stopped?
  {
  }

  ghost predicate AllExited(s: State) { forall w :: 0 <= w < |s.workers| ==> s.workers[w].Exited? }

  lemma LoadWhenExited(s: State)
    requires AllExited(s)
    ensures Load(s) == |s.queue| + |Adders(s)|
  {
    assert Takers(s) == {};
  }

  lemma AddersAreMany(s: State)
    requires MutexAgrees(s) && CondsAgree(s)
    ensures |Adders(s)| >= |s.notFull.waiting| + |s.notFull.signalled| + ProducerLooking(s)
  {
    var looking := if ProducerLooking(s) == 1 then {s.owner.p} else {};
    var all := s.notFull.waiting + s.notFull.signalled + looking;
    assert |all| == |s.notFull.waiting| + |s.notFull.signalled| + |looking| by {
      assert s.notFull.waiting !! s.notFull.signalled !! looking;
    }
    SubsetIsSmaller(all, Adders(s));
  }

  lemma {:induction false} SubsetIsSmaller(a: set<Id>, b: set<Id>)
    requires a <= b
    ensures |a| <= |b|
  {
    assert b == a + (b - a);
  }

  lemma AsleepMeansOverfull(s: State)
    requires Monitor(s) && Enabled(s, StopJoin) && s.notFull.waiting != {}
    ensures Load(s) > s.capacity
  {
    LoadWhenExited(s);
    AddersAreMany(s);
    assert WorkerToNotify(s) == 0;
  }

  // ---------------------------------------------------------------- and such a load can strand one

  /** What a step of the construction keeps. */
  lemma Move(a: Run, b: Run, e: Event) returns (next: Run)
    requires Legal(b) && Later(a, b) && Monitor(Now(b)) && Enabled(Now(b), e) && !e.ProducerEnter?
    ensures Legal(next) && Later(a, next) && next == Then(b, e) && Now(next) == Step(Now(b), e) && Monitor(Now(next))
    ensures Now(next).capacity == Now(b).capacity
    ensures !e.ProducerLock? && !(e.WorkerTest? && Now(b).started) && !e.StopJoin? ==> Load(Now(next)) == Load(Now(b))
  {
    next := Then(b, e);
    StepKeepsMonitor(Now(b), e);
    SameWorkers(Now(b), e);
    if !e.StopJoin? { LoadAfter(Now(b), e); }
  }

  /** How many steps the holder of the mutex is away from giving it up. */
  ghost function HolderRank(s: State): nat {
    match s.owner
    case Nobody => 0
    case Worker(w) =>
      if w >= |s.workers| then 0 else if s.workers[w].Checking? then 3 else if s.workers[w].Popped? then 2 else 1
    case Producer(p) =>
      if p !in s.producers then 0
      else if s.producers[p].PChecking? then 3 else if s.producers[p].PPushed? then 2 else 1
    case Stopper => if s.stopping.Setting? then 3 else if s.stopping.Broadcasting? then 2 else 1
  }

  /** Where stop() is once its critical section, if it is in it, is over. */
  function AfterSection(pc: StopPc): StopPc { if SHolds(pc) then Joining else pc }

  lemma HolderStep(s: State)
    requires MutexAgrees(s) && !s.owner.Nobody?
    ensures var e := HolderNext(s);
            && Enabled(s, e) && !e.ProducerEnter? && !e.ProducerLock? && !e.WorkerTest? && !e.StopJoin?
            && AfterSection(Step(s, e).stopping) == AfterSection(s.stopping)
  {
    HolderCanStep(s);
  }

  lemma HolderGetsOn(s: State)
    requires MutexAgrees(s) && !s.owner.Nobody? && Enabled(s, HolderNext(s))
    ensures HolderRank(Step(s, HolderNext(s))) < HolderRank(s)
  {
    match s.owner
    case Worker(w) => assert Step(s, HolderNext(s)).workers == s.workers[w := Step(s, HolderNext(s)).workers[w]];
    case _ =>
  }

  lemma ExitedStay(s: State, e: Event)
    requires Monitor(s) && ShutDown(s) && AllExited(s) && Enabled(s, e)
    ensures ShutDown(Step(s, e)) && AllExited(Step(s, e))
  {
    ShutdownProgress(s, e);
  }

  /** The holder of the mutex gives it up. */
  lemma {:induction false} FreeMutex(a: Run, b: Run) returns (next: Run)
    requires Legal(b) && Later(a, b) && Monitor(Now(b))
    ensures Legal(next) && Later(a, next) && Monitor(Now(next)) && Now(next).owner.Nobody?
    ensures Load(Now(next)) == Load(Now(b)) && Now(next).capacity == Now(b).capacity
    ensures Now(next).stopping == AfterSection(Now(b).stopping) && Adders(Now(next)) <= Adders(Now(b))
    ensures ShutDown(Now(b)) && AllExited(Now(b)) ==> AllExited(Now(next))
    decreases HolderRank(Now(b))
  {
    next := b;
    var s := Now(b);
    if !s.owner.Nobody? {
      HolderStep(s);
      HolderGetsOn(s);
      AddersAfter(s, HolderNext(s));
      if ShutDown(s) && AllExited(s) { ExitedStay(s, HolderNext(s)); }
      var more := Move(a, b, HolderNext(s));
      next := FreeMutex(a, more);
    }
  }

  /** stop() up to its joins. */
  lemma StopUpToJoins(a: Run) returns (next: Run)
    requires Legal(a) && Monitor(Now(a)) && Enabled(Now(a), StopCall)
    ensures Legal(next) && Later(a, next) && Monitor(Now(next)) && Now(next).owner.Nobody?
    ensures Now(next).stopping.Joining? && Load(Now(next)) == Load(Now(a)) && Now(next).capacity == Now(a).capacity
  {
    next := Move(a, a, StopCall);
    next := FreeMutex(a, next);
    next := Move(a, next, StopLock);
    next := FreeMutex(a, next);
  }

  lemma WorkerOrHolderMoves(s: State, w: Id)
    requires Monitor(s) && ShutDown(s) && w < |s.workers| && !s.workers[w].Exited?
    requires s.owner.Nobody? || s.owner.Worker?
    ensures var e := if s.owner.Nobody? then WorkerNext(s, w) else HolderNext(s);
            && Enabled(s, e) && ByWorker(e) && TotalRank(Step(s, e).workers) < TotalRank(s.workers)
            && Step(s, e).stopping == s.stopping && ShutDown(Step(s, e))
            && (Step(s, e).owner.Nobody? || Step(s, e).owner.Worker?)
  {
    WorkerOrHolderCanStep(s, w);
    ShutdownProgress(s, if s.owner.Nobody? then WorkerNext(s, w) else HolderNext(s));
  }

  /** Every worker exits before any producer moves. */
  lemma {:induction false} WorkersExit(a: Run, b: Run) returns (next: Run)
    requires Legal(b) && Later(a, b) && Monitor(Now(b)) && Now(b).stopping.Joining?
    requires Now(b).owner.Nobody? || Now(b).owner.Worker?
    ensures Legal(next) && Later(a, next) && Monitor(Now(next)) && Now(next).owner.Nobody?
    ensures Now(next).stopping.Joining? && AllExited(Now(next))
    ensures Load(Now(next)) == Load(Now(b)) && Now(next).capacity == Now(b).capacity
    decreases TotalRank(Now(b).workers)
  {
    next := b;
    var s := Now(b);
    if !AllExited(s) {
      var w :| 0 <= w < |s.workers| && !s.workers[w].Exited?;
      WorkerOrHolderMoves(s, w);
      var more := Move(a, b, if s.owner.Nobody? then WorkerNext(s, w) else HolderNext(s));
      next := WorkersExit(a, more);
    }
  }

  /** Then the producers push, one after the other, until one finds the queue full. */
  lemma {:induction false} OneFallsAsleep(a: Run, b: Run) returns (next: Run)
    requires Legal(b) && Later(a, b) && Monitor(Now(b)) && Now(b).owner.Nobody?
    requires Now(b).stopping.Joining? && AllExited(Now(b)) && Load(Now(b)) > Now(b).capacity
    ensures Legal(next) && Later(a, next) && Monitor(Now(next))
    ensures Now(next).stopping.Joining? && AllExited(Now(next)) && Now(next).notFull.waiting != {}
    decreases Adders(Now(b))
  {
    next := b;
    var s := Now(b);
    if s.notFull.waiting == {} {
      LoadWhenExited(s);
      assert |Adders(s)| > 0;
      var p :| p in Adders(s);
      assert s.producers[p].PAsleep? ==> p in s.notFull.waiting;
      next := LockAndCheck(a, b, p);
      if Now(next).notFull.waiting == {} {
        next := FreeMutex(a, next);
        next := OneFallsAsleep(a, next);
      }
    }
  }

  /** addTask() by one of them, up to the push or to its wait. */
  lemma LockAndCheck(a: Run, b: Run, p: Id) returns (next: Run)
    requires Legal(b) && Later(a, b) && Monitor(Now(b)) && Enabled(Now(b), ProducerLock(p))
    requires Now(b).stopping.Joining? && AllExited(Now(b))
    ensures Legal(next) && Later(a, next) && Monitor(Now(next)) && Now(next).stopping.Joining? && AllExited(Now(next))
    ensures Load(Now(next)) == Load(Now(b)) && Now(next).capacity == Now(b).capacity
    ensures Now(next).notFull.waiting != {} || Adders(Now(next)) < Adders(Now(b))
  {
    next := Move(a, b, ProducerLock(p));
    GettingIn(Now(b), p);
    PushingOrSleeping(Now(next), p);
    next := Move(a, next, ProducerCheck(p));
  }

  lemma GettingIn(s: State, p: Id)
    requires CondsAgree(s) && Enabled(s, ProducerLock(p)) && AllExited(s)
    ensures var t := Step(s, ProducerLock(p));
            && AllExited(t) && Load(t) == Load(s) && Adders(t) == Adders(s) && t.stopping == s.stopping
            && Enabled(t, ProducerCheck(p))
  {
    AddersAfter(s, ProducerLock(p));
    LoadWhenExited(s);
    LoadWhenExited(Step(s, ProducerLock(p)));
  }

  lemma PushingOrSleeping(s: State, p: Id)
    requires CondsAgree(s) && Enabled(s, ProducerCheck(p)) && AllExited(s)
    ensures var t := Step(s, ProducerCheck(p));
            AllExited(t) && t.stopping == s.stopping && (t.notFull.waiting != {} || Adders(t) < Adders(s))
  {
    AddersAfter(s, ProducerCheck(p));
    var t := Step(s, ProducerCheck(p));
    if !Adds(s, ProducerCheck(p)) { assert p in t.notFull.waiting; }
  }

  /** stop() called in `a` has just returned, and a producer is asleep. */
  ghost predicate Strands(a: Run, b: Run) {
    Legal(b) && Later(a, b) && b.Then? && b.last.StopJoin? && Now(b).notFull.waiting != {}
  }

  lemma LoadOverCapacityStrands(a: Run) returns (b: Run)
    requires Legal(a) && Monitor(Now(a)) && Enabled(Now(a), StopCall) && Load(Now(a)) > Now(a).capacity
    ensures Strands(a, b)
  {
    b := StopUpToJoins(a);
    b := WorkersExit(a, b);
    b := OneFallsAsleep(a, b);
    b := Move(a, b, StopJoin);
  }

  lemma StrandsMeansOverfull(a: Run, b: Run)
    requires Monitor(Now(a)) && !Now(a).stopping.Stopped? && Strands(a, b) && b != a
    ensures Load(Now(a)) > Now(a).capacity
  {
    LoadOnlyFalls(a, b.past);
    AsleepMeansOverfull(Now(b.past));
  }

  /**
   * Exactly when stop() may strand a producer. Let stop() be called at any point of any run, and let no further thread
   * enter addTask(). Then stop() can return with a producer asleep, whom nobody will ever notify, if and only if at the
   * call the tasks queued and those of threads in addTask(), less those that workers past the test must take, are more
   * than the queue holds.
   */
  lemma StopStrandsIff(a: Run)
    requires FromStart(a) && Enabled(Now(a), StopCall)
    ensures (exists b :: Strands(a, b)) <==> Load(Now(a)) > Now(a).capacity
  {
    BegunIsMonitor(a);
    if Load(Now(a)) > Now(a).capacity {
      var b := LoadOverCapacityStrands(a);
    }
    forall b | Strands(a, b)
      ensures Load(Now(a)) > Now(a).capacity
    {
      if b == a {
        JustJoined(b.past);
      }
      StrandsMeansOverfull(a, b);
    }
  }

  lemma JustJoined(past: Run)
    requires Enabled(Now(past), StopJoin)
    ensures Now(Then(past, StopJoin)).stopping.Stopped?
  {
  }

  /** In particular stop() strands nobody when there is room for the tasks of all the threads that are in addTask(). */
  lemma RoomForAllIsSafe(a: Run, b: Run)
    requires FromStart(a) && Enabled(Now(a), StopCall) && |Now(a).queue| + |Adders(Now(a))| <= Now(a).capacity
    ensures !Strands(a, b)
  {
    StopStrandsIff(a);
  }

  lemma TwoEnter(t: Task) returns (a: Run)
    ensures FromStart(a) && Enabled(Now(a), StopCall) && Now(a).queue == [] && Now(a).capacity == 1
    ensures Now(a).workers == [] && Now(a).producers == map[0 := PEntering(t), 1 := PEntering(t)]
  {
    a := Start(Begun(1, 0));
    a := Entering(a, 0, t);
    a := Entering(a, 1, t);
  }

  lemma Entering(b: Run, p: Id, t: Task) returns (next: Run)
    requires FromStart(b) && p !in Now(b).producers
    ensures FromStart(next) && Now(next) == Now(b).(producers := Now(b).producers[p := PEntering(t)])
  {
    next := Then(b, ProducerEnter(p, t));
  }

  /** It does happen: in a pool with room for one task, two threads in addTask() and no worker are enough. */
  lemma StopCanStrand(t: Task) returns (a: Run, b: Run)
    ensures FromStart(a) && Now(a).queue == [] && Strands(a, b)
  {
    a := TwoEnter(t);
    BegunIsMonitor(a);
    TwoAdders(Now(a), t);
    b := LoadOverCapacityStrands(a);
  }

  lemma TwoAdders(s: State, t: Task)
    requires s.workers == [] && s.queue == [] && s.producers == map[0 := PEntering(t), 1 := PEntering(t)]
    ensures Load(s) == 2
  {
    assert Takers(s) == {} && Adders(s) == {0, 1};
  }
}
