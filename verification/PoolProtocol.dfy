/**
 * The bounded task queue of ThreadPool as a monitor (zdq_thread_pool.cpp): one mutex, two condition variables,
 * `workers` threads in runInThread, any number of threads in addTask, and one thread that calls stop().
 * Wakeups may be spurious, a notified thread competes for the mutex with newcomers, and the thread that a notify
 * picks is arbitrary. Each event is one step of one thread between two points where others may run.
 */
module PoolProtocol {
  type Id = nat

  /** A std::function: `Empty` is what take() returns after stop, or an empty function somebody added. */
  datatype Task = Empty | Job(id: nat)

  datatype Holder = Nobody | Worker(w: Id) | Producer(p: Id) | Stopper

  /** The threads blocked in wait(), and those notified (or woken spuriously) that have not the mutex back yet. */
  datatype Cond = Cond(waiting: set<Id>, signalled: set<Id>)

  datatype WorkerPc =
    | AtTest            // at `while(is_start_)` in runInThread
    | Entering          // in take(), wants the mutex
    | Asleep            // in cond_notEmpty_.wait()
    | Signalled         // woken, wants the mutex back
    | Checking          // holds the mutex, at the while in take()
    | Popped(t: Task)   // holds the mutex, has popped, will notify cond_notFull_
    | Leaving(t: Task)  // holds the mutex, about to release it and return t
    | Ready(t: Task)    // back in runInThread with t
    | Running(t: Task)
    | Exited

  datatype ProducerPc =
    | PEntering(t: Task) | PAsleep(t: Task) | PSignalled(t: Task)
    | PChecking(t: Task)  // holds the mutex, at the while in addTask()
    | PPushed             // holds the mutex, will notify cond_notEmpty_
    | PLeaving            // holds the mutex, about to release it

  datatype StopPc = NotCalled | StopEntering | Setting | Broadcasting | Releasing | Joining | Stopped

  /** How a task left the queue. */
  datatype Removal = Taken(t: Task, taker: Id) | Cleared(t: Task)

  /** A task whose call has begun. */
  datatype Call = Call(t: Task, caller: Id)

  datatype State = State(
    capacity: nat,
    queue: seq<Task>,
    started: bool,
    owner: Holder,               // who holds mutex_
    notEmpty: Cond,              // worker ids
    notFull: Cond,               // producer ids
    workers: seq<WorkerPc>,
    producers: map<Id, ProducerPc>,
    stopping: StopPc,
    accepted: seq<Task>,         // history: pushes in order
    removed: seq<Removal>,       // history: removals in order
    calls: seq<Call>             // history: task calls in order
  )

  datatype Event =
    | WorkerTest(w: Id) | WorkerLock(w: Id) | WorkerCheck(w: Id) | WorkerNotify(w: Id, woken: set<Id>)
    | WorkerUnlock(w: Id) | WorkerCall(w: Id) | WorkerReturn(w: Id)
    | ProducerEnter(p: Id, t: Task) | ProducerLock(p: Id) | ProducerCheck(p: Id)
    | ProducerNotify(p: Id, woken: set<Id>) | ProducerUnlock(p: Id)
    | StopCall | StopLock | StopSet | StopBroadcast | StopUnlock | StopJoin
    | SpuriousWorker(w: Id) | SpuriousProducer(p: Id)

  /** pthread_cond_signal: wakes one waiting thread if there is one. */
  predicate MaySignal(c: Cond, woken: set<Id>) {
    woken <= c.waiting && if c.waiting == {} then woken == {} else |woken| == 1
  }

  function SignalCond(c: Cond, woken: set<Id>): Cond {
    Cond(c.waiting - woken, c.signalled + woken)
  }

  predicate WorkerAt(s: State, w: Id) { w < |s.workers| }
  predicate ProducerAt(s: State, p: Id) { p in s.producers }

  predicate Enabled(s: State, e: Event) {
    match e
    case WorkerTest(w) => WorkerAt(s, w) && s.workers[w].AtTest?
    case WorkerLock(w) =>
      WorkerAt(s, w) && (s.workers[w].Entering? || s.workers[w].Signalled?) && s.owner.Nobody?
    case WorkerCheck(w) => WorkerAt(s, w) && s.workers[w].Checking?
    case WorkerNotify(w, woken) => WorkerAt(s, w) && s.workers[w].Popped? && MaySignal(s.notFull, woken)
    case WorkerUnlock(w) => WorkerAt(s, w) && s.workers[w].Leaving?
    case WorkerCall(w) => WorkerAt(s, w) && s.workers[w].Ready?
    case WorkerReturn(w) => WorkerAt(s, w) && s.workers[w].Running?
    case ProducerEnter(p, _) => !ProducerAt(s, p)
    case ProducerLock(p) =>
      ProducerAt(s, p) && (s.producers[p].PEntering? || s.producers[p].PSignalled?) && s.owner.Nobody?
    case ProducerCheck(p) => ProducerAt(s, p) && s.producers[p].PChecking?
    case ProducerNotify(p, woken) => ProducerAt(s, p) && s.producers[p].PPushed? && MaySignal(s.notEmpty, woken)
    case ProducerUnlock(p) => ProducerAt(s, p) && s.producers[p].PLeaving?
    case StopCall => s.stopping.NotCalled? && s.started
    case StopLock => s.stopping.StopEntering? && s.owner.Nobody?
    case StopSet => s.stopping.Setting?
    case StopBroadcast => s.stopping.Broadcasting?
    case StopUnlock => s.stopping.Releasing?
    case StopJoin => s.stopping.Joining? && forall w :: 0 <= w < |s.workers| ==> s.workers[w].Exited?
    case SpuriousWorker(w) => w in s.notEmpty.waiting && WorkerAt(s, w) && s.workers[w].Asleep?
    case SpuriousProducer(p) => p in s.notFull.waiting && ProducerAt(s, p) && s.producers[p].PAsleep?
  }

  function MoveWorker(s: State, w: Id, pc: WorkerPc): State
    requires WorkerAt(s, w)
  {
    s.(workers := s.workers[w := pc])
  }

  function MoveProducer(s: State, p: Id, pc: ProducerPc): State {
    s.(producers := s.producers[p := pc])
  }

  /** Everyone in `woken` leaves wait(); they still need the mutex. */
  function WakeWorkers(ws: seq<WorkerPc>, woken: set<Id>): (r: seq<WorkerPc>)
    ensures |r| == |ws|
    ensures forall i :: 0 <= i < |ws| ==> r[i] == if i in woken then Signalled else ws[i]
  {
    seq(|ws|, i requires 0 <= i < |ws| => if i in woken then Signalled else ws[i])
  }

  function TaskOf(pc: ProducerPc): Task {
    if pc.PPushed? || pc.PLeaving? then Empty else pc.t
  }

  function WakeProducers(ps: map<Id, ProducerPc>, woken: set<Id>): (r: map<Id, ProducerPc>)
    ensures r.Keys == ps.Keys
    ensures forall p :: p in ps ==> r[p] == if p in woken then PSignalled(TaskOf(ps[p])) else ps[p]
  {
    map p | p in ps :: if p in woken then PSignalled(TaskOf(ps[p])) else ps[p]
  }

  function ClearedAll(q: seq<Task>): (r: seq<Removal>)
    ensures |r| == |q|
    ensures forall i :: 0 <= i < |q| ==> r[i] == Cleared(q[i])
  {
    seq(|q|, i requires 0 <= i < |q| => Cleared(q[i]))
  }

  function Step(s: State, e: Event): State
    requires Enabled(s, e)
  {
    match e
    case WorkerTest(w) => MoveWorker(s, w, if s.started then Entering else Exited)
    case WorkerLock(w) =>
      MoveWorker(s, w, Checking).(owner := Worker(w), notEmpty := s.notEmpty.(signalled := s.notEmpty.signalled - {w}))
    case WorkerCheck(w) =>
      if s.queue != [] then
        MoveWorker(s, w, Popped(s.queue[0])).(queue := s.queue[1..], removed := s.removed + [Taken(s.queue[0], w)])
      else if s.started then
        MoveWorker(s, w, Asleep).(owner := Nobody, notEmpty := s.notEmpty.(waiting := s.notEmpty.waiting + {w}))
      else MoveWorker(s, w, Leaving(Empty))
    case WorkerNotify(w, woken) =>
      MoveWorker(s, w, Leaving(s.workers[w].t)).(
        notFull := SignalCond(s.notFull, woken), producers := WakeProducers(s.producers, woken))
    case WorkerUnlock(w) => MoveWorker(s, w, Ready(s.workers[w].t)).(owner := Nobody)
    case WorkerCall(w) =>
      var t := s.workers[w].t;
      if t.Empty? then MoveWorker(s, w, AtTest)
      else MoveWorker(s, w, Running(t)).(calls := s.calls + [Call(t, w)])
    case WorkerReturn(w) => MoveWorker(s, w, AtTest)
    case ProducerEnter(p, t) => MoveProducer(s, p, PEntering(t))
    case ProducerLock(p) =>
      MoveProducer(s, p, PChecking(s.producers[p].t)).(
        owner := Producer(p), notFull := s.notFull.(signalled := s.notFull.signalled - {p}))
    case ProducerCheck(p) =>
      var t := s.producers[p].t;
      if |s.queue| >= s.capacity then
        MoveProducer(s, p, PAsleep(t)).(owner := Nobody, notFull := s.notFull.(waiting := s.notFull.waiting + {p}))
      else MoveProducer(s, p, PPushed).(queue := s.queue + [t], accepted := s.accepted + [t])
    case ProducerNotify(p, woken) =>
      MoveProducer(s, p, PLeaving).(notEmpty := SignalCond(s.notEmpty, woken), workers := WakeWorkers(s.workers, woken))
    case ProducerUnlock(p) => s.(producers := s.producers - {p}, owner := Nobody)
    case StopCall => s.(stopping := StopEntering)
    case StopLock => s.(stopping := Setting, owner := Stopper)
    case StopSet => s.(stopping := Broadcasting, started := false)
    case StopBroadcast =>
      s.(stopping := Releasing, notEmpty := SignalCond(s.notEmpty, s.notEmpty.waiting),
         workers := WakeWorkers(s.workers, s.notEmpty.waiting))
    case StopUnlock => s.(stopping := Joining, owner := Nobody)
    case StopJoin => s.(stopping := Stopped, queue := [], removed := s.removed + ClearedAll(s.queue))
    case SpuriousWorker(w) => MoveWorker(s, w, Signalled).(notEmpty := SignalCond(s.notEmpty, {w}))
    case SpuriousProducer(p) =>
      MoveProducer(s, p, PSignalled(s.producers[p].t)).(notFull := SignalCond(s.notFull, {p}))
  }

  /** A pool just started with a queue of `capacity` and `n` threads. */
  function Begun(capacity: nat, n: nat): State {
    State(capacity, [], true, Nobody, Cond({}, {}), Cond({}, {}), seq(n, i => AtTest), map[], NotCalled, [], [], [])
  }

  datatype Run = Start(from: State) | Then(past: Run, last: Event)

  ghost predicate Legal(r: Run) {
    match r
    case Start(_) => true
    case Then(past, e) => Legal(past) && Enabled(Now(past), e)
  }

  ghost function Now(r: Run): State {
    match r
    case Start(s) => s
    case Then(past, e) => if Enabled(Now(past), e) then Step(Now(past), e) else Now(past)
  }

  ghost function Origin(r: Run): State {
    match r
    case Start(s) => s
    case Then(past, _) => Origin(past)
  }

  /** A run of a pool from its start, with room for any number of tasks, none included. */
  ghost predicate FromStart(r: Run) {
    Legal(r) && exists capacity: nat, n: nat :: Origin(r) == Begun(capacity, n)
  }

  // ---------------------------------------------------------------- invariants

  predicate Holds(pc: WorkerPc) { pc.Checking? || pc.Popped? || pc.Leaving? }
  predicate PHolds(pc: ProducerPc) { pc.PChecking? || pc.PPushed? || pc.PLeaving? }
  predicate SHolds(pc: StopPc) { pc.Setting? || pc.Broadcasting? || pc.Releasing? }

  /** Mutual exclusion: a thread is inside a critical section exactly when it owns the mutex. */
  ghost predicate MutexAgrees(s: State) {
    && (forall w :: 0 <= w < |s.workers| ==> (Holds(s.workers[w]) <==> s.owner == Worker(w)))
    && (forall p :: p in s.producers ==> (PHolds(s.producers[p]) <==> s.owner == Producer(p)))
    && (SHolds(s.stopping) <==> s.owner == Stopper)
    && (s.owner.Worker? ==> WorkerAt(s, s.owner.w))
    && (s.owner.Producer? ==> ProducerAt(s, s.owner.p))
  }

  /** The wait sets list exactly the threads that sleep, the signalled sets those woken. */
  ghost predicate CondsAgree(s: State) {
    && (forall w: Id :: w in s.notEmpty.waiting <==> w < |s.workers| && s.workers[w].Asleep?)
    && (forall w: Id :: w in s.notEmpty.signalled <==> w < |s.workers| && s.workers[w].Signalled?)
    && (forall p: Id :: p in s.notFull.waiting <==> p in s.producers && s.producers[p].PAsleep?)
    && (forall p: Id :: p in s.notFull.signalled <==> p in s.producers && s.producers[p].PSignalled?)
  }

  ghost predicate StopAgrees(s: State) {
    && (s.started <==> s.stopping.NotCalled? || s.stopping.StopEntering? || s.stopping.Setting?)
    && (!s.started && !s.stopping.Broadcasting? ==> s.notEmpty.waiting == {})
    && (s.stopping.Stopped? ==> forall w :: 0 <= w < |s.workers| ==> s.workers[w].Exited?)
  }

  /** The owner is a worker that has yet to look at the queue (or a producer that has yet to notify). */
  ghost function WorkerLooking(s: State): nat {
    if s.owner.Worker? && WorkerAt(s, s.owner.w) && s.workers[s.owner.w].Checking? then 1 else 0
  }
  ghost function WorkerToNotify(s: State): nat {
    if s.owner.Worker? && WorkerAt(s, s.owner.w) && s.workers[s.owner.w].Popped? then 1 else 0
  }
  ghost function ProducerLooking(s: State): nat {
    if s.owner.Producer? && ProducerAt(s, s.owner.p) && s.producers[s.owner.p].PChecking? then 1 else 0
  }
  ghost function ProducerToNotify(s: State): nat {
    if s.owner.Producer? && ProducerAt(s, s.owner.p) && s.producers[s.owner.p].PPushed? then 1 else 0
  }

  /** While a worker sleeps, every queued task is matched by a worker on its way to the queue. */
  ghost predicate TasksAreAnnounced(s: State) {
    s.notEmpty.waiting != {} ==> |s.queue| <= |s.notEmpty.signalled| + WorkerLooking(s) + ProducerToNotify(s)
  }

  /** While a producer sleeps, every free slot is matched by a producer on its way, until stop() clears the queue. */
  ghost predicate SlotsAreAnnounced(s: State) {
    s.notFull.waiting != {} && !s.stopping.Stopped? ==>
      s.capacity - |s.queue| <= |s.notFull.signalled| + ProducerLooking(s) + WorkerToNotify(s)
  }

  ghost predicate Monitor(s: State) {
    MutexAgrees(s) && CondsAgree(s) && StopAgrees(s) && TasksAreAnnounced(s) && SlotsAreAnnounced(s)
    && |s.queue| <= s.capacity
  }

  predicate ByWorker(e: Event) {
    e.WorkerTest? || e.WorkerLock? || e.WorkerCheck? || e.WorkerNotify? || e.WorkerUnlock? || e.WorkerCall?
    || e.WorkerReturn? || e.SpuriousWorker?
  }

  predicate ByProducer(e: Event) {
    e.ProducerEnter? || e.ProducerLock? || e.ProducerCheck? || e.ProducerNotify? || e.ProducerUnlock?
    || e.SpuriousProducer?
  }

  /** The steps at which a worker takes the mutex, uses it or gives it up. */
  predicate AtMutex(e: Event) {
    e.WorkerLock? || e.WorkerCheck? || e.WorkerNotify? || e.WorkerUnlock?
  }

  lemma WorkerStepKeepsMutex(s: State, e: Event)
    requires MutexAgrees(s) && Enabled(s, e) && ByWorker(e) && AtMutex(e)
    ensures MutexAgrees(Step(s, e))
  {
  }

  lemma WorkerStepLeavesMutex(s: State, e: Event)
    requires MutexAgrees(s) && Enabled(s, e) && ByWorker(e) && !AtMutex(e)
    ensures MutexAgrees(Step(s, e))
  {
  }

  /** The steps of producers that go through a condition variable. */
  predicate AtCond(e: Event) { e.ProducerNotify? || e.SpuriousProducer? }

  lemma ProducerStepKeepsMutex(s: State, e: Event)
    requires MutexAgrees(s) && Enabled(s, e) && ByProducer(e) && !AtCond(e)
    ensures MutexAgrees(Step(s, e))
  {
  }

  lemma ProducerNotifyKeepsMutex(s: State, p: Id, woken: set<Id>)
    requires MutexAgrees(s) && CondsAgree(s) && Enabled(s, ProducerNotify(p, woken))
    ensures MutexAgrees(Step(s, ProducerNotify(p, woken)))
  {
    assert forall w :: w in woken ==> s.workers[w].Asleep?;
  }

  lemma ProducerSignalKeepsMutex(s: State, e: Event)
    requires MutexAgrees(s) && CondsAgree(s) && Enabled(s, e) && AtCond(e)
    ensures MutexAgrees(Step(s, e))
  {
    if e.ProducerNotify? { ProducerNotifyKeepsMutex(s, e.p, e.woken); }
  }

  lemma StopStepKeepsMutex(s: State, e: Event)
    requires MutexAgrees(s) && CondsAgree(s) && Enabled(s, e) && !ByProducer(e) && !ByWorker(e)
    ensures MutexAgrees(Step(s, e))
  {
  }

  lemma WorkerCheckKeepsConds(s: State, w: Id)
    requires CondsAgree(s) && Enabled(s, WorkerCheck(w))
    ensures CondsAgree(Step(s, WorkerCheck(w)))
  {
    assert Step(s, WorkerCheck(w)).producers == s.producers && Step(s, WorkerCheck(w)).notFull == s.notFull;
  }

  lemma WorkerStepKeepsConds(s: State, e: Event)
    requires MutexAgrees(s) && CondsAgree(s) && Enabled(s, e) && ByWorker(e) && AtMutex(e)
    ensures CondsAgree(Step(s, e))
  {
    if e.WorkerCheck? { WorkerCheckKeepsConds(s, e.w); }
  }

  lemma WorkerStepLeavesConds(s: State, e: Event)
    requires MutexAgrees(s) && CondsAgree(s) && Enabled(s, e) && ByWorker(e) && !AtMutex(e)
    ensures CondsAgree(Step(s, e))
  {
  }

  lemma NotifyKeepsConds(s: State, e: Event)
    requires MutexAgrees(s) && CondsAgree(s) && Enabled(s, e) && e.ProducerNotify?
    ensures CondsAgree(Step(s, e))
  {
  }

  lemma ProducerWaitKeepsConds(s: State, e: Event)
    requires MutexAgrees(s) && CondsAgree(s) && Enabled(s, e)
    requires e.ProducerLock? || e.ProducerCheck? || e.SpuriousProducer?
    ensures CondsAgree(Step(s, e))
  {
    assert Step(s, e).workers == s.workers && Step(s, e).notEmpty == s.notEmpty;
  }

  lemma ProducerStepKeepsConds(s: State, e: Event)
    requires MutexAgrees(s) && CondsAgree(s) && Enabled(s, e) && ByProducer(e) && !e.ProducerNotify?
    ensures CondsAgree(Step(s, e))
  {
    if e.ProducerLock? || e.ProducerCheck? || e.SpuriousProducer? {
      ProducerWaitKeepsConds(s, e);
    }
  }

  lemma StopStepKeepsConds(s: State, e: Event)
    requires MutexAgrees(s) && CondsAgree(s) && Enabled(s, e) && !ByWorker(e) && !ByProducer(e)
    ensures CondsAgree(Step(s, e))
  {
  }

  lemma WorkerStepKeepsStop(s: State, e: Event)
    requires Monitor(s) && Enabled(s, e) && ByWorker(e)
    ensures StopAgrees(Step(s, e))
  {
  }

  lemma OtherStepKeepsStop(s: State, e: Event)
    requires Monitor(s) && Enabled(s, e) && !ByWorker(e)
    ensures StopAgrees(Step(s, e))
  {
  }

  lemma WorkerStepKeepsTasksAnnounced(s: State, e: Event)
    requires Monitor(s) && Enabled(s, e) && ByWorker(e) && AtMutex(e)
    ensures TasksAreAnnounced(Step(s, e))
  {
  }

  lemma WorkerStepLeavesTasksAnnounced(s: State, e: Event)
    requires Monitor(s) && Enabled(s, e) && ByWorker(e) && !AtMutex(e) && !e.SpuriousWorker?
    ensures TasksAreAnnounced(Step(s, e))
  {
  }

  lemma SpuriousWakeupKeepsTasksAnnounced(s: State, w: Id)
    requires Monitor(s) && Enabled(s, SpuriousWorker(w))
    ensures TasksAreAnnounced(Step(s, SpuriousWorker(w)))
  {
    var t := Step(s, SpuriousWorker(w));
    assert |t.notEmpty.signalled| == |s.notEmpty.signalled| + 1 && t.queue == s.queue && t.owner == s.owner;
  }

  lemma OtherStepKeepsTasksAnnounced(s: State, e: Event)
    requires Monitor(s) && Enabled(s, e) && !ByWorker(e)
    ensures TasksAreAnnounced(Step(s, e))
  {
  }

  lemma WorkerStepKeepsSlotsAnnounced(s: State, e: Event)
    requires Monitor(s) && Enabled(s, e) && ByWorker(e) && AtMutex(e)
    ensures SlotsAreAnnounced(Step(s, e))
  {
  }

  /** A worker's step away from the mutex leaves the one that owns it where it is. */
  lemma OwnerStands(s: State, e: Event)
    requires MutexAgrees(s) && Enabled(s, e) && ByWorker(e) && !AtMutex(e)
    ensures Step(s, e).owner == s.owner && WorkerToNotify(Step(s, e)) == WorkerToNotify(s)
    ensures ProducerLooking(Step(s, e)) == ProducerLooking(s)
  {
  }

  lemma WorkerStepLeavesSlotsAnnounced(s: State, e: Event)
    requires Monitor(s) && Enabled(s, e) && ByWorker(e) && !AtMutex(e)
    ensures SlotsAreAnnounced(Step(s, e))
  {
    var t := Step(s, e);
    assert t.owner == s.owner && t.queue == s.queue && t.notFull == s.notFull && t.producers == s.producers;
    OwnerStands(s, e);
  }

  lemma ProducerStepKeepsSlotsAnnounced(s: State, e: Event)
    requires Monitor(s) && Enabled(s, e) && ByProducer(e)
    ensures SlotsAreAnnounced(Step(s, e))
  {
  }

  lemma StopStepKeepsSlotsAnnounced(s: State, e: Event)
    requires Monitor(s) && Enabled(s, e) && !ByWorker(e) && !ByProducer(e)
    ensures SlotsAreAnnounced(Step(s, e))
  {
  }

  lemma StepKeepsMonitor(s: State, e: Event)
    requires Monitor(s) && Enabled(s, e)
    ensures Monitor(Step(s, e))
  {
    if ByWorker(e) {
      if AtMutex(e) {
        WorkerStepKeepsMutex(s, e);
        WorkerStepKeepsConds(s, e);
        WorkerStepKeepsTasksAnnounced(s, e);
        WorkerStepKeepsSlotsAnnounced(s, e);
      } else {
        WorkerStepLeavesMutex(s, e);
        WorkerStepLeavesConds(s, e);
        if e.SpuriousWorker? {
          SpuriousWakeupKeepsTasksAnnounced(s, e.w);
        } else {
          WorkerStepLeavesTasksAnnounced(s, e);
        }
        WorkerStepLeavesSlotsAnnounced(s, e);
      }
    } else if ByProducer(e) {
      if AtCond(e) { ProducerSignalKeepsMutex(s, e); } else { ProducerStepKeepsMutex(s, e); }
      if e.ProducerNotify? { NotifyKeepsConds(s, e); } else { ProducerStepKeepsConds(s, e); }
      OtherStepKeepsTasksAnnounced(s, e);
      ProducerStepKeepsSlotsAnnounced(s, e);
    } else {
      StopStepKeepsMutex(s, e);
      StopStepKeepsConds(s, e);
      OtherStepKeepsTasksAnnounced(s, e);
      StopStepKeepsSlotsAnnounced(s, e);
    }
    if ByWorker(e) { WorkerStepKeepsStop(s, e); } else { OtherStepKeepsStop(s, e); }
  }

  /** Every reachable state of the pool satisfies the monitor invariant. */
  lemma {:induction false} RunKeepsMonitor(r: Run)
    requires Legal(r) && Monitor(Origin(r))
    ensures Monitor(Now(r)) && Now(r).capacity == Origin(r).capacity
  {
    match r
    case Start(_) =>
    case Then(past, e) =>
      RunKeepsMonitor(past);
      StepKeepsMonitor(Now(past), e);
      SameWorkers(Now(past), e);
  }

  lemma BegunIsMonitor(r: Run)
    requires FromStart(r)
    ensures Monitor(Origin(r)) && Monitor(Now(r))
  {
    RunKeepsMonitor(r);
  }

  // ---------------------------------------------------------------- no lost signals

  /**
   * No signal is lost: whenever the mutex is free, sleeping workers mean that every queued task has a woken worker
   * coming for it, and (until stop() clears the queue) sleeping producers that every free slot has a woken producer.
   */
  lemma NoSignalIsLost(r: Run)
    requires FromStart(r) && Now(r).owner.Nobody?
    ensures var s := Now(r);
            && (s.notEmpty.waiting != {} ==> |s.queue| <= |s.notEmpty.signalled|)
            && (s.notFull.waiting != {} && !s.stopping.Stopped? ==> s.capacity - |s.queue| <= |s.notFull.signalled|)
  {
    BegunIsMonitor(r);
  }

  /** Workers and producers are never all asleep together, if the pool has room for a task at all. */
  lemma NeverAllAsleep(r: Run)
    requires FromStart(r) && Now(r).capacity > 0 && Now(r).owner.Nobody? && !Now(r).stopping.Stopped?
    requires Now(r).notEmpty.waiting != {} && Now(r).notFull.waiting != {}
    ensures Now(r).notEmpty.signalled != {} || Now(r).notFull.signalled != {}
  {
    BegunIsMonitor(r);
    NoSignalIsLost(r);
    if Now(r).notEmpty.signalled == {} {
      assert |Now(r).queue| == 0;
      assert |Now(r).notFull.signalled| > 0;
    }
  }

  ghost predicate NothingAccepted(s: State) { s.capacity == 0 && s.accepted == [] }

  /** A pool started with no room never accepts a task: every addTask waits for ever. */
  lemma {:induction false} NoRoomNoTask(r: Run)
    requires Legal(r) && NothingAccepted(Origin(r))
    ensures NothingAccepted(Now(r))
  {
    match r
    case Start(_) =>
    case Then(past, e) =>
      NoRoomNoTask(past);
      NoRoomStep(Now(past), e);
  }

  lemma NoRoomStep(s: State, e: Event)
    requires NothingAccepted(s) && Enabled(s, e)
    ensures NothingAccepted(Step(s, e))
  {
  }

  // ---------------------------------------------------------------- a started pool works

  ghost predicate ExitedOnlyIfStopped(s: State) {
    s.started ==> forall w :: 0 <= w < |s.workers| ==> !s.workers[w].Exited?
  }

  lemma ExitStep(s: State, e: Event)
    requires ExitedOnlyIfStopped(s) && Enabled(s, e)
    ensures ExitedOnlyIfStopped(Step(s, e)) && (Step(s, e).started ==> s.started)
  {
  }

  /** A worker leaves runInThread only after the flag has gone down: a started pool keeps all its threads. */
  lemma {:induction false} NoWorkerLeavesAStartedPool(r: Run)
    requires FromStart(r)
    ensures ExitedOnlyIfStopped(Now(r))
  {
    match r
    case Start(_) =>
    case Then(past, e) =>
      NoWorkerLeavesAStartedPool(past);
      ExitStep(Now(past), e);
  }

  /**
   * No queued task waits for nothing: in a started pool with the mutex free, tasks in the queue and at least one worker
   * mean that some worker can take a step of its own.
   */
  lemma QueuedTaskHasAWorker(r: Run)
    requires FromStart(r) && Now(r).started && Now(r).owner.Nobody? && Now(r).queue != [] && |Now(r).workers| > 0
    ensures exists e :: Enabled(Now(r), e) && ByWorker(e) && !e.SpuriousWorker?
  {
    BegunIsMonitor(r);
    NoWorkerLeavesAStartedPool(r);
    SomeWorkerCanStep(Now(r));
  }

  lemma SomeWorkerCanStep(s: State)
    requires Monitor(s) && ExitedOnlyIfStopped(s) && s.started && s.owner.Nobody? && s.queue != [] && |s.workers| > 0
    ensures exists e :: Enabled(s, e) && ByWorker(e) && !e.SpuriousWorker?
  {
    var w: Id := 0;
    if s.workers[0].Asleep? {
      assert 0 in s.notEmpty.waiting;
      assert |s.notEmpty.signalled| > 0;
      w :| w in s.notEmpty.signalled;
    }
    WorkerCanStep(s, w);
    assert Enabled(s, WorkerNext(s, w));
  }

  /** How many steps of its own a worker is at most away from taking a task, in a started pool with tasks queued. */
  ghost function ToTake(pc: WorkerPc): nat {
    match pc
    case Checking => 1
    case Entering => 2
    case Signalled => 2
    case AtTest => 3
    case Running(_) => 4
    case Ready(_) => 5
    case Leaving(_) => 6
    case Popped(_) => 7
    case Asleep => 8
    case Exited => 9
  }

  /**
   * And the step leads somewhere: each step of a worker takes the oldest task or brings that worker nearer to taking
   * one. After its task it goes back to the test of the flag, and from there to the queue.
   */
  lemma WorkerGetsNearer(s: State, e: Event)
    requires s.started && s.queue != [] && Enabled(s, e) && ByWorker(e)
    ensures var t := Step(s, e);
            e.w < |t.workers| &&
            if e.WorkerCheck? then t.removed == s.removed + [Taken(s.queue[0], e.w)] && t.queue == s.queue[1..]
            else ToTake(t.workers[e.w]) < ToTake(s.workers[e.w])
  {
  }

  // ---------------------------------------------------------------- the tasks of addTask()

  /** The task that a thread came into addTask() with. */
  ghost function Offered(r: Run, p: Id): Task {
    match r
    case Start(_) => Empty
    case Then(past, ProducerEnter(q, t)) => if q == p then t else Offered(past, p)
    case Then(past, _) => Offered(past, p)
  }

  ghost predicate HoldsTask(s: State, p: Id, t: Task) {
    p in s.producers && !s.producers[p].PPushed? && !s.producers[p].PLeaving? ==> s.producers[p].t == t
  }

  ghost predicate HoldsOffered(s: State, r: Run) {
    forall p :: p in s.producers ==> HoldsTask(s, p, Offered(r, p))
  }

  /** Apart from coming in, no step changes the task in a thread's hands. */
  lemma TaskStays(s: State, e: Event, p: Id, t: Task)
    requires CondsAgree(s) && Enabled(s, e) && HoldsTask(s, p, t) && p in s.producers
    ensures HoldsTask(Step(s, e), p, t)
  {
    if ByProducer(e) && e.p != p {
      assert p in Step(s, e).producers ==> Step(s, e).producers[p] == s.producers[p];
    }
  }

  lemma ComesIn(s: State, e: Event, p: Id)
    requires Enabled(s, e) && p !in s.producers && p in Step(s, e).producers
    ensures e.ProducerEnter? && e.p == p && Step(s, e).producers[p] == PEntering(e.t)
  {
  }

  lemma OfferStep(past: Run, e: Event)
    requires Enabled(Now(past), e) && CondsAgree(Now(past)) && HoldsOffered(Now(past), past)
    ensures HoldsOffered(Step(Now(past), e), Then(past, e))
  {
    var s := Now(past);
    forall p | p in Step(s, e).producers
      ensures HoldsTask(Step(s, e), p, Offered(Then(past, e), p))
    {
      if p in s.producers { TaskStays(s, e, p, Offered(past, p)); } else { ComesIn(s, e, p); }
    }
  }

  /** A thread in addTask() holds the task it came with until that task is in the queue, however often it waits. */
  lemma {:induction false} TaskIsKept(r: Run)
    requires FromStart(r)
    ensures HoldsOffered(Now(r), r)
  {
    match r
    case Start(_) =>
    case Then(past, e) =>
      TaskIsKept(past);
      BegunIsMonitor(past);
      OfferStep(past, e);
  }

  /** The tasks of the threads that found room, in the order in which they did. */
  ghost function Pushed(r: Run): seq<Task> {
    match r
    case Start(_) => []
    case Then(past, ProducerCheck(p)) =>
      if |Now(past).queue| < Now(past).capacity then Pushed(past) + [Offered(past, p)] else Pushed(past)
    case Then(past, _) => Pushed(past)
  }

  lemma PushStep(past: Run, e: Event)
    requires Enabled(Now(past), e) && HoldsOffered(Now(past), past) && Now(past).accepted == Pushed(past)
    ensures Step(Now(past), e).accepted == Pushed(Then(past, e))
  {
    if e.ProducerCheck? { assert HoldsTask(Now(past), e.p, Offered(past, e.p)); }
  }

  /** The tasks accepted are those offered, one for each thread that found room, in that order. */
  lemma {:induction false} AcceptedAreOffered(r: Run)
    requires FromStart(r)
    ensures Now(r).accepted == Pushed(r)
  {
    match r
    case Start(_) =>
    case Then(past, e) =>
      AcceptedAreOffered(past);
      TaskIsKept(past);
      PushStep(past, e);
  }

  // ---------------------------------------------------------------- task conservation

  ghost function TasksOf(rs: seq<Removal>): (ts: seq<Task>)
    ensures |ts| == |rs| && forall i :: 0 <= i < |rs| ==> ts[i] == rs[i].t
  {
    seq(|rs|, i requires 0 <= i < |rs| => rs[i].t)
  }

  ghost predicate TasksConserved(s: State) {
    s.accepted == TasksOf(s.removed) + s.queue
  }

  lemma TasksOfBoth(rs: seq<Removal>, more: seq<Removal>)
    ensures TasksOf(rs + more) == TasksOf(rs) + TasksOf(more)
  {
  }

  lemma TakingConserves(s: State, w: Id)
    requires TasksConserved(s) && Enabled(s, WorkerCheck(w)) && s.queue != []
    ensures TasksConserved(Step(s, WorkerCheck(w)))
  {
    var first, rest := s.queue[0], s.queue[1..];
    TasksOfBoth(s.removed, [Taken(first, w)]);
    assert TasksOf([Taken(first, w)]) == [first] && s.queue == [first] + rest;
    assert TasksOf(s.removed) + ([first] + rest) == TasksOf(s.removed) + [first] + rest;
  }

  lemma AddingConserves(s: State, p: Id)
    requires TasksConserved(s) && Enabled(s, ProducerCheck(p)) && |s.queue| < s.capacity
    ensures TasksConserved(Step(s, ProducerCheck(p)))
  {
    var t := s.producers[p].t;
    assert TasksOf(s.removed) + s.queue + [t] == TasksOf(s.removed) + (s.queue + [t]);
  }

  lemma ClearingConserves(s: State)
    requires TasksConserved(s) && Enabled(s, StopJoin)
    ensures TasksConserved(Step(s, StopJoin))
  {
    TasksOfBoth(s.removed, ClearedAll(s.queue));
    assert TasksOf(ClearedAll(s.queue)) == s.queue;
    assert TasksOf(s.removed) + s.queue + [] == TasksOf(s.removed) + s.queue;
  }

  lemma StepConservesTasks(s: State, e: Event)
    requires TasksConserved(s) && Enabled(s, e)
    ensures TasksConserved(Step(s, e))
  {
    match e
    case WorkerCheck(w) => if s.queue != [] { TakingConserves(s, w); }
    case ProducerCheck(p) => if |s.queue| < s.capacity { AddingConserves(s, p); }
    case StopJoin => ClearingConserves(s);
    case _ =>
  }

  /** What worker w has taken from the queue, empty functions aside, in order. */
  ghost function TakenBy(rs: seq<Removal>, w: Id): seq<Task> {
    if rs == [] then []
    else
      var r := rs[|rs| - 1];
      TakenBy(rs[..|rs| - 1], w) + (if r.Taken? && r.taker == w && r.t.Job? then [r.t] else [])
  }

  /** What worker w has called, in order. */
  ghost function CalledBy(cs: seq<Call>, w: Id): seq<Task> {
    if cs == [] then []
    else
      var c := cs[|cs| - 1];
      CalledBy(cs[..|cs| - 1], w) + (if c.caller == w then [c.t] else [])
  }

  /** The task a worker holds but has not called. */
  ghost function InHand(pc: WorkerPc): seq<Task> {
    if (pc.Popped? || pc.Leaving? || pc.Ready?) && pc.t.Job? then [pc.t] else []
  }

  ghost predicate HandAgrees(s: State, w: Id) {
    TakenBy(s.removed, w) == CalledBy(s.calls, w) + (if w < |s.workers| then InHand(s.workers[w]) else [])
  }

  ghost predicate EachCalledByItsTaker(s: State) {
    forall w: Id :: HandAgrees(s, w)
  }

  lemma {:induction false} ClearingIsNotTaking(rs: seq<Removal>, q: seq<Task>, w: Id)
    ensures TakenBy(rs + ClearedAll(q), w) == TakenBy(rs, w)
    decreases |q|
  {
    if q == [] {
      assert rs + ClearedAll(q) == rs;
    } else {
      var m := |q| - 1;
      assert (rs + ClearedAll(q))[..|rs| + m] == rs + ClearedAll(q[..m]);
      ClearingIsNotTaking(rs, q[..m], w);
    }
  }

  /** A step moves no worker but the one that takes it, except that a notify may wake a sleeping one. */
  lemma OtherWorkersStay(s: State, e: Event, w: Id)
    requires CondsAgree(s) && Enabled(s, e) && w < |s.workers| && !(ByWorker(e) && e.w == w)
    ensures |Step(s, e).workers| == |s.workers|
    ensures var pc := Step(s, e).workers[w];
            pc == s.workers[w] || (s.workers[w].Asleep? && pc.Signalled?)
  {
  }

  ghost predicate BeginsTask(s: State, e: Event, w: Id) {
    e == WorkerCall(w) && Enabled(s, e) && s.workers[w].t.Job?
  }

  /** The task that a step makes worker w take, if any. */
  ghost function TakesNow(s: State, e: Event, w: Id): seq<Task> {
    if e == WorkerCheck(w) && s.queue != [] && s.queue[0].Job? then [s.queue[0]] else []
  }

  lemma TakenGrows(s: State, e: Event, w: Id)
    requires Enabled(s, e)
    ensures TakenBy(Step(s, e).removed, w) == TakenBy(s.removed, w) + TakesNow(s, e, w)
  {
    if e.StopJoin? {
      ClearingIsNotTaking(s.removed, s.queue, w);
    } else if e.WorkerCheck? && s.queue != [] {
      assert Step(s, e).removed[..|s.removed|] == s.removed;
    }
  }

  lemma CalledGrows(s: State, e: Event, w: Id)
    requires Enabled(s, e)
    ensures CalledBy(Step(s, e).calls, w)
            == CalledBy(s.calls, w) + (if BeginsTask(s, e, w) then [s.workers[w].t] else [])
  {
    if e.WorkerCall? && !s.workers[e.w].t.Empty? {
      assert Step(s, e).calls[..|s.calls|] == s.calls;
    }
  }

  /** What is in a worker's hands changes only by its own taking and calling. */
  lemma OwnHandChanges(s: State, e: Event)
    requires Enabled(s, e) && ByWorker(e) && WorkerAt(s, e.w)
    ensures |Step(s, e).workers| == |s.workers|
    ensures var before, after := InHand(s.workers[e.w]), InHand(Step(s, e).workers[e.w]);
            if TakesNow(s, e, e.w) != [] then before == [] && after == TakesNow(s, e, e.w) && !BeginsTask(s, e, e.w)
            else if BeginsTask(s, e, e.w) then before == [s.workers[e.w].t] && after == []
            else before == after
  {
  }

  lemma OtherHandStays(s: State, e: Event, w: Id)
    requires CondsAgree(s) && Enabled(s, e) && w < |s.workers| && !(ByWorker(e) && e.w == w)
    ensures |Step(s, e).workers| == |s.workers|
    ensures InHand(Step(s, e).workers[w]) == InHand(s.workers[w])
    ensures TakesNow(s, e, w) == [] && !BeginsTask(s, e, w)
  {
    OtherWorkersStay(s, e, w);
  }

  lemma StepKeepsTaker(s: State, e: Event, w: Id)
    requires CondsAgree(s) && HandAgrees(s, w) && Enabled(s, e)
    ensures HandAgrees(Step(s, e), w)
  {
    TakenGrows(s, e, w);
    CalledGrows(s, e, w);
    if w >= |s.workers| {
      SameWorkers(s, e);
    } else if ByWorker(e) && e.w == w {
      OwnHandChanges(s, e);
    } else {
      OtherHandStays(s, e, w);
    }
  }

  lemma StepKeepsTakers(s: State, e: Event)
    requires CondsAgree(s) && EachCalledByItsTaker(s) && Enabled(s, e)
    ensures EachCalledByItsTaker(Step(s, e))
  {
    forall w: Id
      ensures HandAgrees(Step(s, e), w)
    {
      assert HandAgrees(s, w);
      StepKeepsTaker(s, e, w);
    }
  }

  lemma SameWorkers(s: State, e: Event)
    requires Enabled(s, e)
    ensures |Step(s, e).workers| == |s.workers| && Step(s, e).capacity == s.capacity
  {
  }

  lemma {:induction false} RunKeepsTasks(r: Run)
    requires Legal(r) && Monitor(Origin(r)) && TasksConserved(Origin(r)) && EachCalledByItsTaker(Origin(r))
    ensures TasksConserved(Now(r)) && EachCalledByItsTaker(Now(r))
  {
    match r
    case Start(_) =>
    case Then(past, e) =>
      RunKeepsTasks(past);
      RunKeepsMonitor(past);
      StepConservesTasks(Now(past), e);
      StepKeepsTakers(Now(past), e);
  }

  /**
   * Tasks are conserved: in every run the accepted tasks, in order, are those popped or cleared by stop() followed
   * by those queued; the queue never exceeds its size; and each worker calls exactly the non-empty tasks it popped,
   * in order, each once, the last perhaps still in its hands.
   */
  lemma TasksAreConserved(r: Run, w: Id)
    requires FromStart(r) && w < |Now(r).workers|
    ensures Now(r).accepted == TasksOf(Now(r).removed) + Now(r).queue
    ensures |Now(r).queue| <= Now(r).capacity
    ensures TakenBy(Now(r).removed, w) == CalledBy(Now(r).calls, w) + InHand(Now(r).workers[w])
  {
    BegunIsMonitor(r);
    RunKeepsTasks(r);
    assert HandAgrees(Now(r), w);
  }

  // ---------------------------------------------------------------- shutdown

  /** How many steps of its own a worker is at most away from its exit once the pool is stopped. */
  ghost function Rank(pc: WorkerPc): nat {
    match pc
    case Exited => 0
    case AtTest => 1
    case Running(_) => 2
    case Ready(_) => 3
    case Leaving(_) => 4
    case Popped(_) => 5
    case Checking => 6
    case Entering => 7
    case Signalled => 7
    case Asleep => 8
  }

  ghost function TotalRank(ws: seq<WorkerPc>): nat {
    if ws == [] then 0 else TotalRank(ws[..|ws| - 1]) + Rank(ws[|ws| - 1])
  }

  lemma {:induction false} MovingChangesTotal(ws: seq<WorkerPc>, w: Id, pc: WorkerPc)
    requires w < |ws|
    ensures TotalRank(ws[w := pc]) == TotalRank(ws) - Rank(ws[w]) + Rank(pc)
  {
    var m := |ws| - 1;
    if w == m {
      assert ws[w := pc][..m] == ws[..m];
    } else {
      assert ws[w := pc][..m] == ws[..m][w := pc];
      MovingChangesTotal(ws[..m], w, pc);
    }
  }

  /** stop() has set the flag and notified everyone. */
  ghost predicate ShutDown(s: State) { !s.started && !s.stopping.Broadcasting? }

  lemma WorkerStepLowersRank(s: State, e: Event)
    requires ShutDown(s) && Enabled(s, e) && ByWorker(e) && WorkerAt(s, e.w)
    ensures TotalRank(Step(s, e).workers) < TotalRank(s.workers)
  {
    var w := e.w;
    var pc := Step(s, e).workers[w];
    assert Step(s, e).workers == s.workers[w := pc] && Rank(pc) < Rank(s.workers[w]);
    MovingChangesTotal(s.workers, w, pc);
  }

  /**
   * After stop() has notified, no worker sleeps, every step of a worker brings all of them closer to their exit,
   * and no step of anyone else moves a worker at all.
   */
  lemma ShutdownProgress(s: State, e: Event)
    requires Monitor(s) && ShutDown(s) && Enabled(s, e)
    ensures ShutDown(Step(s, e)) && s.notEmpty.waiting == {}
    ensures if ByWorker(e) then TotalRank(Step(s, e).workers) < TotalRank(s.workers)
            else Step(s, e).workers == s.workers
  {
    if ByWorker(e) {
      WorkerStepLowersRank(s, e);
    } else if e.ProducerNotify? {
      assert e.woken == {} && WakeWorkers(s.workers, e.woken) == s.workers;
    }
  }

  ghost function WorkerSteps(r: Run): nat {
    match r
    case Start(_) => 0
    case Then(past, e) => WorkerSteps(past) + (if ByWorker(e) then 1 else 0)
  }

  /** So after stop() has notified the workers take a bounded number of steps in all, whoever else takes how many. */
  lemma {:induction false} ShutdownBoundsTheRun(r: Run)
    requires Legal(r) && Monitor(Origin(r)) && ShutDown(Origin(r))
    ensures Monitor(Now(r)) && ShutDown(Now(r))
    ensures WorkerSteps(r) + TotalRank(Now(r).workers) <= TotalRank(Origin(r).workers)
  {
    match r
    case Start(_) =>
    case Then(past, e) =>
      ShutdownBoundsTheRun(past);
      ShutdownProgress(Now(past), e);
      StepKeepsMonitor(Now(past), e);
  }

  /** One arbitrary member, as a notify picks it. */
  ghost function Pick(c: Cond): (woken: set<Id>)
    ensures MaySignal(c, woken)
  {
    if c.waiting == {} then {} else var x :| x in c.waiting; {x}
  }

  /** What the thread that holds the mutex does next. */
  ghost function HolderNext(s: State): (e: Event)
    requires MutexAgrees(s) && !s.owner.Nobody?
  {
    match s.owner
    case Worker(w) =>
      (match s.workers[w]
       case Checking => WorkerCheck(w)
       case Popped(_) => WorkerNotify(w, Pick(s.notFull))
       case _ => WorkerUnlock(w))
    case Producer(p) =>
      (match s.producers[p]
       case PChecking(_) => ProducerCheck(p)
       case PPushed => ProducerNotify(p, Pick(s.notEmpty))
       case _ => ProducerUnlock(p))
    case _ => if s.stopping.Setting? then StopSet else if s.stopping.Broadcasting? then StopBroadcast else StopUnlock
  }

  lemma HolderCanStep(s: State)
    requires MutexAgrees(s) && !s.owner.Nobody?
    ensures Enabled(s, HolderNext(s))
  {
  }

  /** What a worker does next when the mutex is free. */
  ghost function WorkerNext(s: State, w: Id): Event
    requires w < |s.workers|
  {
    match s.workers[w]
    case AtTest => WorkerTest(w)
    case Ready(_) => WorkerCall(w)
    case Running(_) => WorkerReturn(w)
    case _ => WorkerLock(w)
  }

  lemma WorkerCanStep(s: State, w: Id)
    requires MutexAgrees(s) && s.owner.Nobody? && w < |s.workers| && !s.workers[w].Exited? && !s.workers[w].Asleep?
    ensures Enabled(s, WorkerNext(s, w))
  {
  }

  /** A step that is not an accident: of a worker, or of the producer or stop() that holds the mutex. */
  ghost predicate HelpsShutdown(s: State, e: Event) {
    && Enabled(s, e) && !e.SpuriousProducer? && !e.SpuriousWorker?
    && (ByWorker(e) || (s.owner.Producer? && ByProducer(e) && e.p == s.owner.p)
        || (s.owner.Stopper? && e == StopUnlock))
  }

  lemma WorkerOrHolderCanStep(s: State, w: Id)
    requires Monitor(s) && ShutDown(s) && w < |s.workers| && !s.workers[w].Exited?
    ensures HelpsShutdown(s, if s.owner.Nobody? then WorkerNext(s, w) else HolderNext(s))
  {
    if s.owner.Nobody? {
      assert s.workers[w].Asleep? ==> w in s.notEmpty.waiting;
      WorkerCanStep(s, w);
    } else {
      HolderCanStep(s);
    }
  }

  /**
   * No join in stop() waits for a deadlock: while some worker has not exited, either a worker can take a step, or the
   * mutex is held by a producer or by stop() and its holder can take a step. With the bound above every join returns,
   * if the mutex is fair to the workers and their tasks end.
   */
  lemma ShutdownNeverStuck(r: Run, w: Id)
    requires FromStart(r) && ShutDown(Now(r)) && w < |Now(r).workers| && !Now(r).workers[w].Exited?
    ensures exists e :: HelpsShutdown(Now(r), e)
  {
    BegunIsMonitor(r);
    WorkerOrHolderCanStep(Now(r), w);
  }

  /** How many tasks a worker may still begin once the flag is down: one if it has passed the test, else none. */
  ghost function Budget(pc: WorkerPc): nat {
    if pc.AtTest? || pc.Running? || pc.Exited? then 0 else 1
  }

  ghost function BegunBy(r: Run, w: Id): nat {
    match r
    case Start(_) => 0
    case Then(past, e) => BegunBy(past, w) + (if BeginsTask(Now(past), e, w) then 1 else 0)
  }

  lemma StepSpendsBudget(s: State, e: Event, w: Id)
    requires Monitor(s) && !s.started && Enabled(s, e) && w < |s.workers|
    ensures !Step(s, e).started && |Step(s, e).workers| == |s.workers|
    ensures Budget(Step(s, e).workers[w]) + (if BeginsTask(s, e, w) then 1 else 0) <= Budget(s.workers[w])
  {
    if !(ByWorker(e) && e.w == w) {
      OtherWorkersStay(s, e, w);
    }
  }

  /** Once the flag is down each worker begins at most one further task. */
  lemma {:induction false} AtMostOneMoreTask(r: Run, w: Id)
    requires Legal(r) && Monitor(Origin(r)) && !Origin(r).started && w < |Origin(r).workers|
    ensures !Now(r).started && |Now(r).workers| == |Origin(r).workers|
    ensures BegunBy(r, w) + Budget(Now(r).workers[w]) <= Budget(Origin(r).workers[w]) <= 1
  {
    match r
    case Start(_) =>
    case Then(past, e) =>
      AtMostOneMoreTask(past, w);
      RunKeepsMonitor(past);
      StepSpendsBudget(Now(past), e, w);
  }

  // ---------------------------------------------------------------- producers and stop()

  /** At every point of the run the producer is asleep. */
  ghost predicate AsleepThroughout(r: Run, p: Id) {
    p in Now(r).notFull.waiting && (r.Then? ==> AsleepThroughout(r.past, p))
  }

  /** The producer's own wait never returns spuriously; those of others may. */
  ghost predicate NeverSpurious(r: Run, p: Id) {
    r.Then? ==> NeverSpurious(r.past, p) && r.last != SpuriousProducer(p)
  }

  lemma StoppedStep(s: State, e: Event, p: Id)
    requires Monitor(s) && s.stopping.Stopped? && p in s.notFull.waiting && Enabled(s, e)
    ensures Step(s, e).stopping.Stopped?
    ensures p in Step(s, e).notFull.waiting <==> e != SpuriousProducer(p)
  {
  }

  /**
   * stop() never notifies cond_notFull_. So a producer that is asleep when stop() has returned stays asleep exactly as
   * long as its own wait does not return spuriously, although the queue it waits for has been emptied, and whatever
   * other producers do.
   */
  lemma {:induction false} StrandedUntilSpurious(r: Run, p: Id)
    requires Legal(r) && Monitor(Origin(r)) && Origin(r).stopping.Stopped? && p in Origin(r).notFull.waiting
    ensures AsleepThroughout(r, p) <==> NeverSpurious(r, p)
    ensures AsleepThroughout(r, p) ==> Monitor(Now(r)) && Now(r).stopping.Stopped?
  {
    match r
    case Start(_) =>
    case Then(past, e) =>
      StrandedUntilSpurious(past, p);
      if AsleepThroughout(past, p) {
        StepKeepsMonitor(Now(past), e);
        StoppedStep(Now(past), e, p);
      }
  }
}
