/**
 * The timers of one loop against its timerfd (zdq_time_queue.cpp, zdq_timer_info.h). Events are the steps of
 * handleRead, the callbacks it runs (which may add timers), timers added from anywhere else on the loop thread,
 * the passing of time and the expiry of the timerfd.
 */
module TimerProtocol {
  import opened TimerFd

  type Id = nat   // a TimerInfo, by the order of creation (its sequence_)

  /** An element of timers_: ordered by time, ties by TimerInfo. */
  datatype Entry = Entry(when: int, id: Id)

  /** Which place of the program owns a TimerInfo: the set, handleRead before or after its call, or nobody any more. */
  datatype Place = Queued | Due | Called | Gone

  /** A TimerInfo, with what has happened to it. */
  datatype Timer = Timer(
    first: int,           // the expiration it was created with
    repeat: bool,         // repeat_
    delta: nat,           // what restart adds to the current time, in microseconds
    expiration: int,      // expiration_, in microseconds
    runs: nat,            // history: calls of run()
    freed: nat,           // history: deletes
    place: Place          // history
  )

  /** A TimerInfo as its constructor leaves it. */
  function Created(when: int, repeat: bool, delta: nat): Timer {
    Timer(when, repeat, delta, when, 0, 0, Queued)
  }

  datatype Phase =
    | Idle
    | Firing(now: int, done: seq<Entry>, todo: seq<Entry>)  // running the callbacks of expired timers
    | Resetting(now: int, todo: seq<Entry>)                 // in reset()

  /** One call of a timer's callback. */
  datatype Call = Call(id: Id, due: int, at: int)

  datatype State = State(
    clock: int,
    fd: Fd,
    armedFrom: int,          // history: the time of the last timerfd_settime
    timers: seq<Entry>,      // timers_, in order
    infos: seq<Timer>,       // every TimerInfo ever created, by id
    phase: Phase,
    calls: seq<Call>         // history
  )

  function Fresh(start: int): State { State(start, Disarmed, start, [], [], Idle, []) }

  datatype Event =
    | Tick(to: int) | FdExpires
    | Add(when: int, repeat: bool, delta: nat)
    | BeginHandle | RunNext | BeginReset | ResetNext | EndReset

  predicate Before(a: Entry, b: Entry) {
    a.when < b.when || (a.when == b.when && a.id < b.id)
  }

  /** std::set::insert. */
  function Insert(ts: seq<Entry>, e: Entry): seq<Entry> {
    if ts == [] then [e]
    else if Before(e, ts[0]) then [e] + ts
    else [ts[0]] + Insert(ts[1..], e)
  }

  /** The number of elements before lower_bound of (now, the greatest pointer). */
  function ExpiredCount(ts: seq<Entry>, now: int): (n: nat)
    ensures n <= |ts|
    ensures forall i :: 0 <= i < n ==> ts[i].when <= now
    ensures n < |ts| ==> ts[n].when > now
  {
    if ts == [] || ts[0].when > now then 0 else 1 + ExpiredCount(ts[1..], now)
  }

  /** Insert an entry and, if it has become the earliest, arm the timerfd for it. */
  function InsertAndArm(s: State, e: Entry): State {
    var s' := s.(timers := Insert(s.timers, e));
    if s.timers == [] || e.when < s.timers[0].when then
      s'.(fd := ArmedFor(e.when, s.clock), armedFrom := s.clock)
    else s'
  }

  predicate Enabled(s: State, e: Event) {
    match e
    case Tick(to) => s.clock <= to
    case FdExpires => s.fd.Armed? && s.fd.at <= s.clock
    case Add(_, _, _) => !s.phase.Resetting?
    case BeginHandle => s.phase.Idle?
    case RunNext => s.phase.Firing? && s.phase.todo != [] && s.phase.todo[0].id < |s.infos|
    case BeginReset => s.phase.Firing? && s.phase.todo == []
    case ResetNext => s.phase.Resetting? && s.phase.todo != [] && s.phase.todo[0].id < |s.infos|
    case EndReset => s.phase.Resetting? && s.phase.todo == []
  }

  function Ran(t: Timer): Timer { t.(runs := t.runs + 1, place := Called) }
  function Freed(t: Timer): Timer { t.(freed := t.freed + 1, place := Gone) }
  function Restarted(t: Timer, now: int): Timer { t.(expiration := now + t.delta, place := Queued) }

  /** The bookkeeping of taking entries out of the set. */
  function TakenOut(infos: seq<Timer>, expired: seq<Entry>): (r: seq<Timer>)
    ensures |r| == |infos|
    ensures forall id :: 0 <= id < |infos| ==>
              r[id] == if Entry(infos[id].expiration, id) in expired then infos[id].(place := Due) else infos[id]
  {
    seq(|infos|, id requires 0 <= id < |infos| =>
          if Entry(infos[id].expiration, id) in expired then infos[id].(place := Due) else infos[id])
  }

  function Step(s: State, e: Event): State
    requires Enabled(s, e)
  {
    match e
    case Tick(to) => s.(clock := to)
    case FdExpires => s.(fd := Ready)
    case Add(when, repeat, delta) =>
      InsertAndArm(s.(infos := s.infos + [Created(when, repeat, delta)]), Entry(when, |s.infos|))
    case BeginHandle =>
      var n := ExpiredCount(s.timers, s.clock);
      s.(timers := s.timers[n..], phase := Firing(s.clock, [], s.timers[..n]),
         infos := TakenOut(s.infos, s.timers[..n]))
    case RunNext =>
      var x := s.phase.todo[0];
      s.(phase := Firing(s.phase.now, s.phase.done + [x], s.phase.todo[1..]),
         infos := s.infos[x.id := Ran(s.infos[x.id])],
         calls := s.calls + [Call(x.id, x.when, s.clock)])
    case BeginReset => s.(phase := Resetting(s.phase.now, s.phase.done))
    case ResetNext =>
      var x := s.phase.todo[0];
      var s := s.(phase := Resetting(s.phase.now, s.phase.todo[1..]));
      if s.infos[x.id].repeat then
        var t := Restarted(s.infos[x.id], s.phase.now);
        InsertAndArm(s.(infos := s.infos[x.id := t]), Entry(t.expiration, x.id))
      else s.(infos := s.infos[x.id := Freed(s.infos[x.id])])
    case EndReset => s.(phase := Idle)
  }

  datatype Run = Start(at: int) | Then(past: Run, last: Event)

  ghost predicate Legal(r: Run) {
    match r
    case Start(_) => true
    case Then(past, e) => Legal(past) && Enabled(Now(past), e)
  }

  ghost function Now(r: Run): State {
    match r
    case Start(at) => Fresh(at)
    case Then(past, e) => if Enabled(Now(past), e) then Step(Now(past), e) else Now(past)
  }

  ghost predicate Reaches(r: Run, s: State) { Legal(r) && Now(r) == s }

  ghost predicate Reachable(s: State) { exists r: Run :: Reaches(r, s) }

  lemma ReachableGoesOn(s: State, e: Event)
    requires Reachable(s) && Enabled(s, e)
    ensures Reachable(Step(s, e))
  {
    var r :| Reaches(r, s);
    assert Reaches(Then(r, e), Step(s, e));
  }

  lemma FreshIsReachable(start: int)
    ensures Reachable(Fresh(start))
  {
    assert Reaches(Start(start), Fresh(start));
  }

  // ---------------------------------------------------------------- the ordered set

  ghost predicate Sorted(ts: seq<Entry>) {
    forall i, j :: 0 <= i < j < |ts| ==> Before(ts[i], ts[j])
  }

  /** Insert keeps a sorted sequence sorted and adds exactly the entry. */
  lemma {:induction false} InsertIsSetInsert(ts: seq<Entry>, e: Entry)
    requires Sorted(ts) && e !in ts
    ensures var r := Insert(ts, e);
            && Sorted(r) && |r| == |ts| + 1 && (forall x :: x in r <==> x in ts || x == e)
            && r[0] == if ts == [] || Before(e, ts[0]) then e else ts[0]
  {
    if ts != [] && !Before(e, ts[0]) {
      InsertIsSetInsert(ts[1..], e);
      assert ts == [ts[0]] + ts[1..];
      var r := Insert(ts[1..], e);
      assert forall x :: x in r ==> Before(ts[0], x);
      assert forall i :: 0 <= i < |r| ==> r[i] in r;
    }
  }

  /** Cutting a sorted sequence parts its elements. */
  lemma CutParts(ts: seq<Entry>, n: nat)
    requires Sorted(ts) && n <= |ts|
    ensures Sorted(ts[..n]) && Sorted(ts[n..])
    ensures forall x :: x in ts <==> x in ts[..n] || x in ts[n..]
    ensures forall x, y :: x in ts[..n] && y in ts[n..] ==> Before(x, y)
  {
    assert ts == ts[..n] + ts[n..];
    forall x, y | x in ts[..n] && y in ts[n..]
      ensures Before(x, y)
    {
      var i :| 0 <= i < n && ts[i] == x;
      var j :| 0 <= j < |ts| - n && ts[n..][j] == y;
      assert ts[n + j] == y;
    }
  }

  // ---------------------------------------------------------------- no stranded timer

  /** The timerfd is readable, or armed for no later than a time or 100us after it was last armed. */
  ghost predicate WakesBy(s: State, when: int) {
    s.fd.Ready? || (s.fd.Armed? && s.fd.at <= Max(when, s.armedFrom + LEAST_DELAY))
  }

  /** If timers wait, the timerfd is readable, or armed for no later than the first, or than 100us after arming. */
  ghost predicate NotStranded(s: State) {
    s.timers != [] ==> WakesBy(s, s.timers[0].when)
  }

  lemma InsertKeepsNotStranded(s: State, e: Entry)
    requires Sorted(s.timers) && e !in s.timers && NotStranded(s)
    ensures NotStranded(InsertAndArm(s, e)) && Sorted(InsertAndArm(s, e).timers)
  {
    InsertIsSetInsert(s.timers, e);
  }

  // ---------------------------------------------------------------- ownership and pace

  ghost function DueOf(p: Phase): seq<Entry> { if p.Firing? then p.todo else [] }

  ghost function CalledOf(p: Phase): seq<Entry> {
    match p case Idle => [] case Firing(_, done, _) => done case Resetting(_, todo) => todo
  }

  /** A sequence holds exactly the timers that are in that place, each under its current expiration. */
  ghost predicate Lists(ts: seq<Entry>, infos: seq<Timer>, place: Place) {
    forall x: Entry :: x in ts <==> x.id < |infos| && infos[x.id].place == place && x.when == infos[x.id].expiration
  }

  ghost predicate OnePlace(s: State) {
    && Sorted(s.timers) && Sorted(DueOf(s.phase)) && Sorted(CalledOf(s.phase))
    && Lists(s.timers, s.infos, Queued) && Lists(DueOf(s.phase), s.infos, Due)
    && Lists(CalledOf(s.phase), s.infos, Called)
  }

  /** Those taken out are due, and are called in order. */
  ghost predicate InOrder(s: State) {
    && (!s.phase.Idle? ==> s.phase.now <= s.clock)
    && (forall x :: x in DueOf(s.phase) || x in CalledOf(s.phase) ==> x.when <= s.phase.now)
    && (s.phase.Firing? ==> forall x, y :: x in s.phase.done && y in s.phase.todo ==> Before(x, y))
  }

  /** When a timer is due for the (k+1)-th time if every call so far was as early as it may be. */
  ghost function Earliest(t: Timer, k: int): int { t.first + k * t.delta }

  /** What a timer's record must be, by its place: how often it can have run by its expiration and by now. */
  ghost predicate TimerOk(t: Timer, clock: int) {
    && (t.runs > 0 ==> Earliest(t, t.runs - 1) <= clock)
    && match t.place
       case Queued => t.freed == 0 && (!t.repeat ==> t.runs == 0) && t.expiration >= Earliest(t, t.runs)
       case Due => t.freed == 0 && (!t.repeat ==> t.runs == 0) && t.expiration >= Earliest(t, t.runs)
       case Called =>
         t.freed == 0 && t.runs > 0 && (!t.repeat ==> t.runs == 1) && t.expiration >= Earliest(t, t.runs - 1)
       case Gone => t.freed == 1 && !t.repeat && t.runs == 1
  }

  ghost predicate TimersOk(s: State) {
    forall id :: 0 <= id < |s.infos| ==> TimerOk(s.infos[id], s.clock)
  }

  ghost predicate Inv(s: State) {
    OnePlace(s) && InOrder(s) && TimersOk(s) && NotStranded(s)
  }

  lemma AddingElsewhereKeepsList(ts: seq<Entry>, infos: seq<Timer>, t: Timer, place: Place)
    requires Lists(ts, infos, place) && t.place != place
    ensures Lists(ts, infos + [t], place)
  {
  }

  lemma AddingQueues(ts: seq<Entry>, infos: seq<Timer>, t: Timer)
    requires Sorted(ts) && Lists(ts, infos, Queued) && t.place.Queued?
    ensures var x := Entry(t.expiration, |infos|);
            x !in ts && Lists(Insert(ts, x), infos + [t], Queued)
  {
    InsertIsSetInsert(ts, Entry(t.expiration, |infos|));
  }

  lemma AddKeepsOnePlace(s: State, when: int, repeat: bool, delta: nat)
    requires OnePlace(s) && NotStranded(s) && Enabled(s, Add(when, repeat, delta))
    ensures var t := Step(s, Add(when, repeat, delta)); OnePlace(t) && NotStranded(t)
  {
    var t := Created(when, repeat, delta);
    AddingQueues(s.timers, s.infos, t);
    AddingElsewhereKeepsList(DueOf(s.phase), s.infos, t, Due);
    AddingElsewhereKeepsList(CalledOf(s.phase), s.infos, t, Called);
    InsertKeepsNotStranded(s.(infos := s.infos + [t]), Entry(when, |s.infos|));
  }

  lemma AddKeepsInv(s: State, when: int, repeat: bool, delta: nat)
    requires Inv(s) && Enabled(s, Add(when, repeat, delta))
    ensures Inv(Step(s, Add(when, repeat, delta)))
  {
    AddKeepsOnePlace(s, when, repeat, delta);
    var t := Step(s, Add(when, repeat, delta));
    assert t.phase == s.phase && t.clock == s.clock && TimerOk(Created(when, repeat, delta), s.clock);
  }

  lemma TakingOutParts(ts: seq<Entry>, infos: seq<Timer>, n: nat)
    requires Sorted(ts) && n <= |ts| && Lists(ts, infos, Queued) && Lists([], infos, Due) && Lists([], infos, Called)
    ensures var taken := TakenOut(infos, ts[..n]);
            Lists(ts[n..], taken, Queued) && Lists(ts[..n], taken, Due) && Lists([], taken, Called)
  {
    CutParts(ts, n);
    var taken := TakenOut(infos, ts[..n]);
    forall x: Entry
      ensures x in ts[n..] <==> x.id < |taken| && taken[x.id].place == Queued && x.when == taken[x.id].expiration
      ensures x in ts[..n] <==> x.id < |taken| && taken[x.id].place == Due && x.when == taken[x.id].expiration
    {
      assert x in ts[..n] ==> x !in ts[n..];
    }
  }

  lemma BeginHandleSplits(s: State)
    requires Inv(s) && Enabled(s, BeginHandle)
    ensures var t := Step(s, BeginHandle);
            OnePlace(t) && InOrder(t) && (t.timers != [] ==> s.timers != [] && t.timers[0].when >= s.timers[0].when)
  {
    var n := ExpiredCount(s.timers, s.clock);
    CutParts(s.timers, n);
    TakingOutParts(s.timers, s.infos, n);
    assert forall x :: x in s.timers[..n] ==> x.when <= s.clock;
  }

  lemma BeginHandleKeepsInv(s: State)
    requires Inv(s) && Enabled(s, BeginHandle)
    ensures Inv(Step(s, BeginHandle))
  {
    BeginHandleSplits(s);
    var n := ExpiredCount(s.timers, s.clock);
    CutParts(s.timers, n);
    TakingOutKeepsRecords(s.infos, s.timers[..n], s.clock);
  }

  /** Being taken out does not change what a timer's record must be. */
  lemma TakingOutKeepsRecords(infos: seq<Timer>, expired: seq<Entry>, clock: int)
    requires forall id :: 0 <= id < |infos| ==> TimerOk(infos[id], clock)
    requires forall x :: x in expired ==> x.id < |infos| && infos[x.id].place == Queued
    ensures forall id :: 0 <= id < |infos| ==> TimerOk(TakenOut(infos, expired)[id], clock)
  {
  }

  /** Calling the first of the due timers moves it behind those called before. */
  lemma CallingMoves(due: seq<Entry>, called: seq<Entry>, infos: seq<Timer>)
    requires Sorted(due) && Sorted(called) && due != [] && Lists(due, infos, Due) && Lists(called, infos, Called)
    requires forall x, y :: x in called && y in due ==> Before(x, y)
    ensures var x := due[0];
            x.id < |infos| && infos[x.id].place.Due? &&
            var infos' := infos[x.id := Ran(infos[x.id])];
            && Sorted(due[1..]) && Sorted(called + [x])
            && Lists(due[1..], infos', Due) && Lists(called + [x], infos', Called)
            && (forall y, z :: y in called + [x] && z in due[1..] ==> Before(y, z))
  {
    var x := due[0];
    CutParts(due, 1);
    assert due[..1] == [x] && x in due && x !in due[1..];
    assert forall y :: y in called + [x] <==> y in called || y == x;
  }

  lemma CallingKeepsQueue(ts: seq<Entry>, infos: seq<Timer>, id: Id)
    requires id < |infos| && infos[id].place.Due? && Lists(ts, infos, Queued)
    ensures Lists(ts, infos[id := Ran(infos[id])], Queued)
  {
  }

  lemma RunNextKeepsOnePlace(s: State)
    requires OnePlace(s) && InOrder(s) && Enabled(s, RunNext)
    ensures OnePlace(Step(s, RunNext)) && InOrder(Step(s, RunNext))
  {
    assert DueOf(s.phase) == s.phase.todo && CalledOf(s.phase) == s.phase.done;
    CallingMoves(s.phase.todo, s.phase.done, s.infos);
    CallingKeepsQueue(s.timers, s.infos, s.phase.todo[0].id);
    assert s.phase.todo == [s.phase.todo[0]] + s.phase.todo[1..];
  }

  lemma CallKeepsPace(t: Timer, clock: int)
    requires TimerOk(t, clock) && t.place.Due? && t.expiration <= clock
    ensures TimerOk(Ran(t), clock)
  {
    assert Ran(t).runs - 1 == t.runs;
  }

  lemma RunNextKeepsRecords(s: State)
    requires TimersOk(s) && InOrder(s) && Lists(DueOf(s.phase), s.infos, Due) && Enabled(s, RunNext)
    ensures TimersOk(Step(s, RunNext))
  {
    var x := s.phase.todo[0];
    assert x in DueOf(s.phase);
    assert TimerOk(s.infos[x.id], s.clock);
    CallKeepsPace(s.infos[x.id], s.clock);
  }

  lemma RunNextKeepsInv(s: State)
    requires Inv(s) && Enabled(s, RunNext)
    ensures Inv(Step(s, RunNext))
  {
    RunNextKeepsOnePlace(s);
    RunNextKeepsRecords(s);
    var t := Step(s, RunNext);
    assert t.timers == s.timers && t.fd == s.fd && t.armedFrom == s.armedFrom;
  }

  /** Freeing the first of the called timers takes it out of every list. */
  lemma FreeingMoves(called: seq<Entry>, infos: seq<Timer>)
    requires Sorted(called) && called != [] && Lists(called, infos, Called)
    ensures var id := called[0].id;
            id < |infos| && infos[id].place.Called? &&
            Sorted(called[1..]) && Lists(called[1..], infos[id := Freed(infos[id])], Called)
  {
    var x := called[0];
    CutParts(called, 1);
    assert called[..1] == [x] && x in called && x !in called[1..];
  }

  lemma FreeingKeepsOtherList(ts: seq<Entry>, infos: seq<Timer>, id: Id, place: Place)
    requires id < |infos| && infos[id].place.Called? && !place.Called? && !place.Gone? && Lists(ts, infos, place)
    ensures Lists(ts, infos[id := Freed(infos[id])], place)
  {
  }

  lemma ResetNextFrees(s: State)
    requires Inv(s) && Enabled(s, ResetNext) && !s.infos[s.phase.todo[0].id].repeat
    ensures Inv(Step(s, ResetNext))
  {
    var id := s.phase.todo[0].id;
    FreeingMoves(s.phase.todo, s.infos);
    FreeingKeepsOtherList(s.timers, s.infos, id, Queued);
    FreeingKeepsOtherList([], s.infos, id, Due);
    assert TimerOk(s.infos[id], s.clock) && TimerOk(Freed(s.infos[id]), s.clock);
    assert forall y :: y in s.phase.todo[1..] ==> y in s.phase.todo;
  }

  lemma RestartKeepsPace(t: Timer, now: int, clock: int)
    requires TimerOk(t, clock) && t.place.Called? && t.repeat && t.expiration <= now
    ensures TimerOk(Restarted(t, now), clock)
  {
    assert Earliest(t, t.runs) == Earliest(t, t.runs - 1) + t.delta;
  }

  lemma PuttingBackMoves(ts: seq<Entry>, called: seq<Entry>, infos: seq<Timer>, now: int)
    requires Sorted(ts) && Sorted(called) && called != []
    requires Lists(ts, infos, Queued) && Lists(called, infos, Called) && Lists([], infos, Due)
    ensures var id := called[0].id;
            id < |infos| &&
            var t := Restarted(infos[id], now);
            var back := Entry(t.expiration, id);
            var infos' := infos[id := t];
            && back !in ts && Sorted(Insert(ts, back)) && Sorted(called[1..])
            && Lists(Insert(ts, back), infos', Queued) && Lists(called[1..], infos', Called) && Lists([], infos', Due)
  {
    var x := called[0];
    assert x in called;
    CutParts(called, 1);
    assert called[..1] == [x] && x !in called[1..];
    var back := Entry(now + infos[x.id].delta, x.id);
    InsertIsSetInsert(ts, back);
  }

  lemma RestartKeepsOnePlace(s: State)
    requires OnePlace(s) && NotStranded(s) && Enabled(s, ResetNext) && s.infos[s.phase.todo[0].id].repeat
    ensures var t := Step(s, ResetNext); OnePlace(t) && NotStranded(t)
  {
    var x := s.phase.todo[0];
    PuttingBackMoves(s.timers, s.phase.todo, s.infos, s.phase.now);
    var t := Restarted(s.infos[x.id], s.phase.now);
    var rest := Resetting(s.phase.now, s.phase.todo[1..]);
    InsertKeepsNotStranded(s.(phase := rest, infos := s.infos[x.id := t]), Entry(t.expiration, x.id));
  }

  lemma ResetNextRestarts(s: State)
    requires Inv(s) && Enabled(s, ResetNext) && s.infos[s.phase.todo[0].id].repeat
    ensures Inv(Step(s, ResetNext))
  {
    var x := s.phase.todo[0];
    assert x in s.phase.todo && TimerOk(s.infos[x.id], s.clock);
    RestartKeepsOnePlace(s);
    RestartKeepsPace(s.infos[x.id], s.phase.now, s.clock);
    assert forall y :: y in s.phase.todo[1..] ==> y in s.phase.todo;
  }

  lemma StepKeepsInv(s: State, e: Event)
    requires Inv(s) && Enabled(s, e)
    ensures Inv(Step(s, e))
  {
    match e
    case Add(when, repeat, delta) => AddKeepsInv(s, when, repeat, delta);
    case BeginHandle => BeginHandleKeepsInv(s);
    case RunNext => RunNextKeepsInv(s);
    case ResetNext =>
      if s.infos[s.phase.todo[0].id].repeat { ResetNextRestarts(s); } else { ResetNextFrees(s); }
    case _ =>
  }

  /** Every reachable state satisfies the invariant. */
  lemma {:induction false} RunKeepsInv(r: Run)
    requires Legal(r)
    ensures Inv(Now(r))
  {
    match r
    case Start(_) =>
    case Then(past, e) =>
      RunKeepsInv(past);
      StepKeepsInv(Now(past), e);
  }

  // ---------------------------------------------------------------- main results

  lemma SortedAndArmed(r: Run)
    requires Legal(r)
    ensures Sorted(Now(r).timers) && NotStranded(Now(r))
  {
    RunKeepsInv(r);
  }

  /**
   * No timer is stranded: after every step, timers added from inside running callbacks included, the timerfd wakes
   * the loop by the time of every waiting timer.
   */
  lemma NoTimerIsStranded(r: Run, x: Entry)
    requires Legal(r) && x in Now(r).timers
    ensures WakesBy(Now(r), x.when)
  {
    SortedAndArmed(r);
    EveryoneIsWoken(Now(r), x);
  }

  lemma EveryoneIsWoken(s: State, x: Entry)
    requires Sorted(s.timers) && NotStranded(s) && x in s.timers
    ensures WakesBy(s, x.when)
  {
    FirstIsEarliest(s.timers);
  }

  lemma FirstIsEarliest(ts: seq<Entry>)
    requires Sorted(ts)
    ensures forall x :: x in ts ==> ts[0].when <= x.when
  {
    forall x | x in ts
      ensures ts[0].when <= x.when
    {
      var i :| 0 <= i < |ts| && ts[i] == x;
      assert i > 0 ==> Before(ts[0], ts[i]);
    }
  }

  /** So once a timer is due and 100us have passed since arming, the timerfd is readable or expires now. */
  lemma DueTimersWakeTheLoop(r: Run, x: Entry)
    requires Legal(r) && x in Now(r).timers && x.when <= Now(r).clock && Now(r).armedFrom + LEAST_DELAY <= Now(r).clock
    ensures Now(r).fd.Ready? || Enabled(Now(r), FdExpires)
  {
    NoTimerIsStranded(r, x);
    WokenIfDue(Now(r), x.when);
  }

  lemma WokenIfDue(s: State, when: int)
    requires WakesBy(s, when) && Max(when, s.armedFrom + LEAST_DELAY) <= s.clock
    ensures s.fd.Ready? || Enabled(s, FdExpires)
  {
  }

  /** The cut of lower_bound parts the due from the others. */
  lemma CutIsByTime(ts: seq<Entry>, now: int, x: Entry)
    requires Sorted(ts) && x in ts
    ensures var n := ExpiredCount(ts, now);
            (x in ts[..n] <==> x.when <= now) && (x in ts[n..] <==> x.when > now)
  {
    var n := ExpiredCount(ts, now);
    CutParts(ts, n);
    if x in ts[n..] {
      FirstIsEarliest(ts[n..]);
    } else {
      var i :| 0 <= i < n && ts[..n][i] == x;
    }
  }

  /** Expiry splits the set exactly: handleRead takes out those due by its clock, in order, and leaves the others. */
  lemma ExpirySplitsExactly(r: Run, x: Entry)
    requires Legal(r) && Enabled(Now(r), BeginHandle) && x in Now(r).timers
    ensures var t := Step(Now(r), BeginHandle);
            && (x in t.phase.todo <==> x.when <= Now(r).clock)
            && (x in t.timers <==> x.when > Now(r).clock)
            && Now(r).timers == t.phase.todo + t.timers && Sorted(t.phase.todo)
  {
    SortedAndArmed(r);
    BeginSplits(Now(r), x);
  }

  lemma BeginSplits(s: State, x: Entry)
    requires Sorted(s.timers) && Enabled(s, BeginHandle) && x in s.timers
    ensures var t := Step(s, BeginHandle);
            && (x in t.phase.todo <==> x.when <= s.clock)
            && (x in t.timers <==> x.when > s.clock)
            && s.timers == t.phase.todo + t.timers && Sorted(t.phase.todo)
  {
    CutIsByTime(s.timers, s.clock, x);
    CutParts(s.timers, ExpiredCount(s.timers, s.clock));
  }

  lemma CallIsDue(s: State)
    requires InOrder(s) && Lists(DueOf(s.phase), s.infos, Due) && Enabled(s, RunNext)
    ensures var x := s.phase.todo[0];
            && x.when <= s.clock && s.infos[x.id].expiration == x.when
            && (forall y :: y in s.phase.done ==> y.when <= x.when)
  {
    var x := s.phase.todo[0];
    assert x in s.phase.todo && DueOf(s.phase) == s.phase.todo;
    forall y | y in s.phase.done
      ensures y.when <= x.when
    {
      assert Before(y, x);
    }
  }

  /** No callback runs before its time, and within one handleRead the calls are made in order of expiration. */
  lemma NoCallIsEarly(r: Run)
    requires Legal(r) && Enabled(Now(r), RunNext)
    ensures var s := Now(r);
            var x := s.phase.todo[0];
            && Step(s, RunNext).calls == s.calls + [Call(x.id, x.when, s.clock)]
            && x.when <= s.clock && s.infos[x.id].expiration == x.when
            && (forall y :: y in s.phase.done ==> y.when <= x.when)
  {
    RunKeepsInv(r);
    CallIsDue(Now(r));
  }

  /** How often a timer may have been called by now, and when it may have been freed. */
  ghost predicate WithinPace(t: Timer, now: int) {
    && (!t.repeat ==> t.runs <= 1 && t.freed <= 1 && (t.freed == 1 ==> t.runs == 1))
    && (t.repeat ==> t.freed == 0)
    && (t.runs > 0 ==> t.first <= now)
    && (t.delta > 0 && t.runs > 0 ==> t.runs <= 1 + (now - t.first) / t.delta)
  }

  lemma PaceBounds(t: Timer, now: int)
    requires TimerOk(t, now)
    ensures WithinPace(t, now)
  {
    if t.runs > 0 {
      Monotone(0, t.runs - 1, t.delta);
      if t.delta > 0 {
        QuotientBounds(t.runs - 1, t.delta, now - t.first);
      }
    }
  }

  lemma Monotone(a: int, b: int, d: nat)
    requires a <= b
    ensures a * d <= b * d
  {
  }

  lemma QuotientBounds(k: int, d: int, x: int)
    requires d > 0 && k * d <= x
    ensures k <= x / d
  {
    var q := x / d;
    assert x < (q + 1) * d;
    if k > q {
      Monotone(q + 1, k, d);
      assert false;
    }
  }

  lemma RecordIsOk(r: Run, id: Id)
    requires Legal(r) && id < |Now(r).infos|
    ensures TimerOk(Now(r).infos[id], Now(r).clock)
  {
    RunKeepsInv(r);
  }

  /**
   * Run counts: a one-shot timer is called at most once, and freed once, after its call and not before; a repeating
   * timer is never freed, and if its interval is i > 0 microseconds and it was first due at d, then by any time it
   * has been called at most 1 + (now - d) / i times.
   */
  lemma RunCountsAreBounded(r: Run, id: Id)
    requires Legal(r) && id < |Now(r).infos|
    ensures WithinPace(Now(r).infos[id], Now(r).clock)
  {
    RecordIsOk(r, id);
    PaceBounds(Now(r).infos[id], Now(r).clock);
  }

  /** The number of calls that the history of calls shows for a timer. */
  ghost function CallsOf(calls: seq<Call>, id: Id): nat {
    if calls == [] then 0
    else CallsOf(calls[..|calls| - 1], id) + (if calls[|calls| - 1].id == id then 1 else 0)
  }

  ghost predicate CallsCounted(s: State) {
    forall id: Id :: CallsOf(s.calls, id) == if id < |s.infos| then s.infos[id].runs else 0
  }

  lemma StepCountsCalls(s: State, e: Event)
    requires Enabled(s, e) && CallsCounted(s)
    ensures CallsCounted(Step(s, e))
  {
    if e.RunNext? {
      assert Step(s, e).calls[..|s.calls|] == s.calls;
    }
  }

  /** The run counts of the records are the calls made, no more and no less. */
  lemma {:induction false} RunsAreCalls(r: Run)
    requires Legal(r)
    ensures CallsCounted(Now(r))
  {
    match r
    case Start(_) =>
    case Then(past, e) =>
      RunsAreCalls(past);
      StepCountsCalls(Now(past), e);
  }

  /** Every TimerInfo that is not freed is in exactly one place: the set, or handleRead before or after its call. */
  lemma NoTimerIsLost(r: Run, id: Id)
    requires Legal(r) && id < |Now(r).infos|
    ensures var s := Now(r);
            var x := Entry(s.infos[id].expiration, id);
            && (s.infos[id].freed == 0 <==> x in s.timers || x in DueOf(s.phase) || x in CalledOf(s.phase))
            && !(x in s.timers && (x in DueOf(s.phase) || x in CalledOf(s.phase)))
            && !(x in DueOf(s.phase) && x in CalledOf(s.phase))
  {
    RunKeepsInv(r);
    assert TimerOk(Now(r).infos[id], Now(r).clock);
  }

  // ---------------------------------------------------------------- a readable timerfd with nothing due

  /** Whether a step calls timerfd_settime: it makes a new entry the earliest. */
  predicate Arms(s: State, e: Event)
    requires Enabled(s, e)
  {
    match e
    case Add(when, _, _) => s.timers == [] || when < s.timers[0].when
    case ResetNext =>
      var x := s.infos[s.phase.todo[0].id];
      x.repeat && (s.timers == [] || s.phase.now + x.delta < s.timers[0].when)
    case _ => false
  }

  ghost function Armings(r: Run): nat {
    match r
    case Start(_) => 0
    case Then(past, e) => Armings(past) + (if Enabled(Now(past), e) && Arms(Now(past), e) then 1 else 0)
  }

  ghost function Expiries(r: Run): nat {
    match r
    case Start(_) => 0
    case Then(past, e) => Expiries(past) + (if e.FdExpires? then 1 else 0)
  }

  ghost predicate Extends(since: Run, r: Run) {
    r == since || (r.Then? && Extends(since, r.past))
  }

  lemma StepReadiness(s: State, e: Event)
    requires Enabled(s, e)
    ensures Step(s, e).fd.Ready? <==> e.FdExpires? || (s.fd.Ready? && !Arms(s, e))
  {
  }

  /**
   * Nothing but arming ends readiness, because the timerfd is never read: from a state in which it is readable, and
   * until it expires again, it is still readable exactly if no timer has become the earliest since.
   */
  lemma {:induction false} ReadyUntilArmed(since: Run, r: Run)
    requires Legal(r) && Extends(since, r) && Now(since).fd.Ready? && Expiries(r) == Expiries(since)
    ensures Armings(r) >= Armings(since)
    ensures Now(r).fd.Ready? <==> Armings(r) == Armings(since)
  {
    if r != since {
      CountsGrow(since, r.past);
      ReadyUntilArmed(since, r.past);
      StepReadiness(Now(r.past), r.last);
    }
  }

  lemma {:induction false} CountsGrow(since: Run, r: Run)
    requires Extends(since, r)
    ensures Armings(r) >= Armings(since) && Expiries(r) >= Expiries(since)
  {
    if r != since {
      CountsGrow(since, r.past);
    }
  }

  /**
   * And then poll spins: between two handleReads with the timerfd readable, handleRead calls nothing and leaves the
   * very same state, timerfd included, exactly if no timer is due. So it is called again at once, until time passes.
   */
  lemma HandleReadSpinsIff(r: Run)
    requires Legal(r) && Now(r).phase.Idle? && Now(r).fd.Ready?
    ensures var s := Now(r);
            var begun := Step(s, BeginHandle);
            && (begun.phase.todo == [] <==> forall x :: x in s.timers ==> x.when > s.clock)
            && (begun.phase.todo == [] ==> Enabled(begun, BeginReset) && Enabled(Step(begun, BeginReset), EndReset)
                                           && Step(Step(begun, BeginReset), EndReset) == s)
  {
    SortedAndArmed(r);
    var s := Now(r);
    var n := ExpiredCount(s.timers, s.clock);
    if n == 0 {
      FirstIsEarliest(s.timers);
      assert s.timers[..n] == [] && s.timers[n..] == s.timers;
      assert TakenOut(s.infos, []) == s.infos;
    } else {
      assert s.timers[0] in s.timers && s.timers[..n][0] == s.timers[0];
    }
  }

  // ---------------------------------------------------------------- what the events alone say

  ghost predicate NoTwice(es: seq<Entry>) { forall i, j :: 0 <= i < j < |es| ==> es[i].id != es[j].id }

  /** The timers that reset has still to deal with are all different. */
  lemma CalledAreDistinct(r: Run)
    requires Legal(r)
    ensures NoTwice(CalledOf(Now(r).phase))
  {
    RunKeepsInv(r);
    DistinctIds(CalledOf(Now(r).phase), Now(r).infos);
  }

  lemma DistinctIds(es: seq<Entry>, infos: seq<Timer>)
    requires Sorted(es) && Lists(es, infos, Called)
    ensures NoTwice(es)
  {
    forall i, j | 0 <= i < j < |es|
      ensures es[i].id != es[j].id
    {
      assert es[i] in es && es[j] in es && Before(es[i], es[j]);
    }
  }

  /** What each timer was added with, by the order of creation. */
  ghost function Added(r: Run): seq<Timer> {
    match r
    case Start(_) => []
    case Then(past, Add(when, repeat, delta)) => Added(past) + [Timer(when, repeat, delta, when, 0, 0, Queued)]
    case Then(past, _) => Added(past)
  }

  /** The record is of the timer added, and as long as it has not been called its expiration is the one asked for. */
  ghost predicate RecordOf(t: Timer, added: Timer) {
    && t.first == added.first && t.repeat == added.repeat && t.delta == added.delta
    && (t.runs == 0 ==> t.expiration == added.first)
  }

  ghost predicate RecordsAgree(infos: seq<Timer>, added: seq<Timer>) {
    |infos| == |added| && forall id :: 0 <= id < |infos| ==> RecordOf(infos[id], added[id])
  }

  lemma TakenOutAgrees(infos: seq<Timer>, expired: seq<Entry>, added: seq<Timer>)
    requires RecordsAgree(infos, added)
    ensures RecordsAgree(TakenOut(infos, expired), added)
  {
  }

  lemma ChangedAgrees(infos: seq<Timer>, id: Id, t: Timer, added: seq<Timer>)
    requires RecordsAgree(infos, added) && id < |infos| && RecordOf(t, added[id])
    ensures RecordsAgree(infos[id := t], added)
  {
  }

  lemma RecordStep(s: State, e: Event, added: seq<Timer>)
    requires Enabled(s, e) && RecordsAgree(s.infos, added) && !e.Add?
    requires e.ResetNext? ==> s.infos[s.phase.todo[0].id].runs > 0
    ensures RecordsAgree(Step(s, e).infos, added)
  {
    match e
    case BeginHandle => TakenOutAgrees(s.infos, s.timers[..ExpiredCount(s.timers, s.clock)], added);
    case RunNext =>
      var id := s.phase.todo[0].id;
      ChangedAgrees(s.infos, id, Ran(s.infos[id]), added);
    case ResetNext =>
      var id := s.phase.todo[0].id;
      var t := if s.infos[id].repeat then Restarted(s.infos[id], s.phase.now) else Freed(s.infos[id]);
      ChangedAgrees(s.infos, id, t, added);
    case _ =>
  }

  lemma CalledHaveRun(s: State)
    requires Inv(s) && Enabled(s, ResetNext)
    ensures s.infos[s.phase.todo[0].id].runs > 0
  {
    var x := s.phase.todo[0];
    assert x in CalledOf(s.phase) && TimerOk(s.infos[x.id], s.clock);
  }

  /** The records are of the timers added, in the order of creation. */
  lemma {:induction false} RecordsAreAdded(r: Run)
    requires Legal(r)
    ensures RecordsAgree(Now(r).infos, Added(r))
  {
    match r
    case Start(_) =>
    case Then(past, e) =>
      RecordsAreAdded(past);
      if e.Add? {
      } else {
        RunKeepsInv(past);
        if e.ResetNext? { CalledHaveRun(Now(past)); }
        RecordStep(Now(past), e, Added(past));
      }
  }

  /** The clock, and the clock when a timer last became the earliest. */
  ghost function Clock(r: Run): int {
    match r
    case Start(at) => at
    case Then(_, Tick(to)) => to
    case Then(past, _) => Clock(past)
  }

  ghost function LastArmed(r: Run): int {
    match r
    case Start(at) => at
    case Then(past, e) => if Enabled(Now(past), e) && Arms(Now(past), e) then Clock(past) else LastArmed(past)
  }

  lemma TimeStep(s: State, e: Event)
    requires Enabled(s, e)
    ensures Step(s, e).clock == if e.Tick? then e.to else s.clock
    ensures Step(s, e).armedFrom == if Arms(s, e) then s.clock else s.armedFrom
  {
  }

  /** So the 100 microseconds are counted from the last time a timer became the earliest, and from no later time. */
  lemma {:induction false} TimesAreHistory(r: Run)
    requires Legal(r)
    ensures Now(r).clock == Clock(r) && Now(r).armedFrom == LastArmed(r) <= Clock(r)
  {
    match r
    case Start(_) =>
    case Then(past, e) =>
      TimesAreHistory(past);
      TimeStep(Now(past), e);
  }
}
