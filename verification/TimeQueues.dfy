/** TimeQueue and TimerInfo as objects: the ordered set, the timerfd and every TimerInfo, updated in place. */
module TimeQueues {
  import opened TimerFd
  import opened TimerProtocol

  /** Timestamp::nowAfter: a positive interval, in seconds, in whole microseconds, which can be zero. */
  function Micros(interval: real): (m: nat)
    ensures interval > 0.0 ==> m as real <= interval * 1000000.0 < m as real + 1.0
    ensures interval <= 0.0 ==> m == 0
  {
    if interval > 0.0 then (interval * 1000000.0).Floor else 0
  }

  /** A time is `interval` seconds after another, cut to whole microseconds. */
  ghost predicate SecondsAfter(interval: real, now: int, later: int) {
    (later - now) as real <= interval * 1000000.0 < (later - now) as real + 1.0
  }

  class TimerInfo {
    const sequence: nat     // counts TimerInfos from zero
    const repeat: bool
    const interval: real    // in seconds
    var expiration: int

    constructor (when: int, interval: real, sequence: nat)
      ensures Valid() && this.sequence == sequence && this.interval == interval && expiration == when
    {
      this.sequence, this.interval, repeat, expiration := sequence, interval, interval > 0.0, when;
    }

    ghost predicate Valid() { repeat == (interval > 0.0) }

    /** restart: a repeating timer is next due its interval from now; any other is given the zero time. */
    method Restart(now: int)
      requires Valid()
      modifies this
      ensures if interval > 0.0 then SecondsAfter(interval, now, expiration) else expiration == 0
      ensures repeat ==> expiration == now + Micros(interval)
    {
      if repeat {
        expiration := now + Micros(interval);
      } else {
        expiration := 0;
      }
    }
  }

  /** An element of timers_. */
  datatype Item = Item(when: int, timer: TimerInfo)

  function EntryOf(x: Item): Entry { Entry(x.when, x.timer.sequence) }

  function EntriesOf(xs: seq<Item>): (es: seq<Entry>)
    ensures |es| == |xs| && forall i :: 0 <= i < |xs| ==> es[i] == EntryOf(xs[i])
  {
    seq(|xs|, i requires 0 <= i < |xs| => EntryOf(xs[i]))
  }

  /** std::set::insert. */
  function InsertItem(xs: seq<Item>, x: Item): seq<Item> {
    if xs == [] then [x]
    else if Before(EntryOf(x), EntryOf(xs[0])) then [x] + xs
    else [xs[0]] + InsertItem(xs[1..], x)
  }

  lemma {:induction false} InsertItemIsInsert(xs: seq<Item>, x: Item)
    ensures EntriesOf(InsertItem(xs, x)) == Insert(EntriesOf(xs), EntryOf(x))
    ensures forall y :: y in InsertItem(xs, x) <==> y in xs || y == x
  {
    if xs != [] && !Before(EntryOf(x), EntryOf(xs[0])) {
      InsertItemIsInsert(xs[1..], x);
      assert EntriesOf(xs)[1..] == EntriesOf(xs[1..]);
      assert xs == [xs[0]] + xs[1..];
    } else if xs != [] {
      assert EntriesOf([x] + xs) == [EntryOf(x)] + EntriesOf(xs);
    }
  }

  lemma {:induction false} ExpiredCountIsTheCut(ts: seq<Entry>, now: int, n: nat)
    requires n <= |ts| && (forall i :: 0 <= i < n ==> ts[i].when <= now) && (n < |ts| ==> ts[n].when > now)
    ensures ExpiredCount(ts, now) == n
  {
    if n > 0 {
      ExpiredCountIsTheCut(ts[1..], now, n - 1);
    }
  }

  lemma Advance(es: seq<Entry>, i: nat)
    requires i < |es|
    ensures es[i..] != [] && es[i..][0] == es[i] && es[i..][1..] == es[i + 1..] && es[..i] + [es[i]] == es[..i + 1]
  {
  }

  /** The calls since `before` are one for each of the entries, in their order. */
  ghost predicate CalledInTurn(before: seq<Call>, after: seq<Call>, es: seq<Entry>) {
    && |after| == |before| + |es| && before <= after
    && forall i :: 0 <= i < |es| ==> after[|before| + i].id == es[i].id && after[|before| + i].due == es[i].when
  }

  lemma OneMoreCall(before: seq<Call>, calls: seq<Call>, es: seq<Entry>, i: nat, after: seq<Call>)
    requires i < |es| && CalledInTurn(before, calls, es[..i])
    requires |after| == |calls| + 1 && calls == after[..|calls|]
    requires after[|calls|].id == es[i].id && after[|calls|].due == es[i].when
    ensures CalledInTurn(before, after, es[..i + 1])
  {
  }

  class TimeQueue {
    var clock: int                // what Timestamp::now() reads
    var timerFd: Fd               // the kernel's timer behind timerfd_
    var timers: seq<Item>
    var called: seq<Call>         // the calls of callbacks, in order
    var created: nat              // TimerInfo::s_numCreated_
    var heap: set<TimerInfo>      // those made by new and not deleted
    ghost var all: seq<TimerInfo> // every TimerInfo ever created, by its sequence
    ghost var st: State           // where the protocol stands, histories included

    ghost predicate Known(xs: seq<Item>)
      reads this`all
    {
      forall x :: x in xs ==> x.timer.sequence < |all| && all[x.timer.sequence] == x.timer
    }

    ghost predicate Valid()
      reads this, all
    {
      && Reachable(st) && st.clock == clock && st.fd == timerFd && st.timers == EntriesOf(timers) && st.calls == called
      && created == |all| && Known(timers) && Matches(st.infos)
    }

    /** Every TimerInfo shows its record. */
    ghost predicate Matches(infos: seq<Timer>)
      reads this`all, this`heap, all
    {
      && |all| == |infos|
      && (forall id :: 0 <= id < |all| ==> all[id].sequence == id && Shows(all[id], infos[id]))
    }

    ghost predicate Shows(o: TimerInfo, t: Timer)
      reads o, this`heap
    {
      (o in heap <==> t.freed == 0) &&
      o.expiration == t.expiration && o.repeat == t.repeat && o.Valid() && t.delta == Micros(o.interval)
    }

    constructor (clock: int)
      ensures Valid() && st == Fresh(clock) && all == []
    {
      this.clock, timerFd, timers, called, created, heap := clock, Disarmed, [], [], 0, {};
      all := [];
      st := Fresh(clock);
      FreshIsReachable(clock);
    }

    ghost method Record(e: Event)
      requires Reachable(st) && Enabled(st, e)
      modifies this`st
      ensures Reachable(st) && st == Step(old(st), e)
    {
      ReachableGoesOn(st, e);
      st := Step(st, e);
    }

    /** No timer of the object is stranded: its timerfd wakes the loop by the time of each. */
    lemma EveryTimerWakes(x: Item)
      requires Valid() && x in timers
      ensures timerFd.Ready? || (timerFd.Armed? && timerFd.at <= Max(x.when, st.armedFrom + LEAST_DELAY))
    {
      var r :| Reaches(r, st);
      var i :| 0 <= i < |timers| && timers[i] == x;
      assert EntriesOf(timers)[i] == EntryOf(x);
      NoTimerIsStranded(r, EntryOf(x));
    }

    /** Between two handleReads a TimerInfo is allocated exactly if it is in the set: none leaks, none dangles. */
    lemma AllocatedIffInSet(id: Id)
      requires Valid() && st.phase.Idle? && id < |all|
      ensures all[id] in heap <==> Item(all[id].expiration, all[id]) in timers
    {
      var r :| Reaches(r, st);
      NoTimerIsLost(r, id);
      assert Shows(all[id], st.infos[id]);
      var e := Entry(st.infos[id].expiration, id);
      if e in EntriesOf(timers) {
        var i :| 0 <= i < |timers| && EntriesOf(timers)[i] == e;
        assert timers[i] in timers;
      }
      if Item(all[id].expiration, all[id]) in timers {
        var i :| 0 <= i < |timers| && timers[i] == Item(all[id].expiration, all[id]);
        assert EntriesOf(timers)[i] == e;
      }
    }

    /** A step that shows in no TimerInfo. */
    ghost method RecordQuietly(e: Event)
      requires Reachable(st) && Enabled(st, e) && Matches(st.infos)
      requires e.BeginHandle? || e.RunNext? || e.BeginReset? || e.EndReset?
      modifies this`st
      ensures Reachable(st) && st == Step(old(st), e) && Matches(st.infos)
    {
      Record(e);
      assert forall id :: 0 <= id < |all| ==> Shows(all[id], old(st).infos[id]);
    }

    lemma OneMoreMatches(infos: seq<Timer>, t: Timer)
      requires |all| == |infos| + 1 && all[|infos|].sequence == |infos| && Shows(all[|infos|], t)
      requires forall id :: 0 <= id < |infos| ==> all[id].sequence == id && Shows(all[id], infos[id])
      ensures Matches(infos + [t])
    {
    }

    /** The step that adds the TimerInfo created last. */
    ghost method RecordAdd(when: int, repeat: bool, delta: nat)
      requires Reachable(st) && Enabled(st, Add(when, repeat, delta)) && |all| == |st.infos| + 1
      requires all[|st.infos|].sequence == |st.infos| && Shows(all[|st.infos|], Created(when, repeat, delta))
      requires forall id :: 0 <= id < |st.infos| ==> all[id].sequence == id && Shows(all[id], st.infos[id])
      modifies this`st
      ensures Reachable(st) && Matches(st.infos) && st == Step(old(st), Add(when, repeat, delta))
    {
      Record(Add(when, repeat, delta));
      OneMoreMatches(old(st).infos, Created(when, repeat, delta));
    }

    /** The step that restarts or frees a TimerInfo which shows it already. */
    ghost method RecordReset(timer: TimerInfo)
      requires Reachable(st) && Enabled(st, ResetNext) && |all| == |st.infos|
      requires st.phase.todo[0].id == timer.sequence < |all| && all[timer.sequence] == timer
      requires forall k :: 0 <= k < |all| ==> all[k].sequence == k
      requires forall k :: 0 <= k < |all| && k != timer.sequence ==> Shows(all[k], st.infos[k])
      requires var t := st.infos[timer.sequence];
               Shows(timer, if t.repeat then Restarted(t, st.phase.now) else Freed(t))
      modifies this`st
      ensures Reachable(st) && Matches(st.infos) && st == Step(old(st), ResetNext)
    {
      Record(ResetNext);
      assert forall k :: 0 <= k < |all| && k != timer.sequence ==> st.infos[k] == old(st).infos[k];
    }

    /** Time passes, and the timerfd expires if it is due. */
    method Elapse(micros: nat)
      requires Valid()
      modifies this`clock, this`timerFd, this`st
      ensures Valid() && clock == old(clock) + micros && st.phase == old(st).phase
      ensures timerFd == if old(timerFd).Armed? && old(timerFd).at <= clock then Ready else old(timerFd)
    {
      clock := clock + micros;
      Record(Tick(clock));
      if timerFd.Armed? && timerFd.at <= clock {
        timerFd := Ready;
        Record(FdExpires);
      }
    }

    /** The insertion of addTimerInloop and reset: the set, and the timerfd if the new entry is the earliest. */
    method InsertAndArmItem(x: Item, ghost s: State)
      requires s.timers == EntriesOf(timers) && s.fd == timerFd && s.clock == clock
      modifies this`timers, this`timerFd
      ensures EntriesOf(timers) == InsertAndArm(s, EntryOf(x)).timers && timerFd == InsertAndArm(s, EntryOf(x)).fd
      ensures forall y :: y in timers <==> y in old(timers) || y == x
      ensures timerFd == (if old(timers) != [] && old(timers)[0].when <= x.when then old(timerFd)
                          else Armed(if x.when < clock + 100 then clock + 100 else x.when))
    {
      InsertItemIsInsert(timers, x);
      var first := timers == [] || x.when < timers[0].when;
      timers := InsertItem(timers, x);
      if first {
        ResetArms(x.when, clock);
        timerFd := ResetTimerFd(x.when, clock);
      }
    }

    /** addTimer with addTimerInloop, on the loop thread. */
    method AddTimer(when: int, interval: real)
      requires Valid() && !st.phase.Resetting?
      modifies this
      ensures Valid() && st == Step(old(st), Add(when, interval > 0.0, Micros(interval))) && clock == old(clock)
      ensures |all| == |old(all)| + 1 && old(all) == all[..|old(all)|] && fresh(all[|old(all)|])
      ensures var timer := all[|old(all)|];
              && timer.interval == interval && timer.expiration == when && heap == old(heap) + {timer}
              && forall y :: y in timers <==> y in old(timers) || y == Item(when, timer)
      ensures timerFd == (if old(timers) != [] && old(timers)[0].when <= when then old(timerFd)
                          else Armed(if when < clock + 100 then clock + 100 else when))
      ensures called == old(called)
    {
      var timer := new TimerInfo(when, interval, created);
      created, heap := created + 1, heap + {timer};
      all := all + [timer];
      ghost var t := Created(when, timer.repeat, Micros(interval));
      ghost var before := timers;
      InsertAndArmItem(Item(when, timer), st.(infos := st.infos + [t]));
      assert Known(timers) by { assert forall y :: y in timers ==> y in before || y == Item(when, timer); }
      RecordAdd(when, timer.repeat, Micros(interval));
    }

    /** A callback: any timers it adds, and the time it takes. */
    method RunCallback()
      requires Valid() && st.phase.Firing?
      modifies this
      ensures Valid() && st.phase == old(st).phase && called == old(called)
      ensures old(all) <= all && forall k :: |old(all)| <= k < |all| ==> fresh(all[k])
    {
      var n: nat := *;
      while n > 0
        invariant Valid() && st.phase == old(st).phase && called == old(called)
        invariant old(all) <= all && forall k :: |old(all)| <= k < |all| ==> fresh(all[k])
      {
        ghost var before := all;
        AddSomeTimer();
        assert forall k :: 0 <= k < |before| ==> all[k] == all[..|before|][k] == before[k];
        n := n - 1;
      }
    }

    method AddSomeTimer()
      requires Valid() && st.phase.Firing?
      modifies this
      ensures Valid() && st.phase == old(st).phase && called == old(called)
      ensures |all| == |old(all)| + 1 && old(all) == all[..|old(all)|] && fresh(all[|old(all)|])
    {
      var when: int, interval: real, micros: nat := *, *, *;
      AddTimer(when, interval);
      ghost var added := st;
      Elapse(micros);
      assert added.phase == old(st).phase;
    }

    /** lower_bound of (now, the greatest pointer): past every element that is due. */
    method LowerBound(now: int) returns (n: nat)
      ensures n <= |timers| && n == ExpiredCount(EntriesOf(timers), now)
    {
      n := 0;
      while n < |timers| && timers[n].when <= now
        invariant 0 <= n <= |timers| && forall i :: 0 <= i < n ==> timers[i].when <= now
      {
        n := n + 1;
      }
      ExpiredCountIsTheCut(EntriesOf(timers), now, n);
    }

    /** getAllExpiredTimers. */
    method GetAllExpiredTimers(now: int) returns (expired: seq<Item>)
      requires Valid() && Enabled(st, BeginHandle) && now == clock
      modifies this`timers, this`st
      ensures Valid() && st == Step(old(st), BeginHandle) && Known(expired)
      ensures st.phase == Firing(now, [], EntriesOf(expired))
      ensures expired == old(timers)[..ExpiredCount(old(st.timers), now)] && called == old(called)
    {
      var n := LowerBound(now);
      expired := timers[..n];
      timers := timers[n..];
      assert EntriesOf(expired) == st.timers[..n] && EntriesOf(timers) == st.timers[n..];
      RecordQuietly(BeginHandle);
    }

    /** One iteration of handleRead's loop: the callback is called, and may add timers. */
    method RunOne(elem: Item)
      requires Valid() && Known([elem]) && Enabled(st, RunNext) && st.phase.todo[0] == EntryOf(elem)
      modifies this
      ensures Valid()
      ensures st.phase == Firing(old(st).phase.now, old(st).phase.done + [EntryOf(elem)], old(st).phase.todo[1..])
      ensures called == old(called) + [Call(elem.timer.sequence, elem.when, old(clock))]
      ensures old(all) <= all && forall k :: |old(all)| <= k < |all| ==> fresh(all[k])
    {
      called := called + [Call(elem.timer.sequence, elem.when, clock)];
      RecordQuietly(RunNext);
      RunCallback();
    }

    /** The loop of handleRead over the expired timers. */
    method RunExpired(expired: seq<Item>)
      requires Valid() && Known(expired) && st.phase.Firing?
      requires st.phase == Firing(st.phase.now, [], EntriesOf(expired))
      modifies this
      ensures Valid() && Known(expired)
      ensures st.phase == Firing(old(st).phase.now, EntriesOf(expired), [])
      ensures CalledInTurn(old(called), called, EntriesOf(expired))
      ensures old(all) <= all && forall k :: |old(all)| <= k < |all| ==> fresh(all[k])
    {
      ghost var now, before := st.phase.now, called;
      ghost var es := EntriesOf(expired);
      var i := 0;
      assert es[..0] == [] && es[0..] == es;
      while i < |expired|
        invariant Valid() && Known(expired) && 0 <= i <= |expired|
        invariant st.phase == Firing(now, es[..i], es[i..])
        invariant CalledInTurn(before, called, es[..i])
        invariant old(all) <= all && forall k :: |old(all)| <= k < |all| ==> fresh(all[k])
      {
        Advance(es, i);
        assert expired[i] in expired;
        ghost var calls := called;
        RunOne(expired[i]);
        OneMoreCall(before, calls, es, i, called);
        i := i + 1;
      }
      assert es[..i] == es && es[i..] == [];
    }

    /** One step of reset's loop. */
    method ResetOne(elem: Item, now: int)
      requires Valid() && Known([elem]) && elem in [elem]
      requires Enabled(st, ResetNext) && st.phase.now == now && st.phase.todo[0] == EntryOf(elem)
      modifies this`timers, this`timerFd, this`heap, this`st, elem.timer
      ensures Valid() && st == Step(old(st), ResetNext)
      ensures PutBack(elem, now) && elem.timer.Valid()
      ensures forall y :: y in old(timers) ==> y in timers
      ensures forall o :: o != elem.timer ==> (o in heap <==> o in old(heap))
    {
      ghost var id := elem.timer.sequence;
      assert all[id] == elem.timer && Shows(elem.timer, st.infos[id]);
      if elem.timer.repeat {
        elem.timer.Restart(now);
        ghost var t := Restarted(st.infos[id], now);
        InsertAndArmItem(Item(elem.timer.expiration, elem.timer),
                         st.(phase := Resetting(now, st.phase.todo[1..]), infos := st.infos[id := t]));
      } else {
        heap := heap - {elem.timer};
      }
      RecordReset(elem.timer);
    }

    /** A called timer that repeats is in the set again, due its interval after `now`; any other is deleted. */
    ghost predicate PutBack(x: Item, now: int)
      reads this`timers, this`heap, x.timer
    {
      if x.timer.repeat then
        Item(x.timer.expiration, x.timer) in timers && x.timer.expiration == now + Micros(x.timer.interval)
      else x.timer !in heap
    }

    /** The same in the seconds that the timer was made with. */
    ghost predicate BackInSeconds(x: Item, now: int)
      reads this`timers, this`heap, x.timer
    {
      if x.timer.interval > 0.0 then
        Item(x.timer.expiration, x.timer) in timers && SecondsAfter(x.timer.interval, now, x.timer.expiration)
      else x.timer !in heap
    }

    lemma InSeconds(x: Item, now: int)
      requires x.timer.Valid() && PutBack(x, now)
      ensures BackInSeconds(x, now)
    {
    }

    ghost predicate Distinct(xs: seq<Item>) {
      forall i, j :: 0 <= i < j < |xs| ==> xs[i].timer != xs[j].timer
    }

    lemma CalledTimersAreDistinct(expired: seq<Item>)
      requires Valid() && st.phase.Resetting? && st.phase.todo == EntriesOf(expired)
      ensures Distinct(expired)
    {
      var r :| Reaches(r, st);
      CalledAreDistinct(r);
      assert CalledOf(st.phase) == EntriesOf(expired);
      DistinctById(expired);
    }

    lemma DistinctById(expired: seq<Item>)
      requires NoTwice(EntriesOf(expired))
      ensures Distinct(expired)
    {
      forall i, j | 0 <= i < j < |expired|
        ensures expired[i].timer != expired[j].timer
      {
        assert EntriesOf(expired)[i].id != EntriesOf(expired)[j].id;
      }
    }

    /** One iteration of reset's loop, and the time it takes. */
    method ResetNth(expired: seq<Item>, i: nat, now: int)
      requires Valid() && Known(expired) && i < |expired| && Distinct(expired)
      requires st.phase == Resetting(now, EntriesOf(expired)[i..])
      requires forall k :: 0 <= k < i ==> PutBack(expired[k], now) && expired[k].timer.Valid()
      modifies this`clock, this`timers, this`timerFd, this`heap, this`st, expired[i].timer
      ensures Valid() && st.phase == Resetting(now, EntriesOf(expired)[i + 1..])
      ensures forall k :: 0 <= k <= i ==> PutBack(expired[k], now) && expired[k].timer.Valid()
    {
      Advance(EntriesOf(expired), i);
      assert expired[i] in expired;
      var micros: nat := *;
      Elapse(micros);
      ResetOne(expired[i], now);
    }

    /** reset: repeating timers go back into the set, due their interval from `now`; the others are deleted. */
    method Reset(expired: seq<Item>, now: int)
      requires Valid() && Known(expired) && st.phase == Resetting(now, EntriesOf(expired))
      modifies this, all
      ensures Valid() && st.phase == Resetting(now, []) && all == old(all) && called == old(called)
      ensures forall x :: x in expired ==> BackInSeconds(x, now)
    {
      ghost var es := EntriesOf(expired);
      CalledTimersAreDistinct(expired);
      var i := 0;
      while i < |expired|
        invariant Valid() && Known(expired) && 0 <= i <= |expired| && all == old(all) && called == old(called)
        invariant st.phase == Resetting(now, es[i..])
        invariant forall k :: 0 <= k < i ==> PutBack(expired[k], now) && expired[k].timer.Valid()
      {
        assert expired[i] in expired;
        ResetNth(expired, i, now);
        i := i + 1;
      }
      assert es[i..] == [];
      forall x | x in expired
        ensures BackInSeconds(x, now)
      {
        InSeconds(x, now);
      }
    }

    /**
     * handleRead: exactly the timers due are called, once each and in order of expiration; then those that repeat are
     * in the set again, due their interval after the time of the call, and the others are deleted.
     */
    method HandleRead()
      requires Valid() && Enabled(st, BeginHandle)
      modifies this, all
      ensures Valid() && st.phase.Idle?
      ensures CalledInTurn(old(called), called, old(st.timers)[..ExpiredCount(old(st.timers), old(clock))])
      ensures var n := ExpiredCount(old(st.timers), old(clock));
              n <= |old(timers)| && forall x :: x in old(timers)[..n] ==> BackInSeconds(x, old(clock))
    {
      var now := clock;
      var expired := GetAllExpiredTimers(now);
      RunExpired(expired);
      RecordQuietly(BeginReset);
      Reset(expired, now);
      RecordQuietly(EndReset);
    }

    /**
     * How often a repeating timer can have been called, from the interval in seconds that it was made with: the calls
     * are that far apart, but for the part of a microsecond that is cut off.
     */
    lemma CallsAreApart(id: Id)
      requires Valid() && id < |all| && all[id].interval > 0.0
      ensures var n := CallsOf(called, id);
              n > 0 ==> (n - 1) as real * (all[id].interval * 1000000.0 - 1.0) <= (clock - st.infos[id].first) as real
    {
      var r :| Reaches(r, st);
      RunsAreCalls(r);
      RecordIsOk(r, id);
      assert Shows(all[id], st.infos[id]);
      var t, n := st.infos[id], CallsOf(called, id);
      if n > 0 {
        assert t.first + (n - 1) * t.delta <= clock;
        Scaled(n - 1, all[id].interval * 1000000.0 - 1.0, t.delta);
      }
    }
  }

  lemma Scaled(k: nat, x: real, d: int)
    requires x <= d as real
    ensures k as real * x <= (k * d) as real
  {
    assert k as real * x <= k as real * d as real;
    Product(k, d);
  }

  lemma {:induction false} Product(k: nat, d: int)
    ensures (k * d) as real == k as real * d as real
  {
    if k > 0 {
      Product(k - 1, d);
      assert k * d == (k - 1) * d + d;
    }
  }
}
