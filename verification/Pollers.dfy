/** Poller and Channel as objects: pollfds_, channels_ and every channel's index_ kept in agreement in place. */
module Pollers {
  import opened PollTable

  const POLLIN: bv16 := 0x1
  const POLLPRI: bv16 := 0x2
  const POLLOUT: bv16 := 0x4
  const POLLERR: bv16 := 0x8
  const POLLHUP: bv16 := 0x10
  const POLLNVAL: bv16 := 0x20
  const POLLRDHUP: bv16 := 0x2000

  datatype PollFd = PollFd(fd: int, events: bv16, revents: bv16)

  datatype Callback = OnClose | OnError | OnRead | OnWrite

  /** The callbacks of handleEvent in the order in which it tries them. */
  function Order(c: Callback): nat {
    match c case OnClose => 0 case OnError => 1 case OnRead => 2 case OnWrite => 3
  }

  /** What a callback is for: the revents bits it answers to. */
  predicate Concerns(c: Callback, revents: bv16) {
    match c
    case OnClose => revents & POLLHUP != 0 && revents & POLLIN == 0
    case OnError => revents & (POLLERR | POLLNVAL) != 0
    case OnRead => revents & (POLLIN | POLLPRI | POLLRDHUP) != 0
    case OnWrite => revents & POLLOUT != 0
  }

  /** The callbacks that are set and that the revents concern. */
  ghost function Due(callbacks: set<Callback>, revents: bv16): set<Callback> {
    set c | c in callbacks && Concerns(c, revents)
  }

  /** Some callbacks in the order close, error, read, write. */
  function Ordered(cs: set<Callback>): seq<Callback> {
    One(OnClose, cs) + One(OnError, cs) + One(OnRead, cs) + One(OnWrite, cs)
  }

  function One(c: Callback, cs: set<Callback>): seq<Callback> { if c in cs then [c] else [] }

  lemma OrderedIsExact(cs: set<Callback>)
    ensures forall c :: c in Ordered(cs) <==> c in cs
    ensures forall i, j :: 0 <= i < j < |Ordered(cs)| ==> Order(Ordered(cs)[i]) < Order(Ordered(cs)[j])
  {
    forall c
      ensures c in Ordered(cs) <==> c in cs
    {
      assert c in Ordered(cs)
             <==> c in One(OnClose, cs) || c in One(OnError, cs) || c in One(OnRead, cs) || c in One(OnWrite, cs);
      match c case OnClose => case OnError => case OnRead => case OnWrite =>
    }
  }

  lemma InTurn(s: seq<Callback>, a: seq<Callback>, b: seq<Callback>, c: seq<Callback>, d: seq<Callback>)
    ensures s + a + b + c + d == s + (a + b + c + d)
  {
  }

  /** Whether a bit is set, by its place in the word. */
  predicate Bit(word: bv16, place: nat)
    requires place < 16
  {
    (word >> place) & 1 == 1
  }

  /**
   * The same by the places that poll(2) on Linux gives the flags: POLLIN 0, POLLPRI 1, POLLOUT 2, POLLERR 3, POLLHUP 4,
   * POLLNVAL 5, POLLRDHUP 13.
   */
  lemma ConcernsByBit(revents: bv16)
    ensures Concerns(OnClose, revents) <==> Bit(revents, 4) && !Bit(revents, 0)
    ensures Concerns(OnError, revents) <==> Bit(revents, 3) || Bit(revents, 5)
    ensures Concerns(OnRead, revents) <==> Bit(revents, 0) || Bit(revents, 1) || Bit(revents, 13)
    ensures Concerns(OnWrite, revents) <==> Bit(revents, 2)
  {
  }

  /** The masks ask for what the callbacks answer to: reading for POLLIN and POLLPRI, writing for POLLOUT. */
  lemma MasksByBit(events: bv16)
    ensures events & READ_EVENT != 0 <==> Bit(events, 0) || Bit(events, 1)
    ensures events & WRITE_EVENT != 0 <==> Bit(events, 2)
    ensures READ_EVENT == POLLIN | POLLPRI && WRITE_EVENT == POLLOUT
  {
  }

  /** Two words differ in the bits of a mask at most. */
  predicate SameOtherBits(before: bv16, after: bv16, mask: bv16) { before & !mask == after & !mask }

  lemma SettingRead(e: bv16)
    ensures var n := e | READ_EVENT;
            && n & READ_EVENT != 0 && (n & WRITE_EVENT != 0 <==> e & WRITE_EVENT != 0)
            && Bit(n, 0) && Bit(n, 1) && SameOtherBits(e, n, READ_EVENT)
  {
  }

  lemma SettingWrite(e: bv16)
    ensures var n := e | WRITE_EVENT;
            && n & WRITE_EVENT != 0 && (n & READ_EVENT != 0 <==> e & READ_EVENT != 0)
            && Bit(n, 2) && SameOtherBits(e, n, WRITE_EVENT)
  {
  }

  lemma ClearingWrite(e: bv16)
    ensures var n := e & !WRITE_EVENT;
            && n & WRITE_EVENT == 0 && (n & READ_EVENT != 0 <==> e & READ_EVENT != 0)
            && !Bit(n, 2) && SameOtherBits(e, n, WRITE_EVENT)
  {
  }

  /** So poll's answer within a mask, errors and hang-ups aside, calls back exactly for what was asked and is ready. */
  lemma AskedIsAnswered(events: bv16, revents: bv16)
    requires revents & !(events | POLLERR | POLLHUP | POLLNVAL) == 0 && events & !(READ_EVENT | WRITE_EVENT) == 0
    ensures Concerns(OnRead, revents) <==> revents & READ_EVENT != 0
    ensures Concerns(OnRead, revents) ==> events & READ_EVENT != 0
    ensures Concerns(OnWrite, revents) <==> revents & WRITE_EVENT != 0
    ensures Concerns(OnWrite, revents) ==> events & WRITE_EVENT != 0
  {
  }

  class Channel {
    const poller: Poller
    const fd: int
    const callbacks: set<Callback>   // those that have been set
    var events: bv16
    var revents: bv16
    var index: int
    var eventHandling: bool
    var calls: seq<Callback>         // the calls its callbacks have had

    constructor (poller: Poller, fd: int, callbacks: set<Callback>)
      ensures this.poller == poller && this.fd == fd && this.callbacks == callbacks
      ensures events == NONE_EVENT && index == -1 && !eventHandling
    {
      this.poller, this.fd, this.callbacks := poller, fd, callbacks;
      events, revents, index, eventHandling, calls := NONE_EVENT, 0, -1, false, [];
    }

    /** Calls a callback, if it is set and due. The handling flag is up. */
    method CallIf(c: Callback, due: bool)
      requires eventHandling && due == Concerns(c, revents)
      modifies this`calls
      ensures calls == old(calls) + One(c, Due(callbacks, revents))
    {
      if due && c in callbacks {
        calls := calls + [c];
      }
    }

    /** handleEvent: makes exactly the calls that are due, each with the handling flag up; then the flag is down. */
    method HandleEvent()
      modifies this`eventHandling, this`calls
      ensures !eventHandling && calls == old(calls) + Ordered(Due(callbacks, revents))
    {
      eventHandling := true;
      CallIf(OnClose, revents & POLLHUP != 0 && revents & POLLIN == 0);
      CallIf(OnError, revents & (POLLERR | POLLNVAL) != 0);
      CallIf(OnRead, revents & (POLLIN | POLLPRI | POLLRDHUP) != 0);
      CallIf(OnWrite, revents & POLLOUT != 0);
      ghost var due := Due(callbacks, revents);
      InTurn(old(calls), One(OnClose, due), One(OnError, due), One(OnRead, due), One(OnWrite, due));
      eventHandling := false;
    }

    predicate IsNoneEvent() reads this { events == NONE_EVENT }
    predicate IsReading() reads this { events & READ_EVENT != 0 }
    predicate IsWriting() reads this { events & WRITE_EVENT != 0 }

    /** The state in which a channel may change its mask: new, or registered with its poller. */
    ghost predicate Usable()
      reads this, poller, poller.owners
    {
      && poller.Valid() && fd >= 0
      && (if index < 0 then !Has(poller.Slots(), fd) && this !in poller.owners else this in poller.owners)
    }

    /** update(), after the mask has changed. */
    method Tell()
      requires poller.ValidBut(this) && fd >= 0
      requires if index < 0 then !Has(poller.Slots(), fd) && this !in poller.owners else this in poller.owners
      modifies this`index, poller
      ensures Usable() && poller.Slots() == Update(old(poller.Slots()), fd, events)
    {
      poller.UpdateChannel(this);
    }

    twostate lemma StillAgrees()
      requires old(poller.Valid()) && old(poller.owners) == poller.owners && old(poller.pollfds) == poller.pollfds
      requires old(poller.channels) == poller.channels
      requires forall c :: c in poller.owners ==> c.index == old(c.index) && (c != this ==> c.events == old(c.events))
      ensures poller.ValidBut(this)
    {
      forall i | 0 <= i < |poller.owners| ensures poller.EntryAgrees(i, this) {
        assert old(poller.EntryAgrees(i, null));
      }
    }

    method EnableReading()
      requires Usable()
      modifies this`events, this`index, poller
      ensures Usable() && IsReading() && IsWriting() == old(IsWriting())
      ensures Bit(events, 0) && Bit(events, 1) && SameOtherBits(old(events), events, READ_EVENT)
      ensures poller.Slots() == Update(old(poller.Slots()), fd, events)
    {
      ghost var before := events;
      events := events | READ_EVENT;
      SettingRead(before);
      StillAgrees();
      Tell();
    }

    method EnableWriting()
      requires Usable()
      modifies this`events, this`index, poller
      ensures Usable() && IsWriting() && IsReading() == old(IsReading())
      ensures Bit(events, 2) && SameOtherBits(old(events), events, WRITE_EVENT)
      ensures poller.Slots() == Update(old(poller.Slots()), fd, events)
    {
      ghost var before := events;
      events := events | WRITE_EVENT;
      SettingWrite(before);
      StillAgrees();
      Tell();
    }

    method DisableWriting()
      requires Usable()
      modifies this`events, this`index, poller
      ensures Usable() && !IsWriting() && IsReading() == old(IsReading())
      ensures !Bit(events, 2) && SameOtherBits(old(events), events, WRITE_EVENT)
      ensures poller.Slots() == Update(old(poller.Slots()), fd, events)
    {
      ghost var before := events;
      events := events & !WRITE_EVENT;
      ClearingWrite(before);
      StillAgrees();
      Tell();
    }

    method DisableAll()
      requires Usable()
      modifies this`events, this`index, poller
      ensures Usable() && IsNoneEvent()
      ensures poller.Slots() == Update(old(poller.Slots()), fd, NONE_EVENT)
    {
      events := NONE_EVENT;
      StillAgrees();
      Tell();
    }

    /** remove(): the mask must be empty. `ok` is false when the poller dereferences a null channel. */
    method Remove() returns (ok: bool)
      requires Usable() && index >= 0 && IsNoneEvent()
      modifies poller, poller.owners`index
      ensures ok <==> Removable(old(poller.Slots()), fd)
      ensures ok ==> poller.Valid() && poller.Slots() == PollTable.Remove(old(poller.Slots()), fd)
      ensures ok ==> this !in poller.owners && index >= 0 && !Usable()   // a removed channel is retired
    {
      ok := poller.RemoveChannel(this);
    }
  }

  /** The table that pollfds_ and the owners of its entries stand for. */
  ghost function SlotsOf(p: seq<PollFd>, os: seq<Channel>): (t: Table)
    requires |p| == |os|
    ensures |t| == |p| && forall i :: 0 <= i < |p| ==> t[i] == Slot(os[i].fd, p[i].fd != -1, p[i].events)
  {
    seq(|p|, i requires 0 <= i < |p| && |p| == |os| => Slot(os[i].fd, p[i].fd != -1, p[i].events))
  }

  /** A new entry at the back is the table's update for an fd that it does not have. */
  lemma AddingIsUpdate(p: seq<PollFd>, os: seq<Channel>, c: Channel, events: bv16)
    requires |p| == |os| && !Has(SlotsOf(p, os), c.fd) && c.fd != -1
    ensures SlotsOf(p + [PollFd(c.fd, events, 0)], os + [c]) == Update(SlotsOf(p, os), c.fd, events)
  {
  }

  /** Writing an entry's mask, and -1 for its fd on an empty one, is the table's update. */
  lemma SettingIsUpdate(p: seq<PollFd>, os: seq<Channel>, i: nat, entry: PollFd)
    requires |p| == |os| && i < |p| && IndexOf(SlotsOf(p, os), os[i].fd) == i
    requires entry.fd == if entry.events == NONE_EVENT then -1 else p[i].fd
    ensures SlotsOf(p[i := entry], os) == Update(SlotsOf(p, os), os[i].fd, entry.events)
  {
  }

  /** Moving the last entry into the hole is the table's removal. */
  lemma MovingIsRemove(p: seq<PollFd>, os: seq<Channel>, i: nat, fd: int)
    requires |p| == |os| && i < |p| && Has(SlotsOf(p, os), fd) && IndexOf(SlotsOf(p, os), fd) == i
    ensures var last := |p| - 1;
            SlotsOf(p[i := p[last]][..last], os[i := os[last]][..last]) == Remove(SlotsOf(p, os), fd)
  {
  }

  /** How many entries report something, which is what poll() returns. POLL flags stay below 0x8000, so a non-zero
      revents is positive as the short it is. */
  function Reporting(p: seq<PollFd>): nat {
    if p == [] then 0 else (if p[0].revents > 0 then 1 else 0) + Reporting(p[1..])
  }

  /** The owners of the first n entries that report something, in slot order. */
  ghost function ReadyOwners(p: seq<PollFd>, os: seq<Channel>, n: nat): (r: seq<Channel>)
    requires n <= |os| == |p|
  {
    if n == 0 then [] else ReadyOwners(p, os, n - 1) + (if p[n - 1].revents > 0 then [os[n - 1]] else [])
  }

  lemma {:induction false} NoneReportingNoneReady(p: seq<PollFd>, os: seq<Channel>, n: nat)
    requires n <= |os| == |p| && Reporting(p[n..]) == 0
    ensures ReadyOwners(p, os, |p|) == ReadyOwners(p, os, n)
    ensures forall k :: n <= k < |p| ==> p[k].revents == 0
    decreases |p| - n
  {
    if n < |p| {
      assert p[n..][1..] == p[n + 1..] && p[n..][0] == p[n];
      NoneReportingNoneReady(p, os, n + 1);
    }
  }

  ghost predicate InSlotOrder(cs: seq<Channel>)
    reads cs`index
  {
    forall i, j :: 0 <= i < j < |cs| ==> cs[i].index < cs[j].index
  }

  class Poller {
    var pollfds: seq<PollFd>
    var channels: map<int, Channel>
    ghost var owners: seq<Channel>    // whose slot each entry of pollfds is

    /** Entry i, its owner's index_ and the map agree; `c` may have changed its mask without telling yet. */
    ghost predicate EntryAgrees(i: nat, c: Channel?)
      requires i < |owners| == |pollfds|
      reads this, owners`index, owners`events
    {
      var d := owners[i];
      && d.poller == this && d.fd >= 0 && d.index == i
      && d.fd in channels && channels[d.fd] == d
      && (pollfds[i].fd == d.fd || pollfds[i].fd == -1) && (d != c ==> pollfds[i].events == d.events)
    }

    ghost predicate ValidBut(c: Channel?)
      reads this, owners`index, owners`events
    {
      && |owners| == |pollfds| == |channels|
      && (forall i :: 0 <= i < |owners| ==> EntryAgrees(i, c))
      && (forall fd :: fd in channels ==> channels[fd] in owners && channels[fd].fd == fd)
    }

    ghost predicate Valid()
      reads this, owners`index, owners`events
    {
      ValidBut(null)
    }

    ghost function Slots(): Table
      requires |owners| == |pollfds|
      reads this
    {
      SlotsOf(pollfds, owners)
    }

    constructor ()
      ensures Valid() && Slots() == []
    {
      pollfds, channels, owners := [], map[], [];
    }

    /** A registered channel's index is the place of its fd in the table, and no two owners share an fd. */
    lemma IndexIsPlace(c: Channel, but: Channel?)
      requires ValidBut(but) && c in owners
      ensures 0 <= c.index < |owners| && owners[c.index] == c
      ensures Distinct(Slots()) && Has(Slots(), c.fd) && IndexOf(Slots(), c.fd) == c.index
    {
      var k :| 0 <= k < |owners| && owners[k] == c;
      assert EntryAgrees(k, but);
      assert Slots()[c.index].owner == c.fd;
      var i := IndexOf(Slots(), c.fd);
      assert EntryAgrees(i, but) && owners[i] == c;
      forall i, j | 0 <= i < j < |Slots()|
        ensures Slots()[i].owner != Slots()[j].owner
      {
        assert EntryAgrees(i, but) && EntryAgrees(j, but);
      }
    }

    /** The map holds a channel for an fd exactly when a slot of the table is the fd's. */
    lemma MapIsTable(fd: int, but: Channel?)
      requires ValidBut(but)
      ensures fd in channels <==> Has(Slots(), fd)
    {
      if fd in channels {
        var k :| 0 <= k < |owners| && owners[k] == channels[fd];
        assert Slots()[k].owner == fd;
      }
      if Has(Slots(), fd) {
        assert EntryAgrees(IndexOf(Slots(), fd), but);
      }
    }

    lemma KeysAreFds(fd: int)
      requires Valid() && fd in channels
      ensures fd >= 0
    {
      var k :| 0 <= k < |owners| && owners[k] == channels[fd];
      assert EntryAgrees(k, null);
    }

    /** updateChannel. */
    method UpdateChannel(c: Channel)
      requires ValidBut(c) && c.poller == this && c.fd >= 0
      requires if c.index < 0 then !Has(Slots(), c.fd) && c !in owners else c in owners
      modifies this, c`index
      ensures Valid() && c in owners && c.events == old(c.events) && 0 <= c.index < |pollfds|
      ensures pollfds[c.index].revents == 0
      ensures Slots() == Update(old(Slots()), c.fd, c.events)
      ensures owners == if old(c.index) < 0 then old(owners) + [c] else old(owners)
    {
      if c.index < 0 {
        AddEntry(c);
      } else {
        SetEntry(c);
      }
    }

    method AddEntry(c: Channel)
      requires ValidBut(c) && c.poller == this && c.fd >= 0 && !Has(Slots(), c.fd) && c !in owners
      modifies this, c`index
      ensures Valid() && owners == old(owners) + [c] && c.index == |old(owners)|
      ensures pollfds[c.index].revents == 0
      ensures Slots() == Update(old(Slots()), c.fd, c.events)
    {
      MapIsTable(c.fd, c);
      AddingIsUpdate(pollfds, owners, c, c.events);
      pollfds := pollfds + [PollFd(c.fd, c.events, 0)];
      var idx := |pollfds| - 1;
      c.index := idx;
      channels := channels[c.fd := c];
      owners := owners + [c];
      forall i | 0 <= i < |owners|
        ensures EntryAgrees(i, null)
      {
        assert i < idx ==> old(EntryAgrees(i, c));
      }
    }

    method SetEntry(c: Channel)
      requires ValidBut(c) && c in owners
      modifies this`pollfds
      ensures Valid() && Slots() == Update(old(Slots()), c.fd, c.events)
      ensures 0 <= c.index < |pollfds| && pollfds[c.index].revents == 0
    {
      IndexIsPlace(c, c);
      var idx := c.index;
      pollfds := pollfds[idx := pollfds[idx].(events := c.events, revents := 0)];
      if c.IsNoneEvent() {
        pollfds := pollfds[idx := pollfds[idx].(fd := -1)];
      }
      SettingIsUpdate(old(pollfds), owners, idx, pollfds[idx]);
      forall i | 0 <= i < |owners|
        ensures EntryAgrees(i, null)
      {
        assert old(EntryAgrees(i, c));
      }
    }

    /** Channel d agreed with its entry and the map before, and now has index `place`. */
    ghost predicate Moved(d: Channel, entry: PollFd, map0: map<int, Channel>, place: nat)
      reads d`index, d`events
    {
      && d.poller == this && d.fd >= 0 && d.fd in map0 && map0[d.fd] == d
      && (entry.fd == d.fd || entry.fd == -1) && entry.events == d.events && d.index == place
    }

    lemma BeforeMoving()
      requires Valid()
      ensures forall k :: 0 <= k < |owners| ==> Moved(owners[k], pollfds[k], channels, k)
      ensures forall i, j :: 0 <= i < j < |owners| ==> owners[i] != owners[j]
    {
      forall k | 0 <= k < |owners|
        ensures Moved(owners[k], pollfds[k], channels, k) && owners[k].index == k
      {
        assert EntryAgrees(k, null);
      }
    }

    /** Agreement after the last entry has taken the place of c's, from what the three structures were before. */
    lemma MovingKeepsAgreement(c: Channel, fds: seq<PollFd>, was: seq<Channel>, map0: map<int, Channel>,
                               idx: nat, last: nat)
      requires |was| == |fds| == |map0| == last + 1 && idx <= last && was[idx] == c
      requires forall k :: 0 <= k <= last ==> Moved(was[k], fds[k], map0, if k == last then idx else k)
      requires forall fd :: fd in map0 ==> map0[fd] in was && map0[fd].fd == fd
      requires forall k :: 0 <= k <= last && k != idx ==> was[k] != c
      requires channels == map0 - {c.fd}
      requires pollfds == fds[idx := fds[last]][..last] && owners == was[idx := was[last]][..last]
      ensures Valid() && c !in owners
    {
      forall i | 0 <= i < |owners|
        ensures EntryAgrees(i, null) && owners[i] != c
      {
        var k := if i == idx then last else i;
        assert owners[i] == was[k] && pollfds[i] == fds[k] && map0[was[k].fd] == was[k];
      }
      forall fd | fd in channels
        ensures channels[fd] in owners && channels[fd].fd == fd
      {
        var k :| 0 <= k <= last && was[k] == map0[fd];
        assert owners[if k == last then idx else k] == channels[fd];
      }
      assert |channels.Keys| == |channels| && |map0.Keys| == |map0|;
      assert channels.Keys == map0.Keys - {c.fd};
    }

    /**
     * removeChannel: swap with the last entry, re-index its channel, pop. The channel to re-index is looked up by
     * the fd in its slot, so the lookup finds a null channel exactly when that slot is disabled; then `ok` is false.
     */
    method RemoveChannel(c: Channel) returns (ok: bool)
      requires Valid() && c in owners
      modifies this, owners`index
      ensures ok <==> Removable(old(Slots()), c.fd)
      ensures ok ==> Valid() && Slots() == Remove(old(Slots()), c.fd) && c !in owners && c.index == old(c.index)
    {
      IndexIsPlace(c, null);
      var idx := c.index;
      var last := |pollfds| - 1;
      assert EntryAgrees(idx, null) && EntryAgrees(last, null);
      if pollfds[last].fd in channels {
        KeysAreFds(pollfds[last].fd);
      }
      ok := idx == last || pollfds[last].fd in channels - {c.fd};
      if !ok {
        channels := channels - {c.fd};
        pollfds := pollfds[idx := pollfds[last]][last := pollfds[idx]];
      } else {
        SwapAndPop(c);
      }
    }

    /** The part of removeChannel after the lookup has been found to succeed. */
    method SwapAndPop(c: Channel)
      requires Valid() && c in owners
      requires c.index == |pollfds| - 1
               || (pollfds[|pollfds| - 1].fd in channels - {c.fd}
                   && channels[pollfds[|pollfds| - 1].fd] == owners[|pollfds| - 1])
      modifies this, owners`index
      ensures Valid() && c !in owners && Slots() == Remove(old(Slots()), c.fd) && c.index == old(c.index)
    {
      IndexIsPlace(c, null);
      BeforeMoving();
      ghost var fds, was, map0 := pollfds, owners, channels;
      var idx := c.index;
      var last := |pollfds| - 1;
      channels := channels - {c.fd};
      if idx != last {
        SwapEntries(idx, last, owners[last]);
      }
      pollfds := pollfds[..last];
      owners := owners[idx := owners[last]][..last];
      MovingKeepsAgreement(c, fds, was, map0, idx, last);
      MovingIsRemove(fds, was, idx, c.fd);
    }

    /** Swaps two entries and tells the channel of the one that went to the front, found by the fd in the entry. */
    method SwapEntries(idx: nat, last: nat, ghost moved: Channel)
      requires idx < last == |pollfds| - 1
      requires pollfds[last].fd in channels && channels[pollfds[last].fd] == moved
      modifies this`pollfds, moved`index
      ensures |pollfds| == |old(pollfds)| && pollfds[..last] == old(pollfds)[idx := old(pollfds)[last]][..last]
      ensures moved.index == idx
    {
      pollfds := pollfds[idx := pollfds[last]][last := pollfds[idx]];
      channels[pollfds[idx].fd].index := idx;
    }

    /** What poll() promises: negative fds report nothing, and its result counts the entries that report. */
    ghost predicate PollContract(numEvents: nat)
      reads this
    {
      && numEvents == Reporting(pollfds)
      && (forall i :: 0 <= i < |pollfds| ==> pollfds[i].fd < 0 ==> pollfds[i].revents == 0)
    }

    lemma {:induction false} ReadyOwnersAre(n: nat)
      requires Valid() && n <= |owners|
      ensures forall c :: c in ReadyOwners(pollfds, owners, n) ==> c in owners && 0 <= c.index < n
      ensures forall k :: 0 <= k < n ==> (owners[k] in ReadyOwners(pollfds, owners, n) <==> pollfds[k].revents > 0)
    {
      if n > 0 {
        ReadyOwnersAre(n - 1);
        assert EntryAgrees(n - 1, null);
        assert owners[n - 1] !in ReadyOwners(pollfds, owners, n - 1);
        BeforeMoving();
      }
    }

    lemma {:induction false} ReadyOwnersInOrder(n: nat)
      requires Valid() && n <= |owners|
      ensures InSlotOrder(ReadyOwners(pollfds, owners, n))
    {
      if n > 0 {
        ReadyOwnersInOrder(n - 1);
        ReadyOwnersAre(n - 1);
        assert EntryAgrees(n - 1, null);
        var r := ReadyOwners(pollfds, owners, n - 1);
        assert forall i :: 0 <= i < |r| ==> r[i] in r;
      }
    }

    /** Looks up the channel of entry i and tells it what was reported. */
    method Report(i: nat) returns (channel: Channel)
      requires Valid() && i < |pollfds| && pollfds[i].fd >= 0
      modifies owners`revents
      ensures Valid() && channel == owners[i] && channel.revents == pollfds[i].revents
      ensures forall k :: 0 <= k < |owners| && k != i ==> owners[k].revents == old(owners[k].revents)
    {
      BeforeMoving();
      assert EntryAgrees(i, null);
      channel := channels[pollfds[i].fd];
      channel.revents := pollfds[i].revents;
    }

    /** Nothing but the entry at i is still to be looked at before those from i + 1 on. */
    lemma OneLess(i: nat)
      requires i < |pollfds| == |owners|
      ensures Reporting(pollfds[i..]) == (if pollfds[i].revents > 0 then 1 else 0) + Reporting(pollfds[i + 1..])
    {
      assert pollfds[i..][1..] == pollfds[i + 1..];
    }

    /** The channels of the first n entries that report something have been told so, and no other. */
    ghost predicate ToldUpTo(n: nat, before: seq<bv16>)
      requires |owners| == |pollfds| == |before|
      reads this, owners`revents
    {
      forall k :: 0 <= k < |owners| ==>
        owners[k].revents == if k < n && pollfds[k].revents > 0 then pollfds[k].revents else before[k]
    }

    ghost function Revents(): (rs: seq<bv16>)
      reads this, owners
      ensures |rs| == |owners| && forall k :: 0 <= k < |owners| ==> rs[k] == owners[k].revents
    {
      seq(|owners|, k requires 0 <= k < |owners| reads this, owners => owners[k].revents)
    }

    /** One step of the scan. */
    method ScanEntry(i: nat, activeChannels: seq<Channel>, ghost before: seq<bv16>) returns (more: seq<Channel>)
      requires Valid() && i < |pollfds| && pollfds[i].revents > 0 && pollfds[i].fd >= 0
      requires activeChannels == ReadyOwners(pollfds, owners, i) && |before| == |owners| && ToldUpTo(i, before)
      modifies owners`revents
      ensures Valid() && more == ReadyOwners(pollfds, owners, i + 1) && ToldUpTo(i + 1, before)
    {
      var channel := Report(i);
      more := activeChannels + [channel];
    }

    lemma NothingToTell(i: nat, before: seq<bv16>)
      requires i < |pollfds| == |owners| == |before| && !(pollfds[i].revents > 0) && ToldUpTo(i, before)
      ensures ToldUpTo(i + 1, before) && ReadyOwners(pollfds, owners, i + 1) == ReadyOwners(pollfds, owners, i)
    {
    }

    lemma NobodyElse(i: nat, before: seq<bv16>)
      requires i <= |pollfds| == |owners| == |before| && Reporting(pollfds[i..]) == 0 && ToldUpTo(i, before)
      ensures ToldUpTo(|pollfds|, before)
      ensures ReadyOwners(pollfds, owners, |pollfds|) == ReadyOwners(pollfds, owners, i)
    {
      NoneReportingNoneReady(pollfds, owners, i);
    }

    /** fillActiveChannels, which stops as soon as it has seen as many reports as poll() counted. */
    method FillActiveChannels(numEvents: nat) returns (activeChannels: seq<Channel>)
      requires Valid() && PollContract(numEvents)
      modifies owners`revents
      ensures Valid()
      ensures activeChannels == ReadyOwners(pollfds, owners, |pollfds|)
      ensures ToldUpTo(|pollfds|, old(Revents()))
    {
      var remaining, i := numEvents, 0;
      ghost var before := Revents();
      activeChannels := [];
      assert pollfds[0..] == pollfds;
      while i < |pollfds| && remaining > 0
        invariant 0 <= i <= |pollfds| && Valid()
        invariant remaining == Reporting(pollfds[i..])
        invariant activeChannels == ReadyOwners(pollfds, owners, i)
        invariant ToldUpTo(i, before)
      {
        OneLess(i);
        if pollfds[i].revents > 0 {
          remaining := remaining - 1;
          activeChannels := ScanEntry(i, activeChannels, before);
        } else {
          NothingToTell(i, before);
        }
        i := i + 1;
      }
      assert Reporting(pollfds[i..]) == 0;
      NobodyElse(i, before);
    }

    /** The kernel's part of poll(): it sets every revents. */
    method KernelPoll(answers: seq<bv16>)
      requires Valid() && |answers| == |pollfds|
      modifies this`pollfds
      ensures Valid() && Slots() == old(Slots())
      ensures forall i :: 0 <= i < |pollfds| ==> pollfds[i] == old(pollfds)[i].(revents := answers[i])
    {
      pollfds := seq(|pollfds|, i requires 0 <= i < |pollfds| == |answers| reads this =>
                       pollfds[i].(revents := answers[i]));
      assert forall i :: 0 <= i < |owners| ==> old(EntryAgrees(i, null)) ==> EntryAgrees(i, null);
    }

    /**
     * The active list is exact: given what poll() promises, it holds exactly the registered channels whose slot is
     * live and for which something is reported, once each and in slot order.
     */
    lemma ActiveListIsExact(numEvents: nat, c: Channel)
      requires Valid() && PollContract(numEvents)
      ensures var active := ReadyOwners(pollfds, owners, |pollfds|);
              && (c in active <==> c in owners && 0 <= c.index < |pollfds| && Slots()[c.index].live
                                   && pollfds[c.index].revents > 0)
              && InSlotOrder(active)
    {
      ReadyOwnersAre(|pollfds|);
      ReadyOwnersInOrder(|pollfds|);
      if c in owners {
        IndexIsPlace(c, null);
        assert EntryAgrees(c.index, null);
      }
    }

    /**
     * poll(): the kernel answers, and the channels that report something come back with their own revents. If it fails
     * (-1, an interruption included) the old revents stay in the table and no channel is active.
     */
    method Poll(answers: seq<bv16>, failed: bool) returns (activeChannels: seq<Channel>)
      requires Valid() && |answers| == |pollfds|
      requires forall i :: 0 <= i < |answers| ==> pollfds[i].fd < 0 ==> answers[i] == 0
      modifies this`pollfds, owners`revents
      ensures Valid() && Slots() == old(Slots())
      ensures failed ==> activeChannels == [] && pollfds == old(pollfds)
      ensures failed ==> Revents() == old(Revents())
      ensures !failed ==> PollContract(Reporting(pollfds))
      ensures !failed ==> forall i :: 0 <= i < |pollfds| ==> pollfds[i].revents == answers[i]
      ensures !failed ==> activeChannels == ReadyOwners(pollfds, owners, |pollfds|)
      ensures !failed ==> ToldUpTo(|pollfds|, old(Revents()))
    {
      activeChannels := [];
      var numEvents: int := -1;
      if !failed {
        KernelPoll(answers);
        numEvents := Reporting(pollfds);
      }
      if numEvents > 0 {
        activeChannels := FillActiveChannels(numEvents);
      } else if !failed {
        assert pollfds[0..] == pollfds;
        NoneReportingNoneReady(pollfds, owners, 0);
      }
    }
  }
}
