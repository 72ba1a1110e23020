/** The poll table on values: which slot belongs to whom, under registration, update and swap-with-last removal. */
module PollTable {

  /** One entry of pollfds_: whose it is, whether its fd is still the owner's (or -1), and the mask polled for. */
  datatype Slot = Slot(owner: int, live: bool, events: bv16)

  type Table = seq<Slot>

  const NONE_EVENT: bv16 := 0
  const READ_EVENT: bv16 := 0x3   // POLLIN | POLLPRI
  const WRITE_EVENT: bv16 := 0x4  // POLLOUT

  ghost predicate Distinct(t: Table) {
    forall i, j :: 0 <= i < j < |t| ==> t[i].owner != t[j].owner
  }

  predicate Has(t: Table, fd: int) {
    exists i :: 0 <= i < |t| && t[i].owner == fd
  }

  function IndexOf(t: Table, fd: int): (i: int)
    ensures -1 <= i < |t|
    ensures i >= 0 ==> t[i].owner == fd
    ensures i < 0 <==> !Has(t, fd)
  {
    if t == [] then -1
    else if t[|t| - 1].owner == fd then |t| - 1
    else
      assert Has(t[..|t| - 1], fd) <==> Has(t, fd) by {
        if Has(t, fd) { var i :| 0 <= i < |t| && t[i].owner == fd; assert t[..|t| - 1][i].owner == fd; }
        if Has(t[..|t| - 1], fd) { var i :| 0 <= i < |t| - 1 && t[..|t| - 1][i].owner == fd; assert t[i].owner == fd; }
      }
      IndexOf(t[..|t| - 1], fd)
  }

  /**
   * updateChannel: a new channel gets a slot at the back; a known one gets its mask, and loses its fd for good on an
   * empty mask.
   */
  function Update(t: Table, fd: int, events: bv16): (r: Table)
  {
    var i := IndexOf(t, fd);
    if i < 0 then t + [Slot(fd, true, events)]
    else t[i := Slot(fd, t[i].live && events != NONE_EVENT, events)]
  }

  /**
   * removeChannel finds the slot it moves by the fd in that slot, so it needs the last slot to be live unless it goes
   * itself.
   */
  predicate Removable(t: Table, fd: int) {
    Has(t, fd) && (t[|t| - 1].owner == fd || t[|t| - 1].live)
  }

  function Remove(t: Table, fd: int): (r: Table)
    requires Has(t, fd)
  {
    var i, last := IndexOf(t, fd), |t| - 1;
    if i == last then t[..last] else t[i := t[last]][..last]
  }

  datatype Op = DoUpdate(fd: int, events: bv16) | DoRemove(fd: int)

  predicate Allowed(t: Table, op: Op) {
    op.DoRemove? ==> Removable(t, op.fd)
  }

  function Apply(t: Table, op: Op): Table
    requires Allowed(t, op)
  {
    match op
    case DoUpdate(fd, events) => Update(t, fd, events)
    case DoRemove(fd) => Remove(t, fd)
  }

  datatype Run = Start | Then(past: Run, last: Op)

  ghost predicate Legal(r: Run) {
    match r
    case Start => true
    case Then(past, op) => Legal(past) && Allowed(Now(past), op)
  }

  ghost function Now(r: Run): Table {
    match r
    case Start => []
    case Then(past, op) => if Allowed(Now(past), op) then Apply(Now(past), op) else Now(past)
  }

  /** The mask last asked for by each fd that is registered, by the history alone. */
  ghost function Wanted(r: Run): map<int, bv16> {
    match r
    case Start => map[]
    case Then(past, DoUpdate(fd, events)) => Wanted(past)[fd := events]
    case Then(past, DoRemove(fd)) => Wanted(past) - {fd}
  }

  /** Whether fd has asked for nothing since it was registered; that cannot be taken back. */
  ghost function GivenUp(r: Run): set<int> {
    match r
    case Start => {}
    case Then(past, DoUpdate(fd, events)) =>
      if fd in Wanted(past) && events == NONE_EVENT then GivenUp(past) + {fd} else GivenUp(past)
    case Then(past, DoRemove(fd)) => GivenUp(past) - {fd}
  }

  /** The table says what the history says. */
  ghost predicate Agrees(t: Table, wanted: map<int, bv16>, givenUp: set<int>) {
    && Distinct(t)
    && (forall fd :: fd in wanted <==> Has(t, fd))
    && (forall i :: 0 <= i < |t| ==> t[i].owner in wanted && t[i].events == wanted[t[i].owner]
                                     && (t[i].live <==> t[i].owner !in givenUp))
    && (forall fd :: fd in givenUp ==> fd in wanted)
    && |t| == |wanted|
  }

  lemma UpdateAgrees(t: Table, wanted: map<int, bv16>, givenUp: set<int>, fd: int, events: bv16)
    requires Agrees(t, wanted, givenUp)
    ensures Agrees(Update(t, fd, events), wanted[fd := events],
                   if fd in wanted && events == NONE_EVENT then givenUp + {fd} else givenUp)
  {
    var i := IndexOf(t, fd);
    var u := Update(t, fd, events);
    var w := wanted[fd := events];
    if i < 0 {
      assert forall k :: 0 <= k < |t| ==> u[k] == t[k];
      assert u[|t|].owner == fd;
      assert |w| == |wanted| + 1;
    } else {
      assert w.Keys == wanted.Keys;
      assert |w.Keys| == |w| && |wanted.Keys| == |wanted|;
      assert u[i].owner == fd;
    }
    forall x
      ensures x in w <==> Has(u, x)
    {
      if Has(t, x) { var k := IndexOf(t, x); assert u[k].owner == x; }
      if Has(u, x) { var k := IndexOf(u, x); assert k < |t| ==> t[k].owner == x; }
    }
  }

  /**
   * Swap-with-last removal deletes exactly one owner, keeps every other owner's slot contents, and moves at most
   * one of them: the last, into the hole.
   */
  lemma RemoveMovesAtMostOne(t: Table, fd: int, x: int)
    requires Distinct(t) && Has(t, fd)
    ensures var r := Remove(t, fd);
            && |r| == |t| - 1 && Distinct(r) && !Has(r, fd)
            && (x != fd ==> (Has(r, x) <==> Has(t, x)))
            && (x != fd && Has(t, x) ==>
                  r[IndexOf(r, x)] == t[IndexOf(t, x)]
                  && IndexOf(r, x) == if IndexOf(t, x) == |t| - 1 then IndexOf(t, fd) else IndexOf(t, x))
  {
    var r := Remove(t, fd);
    var i := IndexOf(t, fd);
    if x != fd && Has(t, x) {
      var k := IndexOf(t, x);
      var k' := if k == |t| - 1 then i else k;
      assert r[k'] == t[k] && r[k'].owner == x;
    }
    if x != fd && Has(r, x) {
      var k := IndexOf(r, x);
      assert t[if k == i then |t| - 1 else k].owner == x;
    }
  }

  lemma RemoveAgrees(t: Table, wanted: map<int, bv16>, givenUp: set<int>, fd: int)
    requires Agrees(t, wanted, givenUp) && Has(t, fd)
    ensures Agrees(Remove(t, fd), wanted - {fd}, givenUp - {fd})
  {
    var r := Remove(t, fd);
    var w := wanted - {fd};
    assert w.Keys == wanted.Keys - {fd} && |w.Keys| == |w| && |wanted.Keys| == |wanted|;
    RemoveMovesAtMostOne(t, fd, fd);
    forall x
      ensures x in w <==> Has(r, x)
    {
      RemoveMovesAtMostOne(t, fd, x);
    }
    forall k | 0 <= k < |r|
      ensures r[k].owner in w && r[k].events == w[r[k].owner] && (r[k].live <==> r[k].owner !in givenUp - {fd})
    {
      assert r[k] == t[if k == IndexOf(t, fd) then |t| - 1 else k];
      assert Has(r, r[k].owner);
    }
  }

  /**
   * Over every sequence of updates and permitted removals the table holds exactly one slot for each registered
   * fd, with the mask it asked for last; the slot is live exactly if it never asked for nothing since it came in.
   */
  lemma {:induction false} TableAgreesWithHistory(r: Run)
    requires Legal(r)
    ensures Agrees(Now(r), Wanted(r), GivenUp(r))
  {
    match r
    case Start =>
    case Then(past, op) =>
      TableAgreesWithHistory(past);
      match op {
        case DoUpdate(fd, events) => UpdateAgrees(Now(past), Wanted(past), GivenUp(past), fd, events);
        case DoRemove(fd) => RemoveAgrees(Now(past), Wanted(past), GivenUp(past), fd);
      }
  }

  ghost predicate RemovedIn(r: Run, since: Run, fd: int) {
    r.Then? && r != since && (r.last == DoRemove(fd) || RemovedIn(r.past, since, fd))
  }

  ghost predicate Extends(since: Run, r: Run) {
    r == since || (r.Then? && Extends(since, r.past))
  }

  /** Disabled is terminal: whatever masks a channel asks for afterwards, its slot stays dead until it is removed. */
  lemma {:induction false} DisabledIsTerminal(since: Run, r: Run, fd: int)
    requires Legal(r) && Extends(since, r) && fd in GivenUp(since) && !RemovedIn(r, since, fd)
    ensures fd in GivenUp(r) && Has(Now(r), fd) && !Now(r)[IndexOf(Now(r), fd)].live
  {
    if r != since {
      DisabledIsTerminal(since, r.past, fd);
    }
    TableAgreesWithHistory(r);
  }

  /** The owner of the last slot. */
  function LastOwner(t: Table): int
    requires |t| > 0
  {
    t[|t| - 1].owner
  }

  lemma RemovableByHistory(t: Table, givenUp: set<int>, fd: int)
    requires Has(t, fd) && forall i :: 0 <= i < |t| ==> (t[i].live <==> t[i].owner !in givenUp)
    ensures |t| > 0
    ensures Removable(t, fd) <==> LastOwner(t) == fd || LastOwner(t) !in givenUp
  {
  }

  /** What removal needs, by the history: the fd in the last slot has not been given up, or is the one that goes. */
  lemma RemovableIff(r: Run, fd: int)
    requires Legal(r) && fd in Wanted(r)
    ensures |Now(r)| > 0
    ensures Removable(Now(r), fd) <==> LastOwner(Now(r)) == fd || LastOwner(Now(r)) !in GivenUp(r)
  {
    TableAgreesWithHistory(r);
    RemovableByHistory(Now(r), GivenUp(r), fd);
  }

  /** So a removal is safe, wherever the slots are, when no other registered fd has been given up. */
  lemma SafeIfNoOtherGivenUp(r: Run, fd: int)
    requires Legal(r) && fd in Wanted(r) && GivenUp(r) <= {fd}
    ensures Removable(Now(r), fd)
  {
    RemovableIff(r, fd);
  }

  lemma UpdateGoesOn(r: Run, fd: int, mask: bv16)
    requires Legal(r)
    ensures var r' := Then(r, DoUpdate(fd, mask));
            && Legal(r') && Now(r') == Update(Now(r), fd, mask) && Wanted(r') == Wanted(r)[fd := mask]
            && GivenUp(r') == if fd in Wanted(r) && mask == NONE_EVENT then GivenUp(r) + {fd} else GivenUp(r)
  {
  }

  lemma UpdateAtBack(t: Table, fd: int, mask: bv16)
    ensures var u := Update(t, fd, mask);
            |u| > 0 && LastOwner(u) == if Has(t, fd) then LastOwner(t) else fd
  {
  }

  lemma AddingGoesLast(r: Run, fd: int, mask: bv16)
    requires Legal(r) && fd !in Wanted(r)
    ensures var t := Now(Then(r, DoUpdate(fd, mask))); |t| > 0 && LastOwner(t) == fd
  {
    TableAgreesWithHistory(r);
    UpdateGoesOn(r, fd, mask);
    UpdateAtBack(Now(r), fd, mask);
  }

  lemma UpdatingKeepsLast(r: Run, fd: int, mask: bv16)
    requires Legal(r) && fd in Wanted(r) && |Now(r)| > 0
    ensures var t := Now(Then(r, DoUpdate(fd, mask))); |t| > 0 && LastOwner(t) == LastOwner(Now(r))
  {
    TableAgreesWithHistory(r);
    UpdateGoesOn(r, fd, mask);
    UpdateAtBack(Now(r), fd, mask);
  }

  /** Two channels that are registered, b in the last slot, are both disabled. */
  lemma BothDisabled(r: Run, a: int, b: int)
    requires Legal(r) && a in Wanted(r) && b in Wanted(r) && a != b && |Now(r)| > 0 && LastOwner(Now(r)) == b
    ensures var r' := Then(Then(r, DoUpdate(a, NONE_EVENT)), DoUpdate(b, NONE_EVENT));
            Legal(r') && a in Wanted(r') && !Removable(Now(r'), a)
  {
    UpdateGoesOn(r, a, NONE_EVENT);
    UpdatingKeepsLast(r, a, NONE_EVENT);
    var r1 := Then(r, DoUpdate(a, NONE_EVENT));
    UpdateGoesOn(r1, b, NONE_EVENT);
    UpdatingKeepsLast(r1, b, NONE_EVENT);
    RemovableIff(Then(r1, DoUpdate(b, NONE_EVENT)), a);
  }

  /** Two connections that close in one round are both disabled, and then the first cannot be removed. */
  lemma TwoClosedAtOnce(before: Run, a: int, b: int, mask: bv16)
    requires Legal(before) && a !in Wanted(before) && b !in Wanted(before) && a != b
    ensures var r := Then(Then(Then(Then(before, DoUpdate(a, mask)), DoUpdate(b, mask)),
                               DoUpdate(a, NONE_EVENT)), DoUpdate(b, NONE_EVENT));
            Legal(r) && a in Wanted(r) && !Removable(Now(r), a)
  {
    UpdateGoesOn(before, a, mask);
    var r1 := Then(before, DoUpdate(a, mask));
    UpdateGoesOn(r1, b, mask);
    AddingGoesLast(r1, b, mask);
    BothDisabled(Then(r1, DoUpdate(b, mask)), a, b);
  }
}
