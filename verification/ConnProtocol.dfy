/**
 * One TcpConnection on its loop thread (zdq_tcp_connection.cpp): the connection state, the interest mask as the
 * poller honours it, the output buffer against the wire, and the functors that the connection queues on the loop.
 * A round is poll, the callbacks of the channel if poll reported it, then functors; the user may call send,
 * shutdown and forceClose at any point of a round.
 */
module ConnProtocol {
  import opened Buffers

  datatype Phase = Dispatching | Functors

  datatype ConnState = Connecting | Connected | Disconnecting | Disconnected

  /** Where the channel stands with the poller; a slot whose mask was emptied is `Off` until it is removed. */
  datatype Slot = Absent | Live | Off | Removed

  datatype Conn = Conn(
    phase: Phase,
    state: ConnState,
    slot: Slot,
    reading: bool,
    writing: bool,
    toRead: bool,               // poll reported the channel readable and handleRead has not run yet
    toWrite: bool,              // the same for handleWrite
    out: seq<Byte>,             // readable bytes of outputBuf_
    forceQueued: nat,           // forceCloseInLoop functors queued
    destroyQueued: nat,         // connectDestroyed functors queued by the close callback
    exited: bool,               // the process has ended: by ERR_EXIT, or in a removal that the poller cannot do
    accepted: seq<Byte>,        // history: all bytes handed to sendInLoop
    wire: seq<Byte>,            // history: all bytes write() took
    shutAt: seq<nat>,           // history: how much was on the wire at each shutdownWrite
    closes: nat,                // history: close callbacks
    completions: nat            // history: write-complete functors queued
  )

  const Fresh: Conn :=
    Conn(Functors, Connecting, Absent, false, false, false, false, [], 0, 0, false, [], [], [], 0, 0)

  datatype Event =
    | PollRound(readable: bool, writable: bool) | EndDispatch
    | Established
    | Send(message: seq<Byte>, written: int) | Shutdown | ForceClose
    | HandleRead(n: int) | HandleWrite(n: int)
    | RunForceClose | RunDestroy(removable: bool)

  /** What `write` may return for `len` bytes. */
  predicate WriteResult(n: int, len: nat) { -1 <= n <= len }

  predicate Enabled(c: Conn, e: Event) {
    !c.exited &&
    match e
    // the poller reports only what a live slot asks for
    case PollRound(readable, writable) =>
      c.phase.Functors? && (readable ==> c.slot.Live? && c.reading) && (writable ==> c.slot.Live? && c.writing)
    case EndDispatch => c.phase.Dispatching? && !c.toRead && !c.toWrite
    case Established => c.state.Connecting? && c.slot.Absent?
    case Send(message, written) => WriteResult(written, |message|)
    case Shutdown => true
    case ForceClose => true
    case HandleRead(n) => c.phase.Dispatching? && c.toRead && n >= -1
    case HandleWrite(n) => c.phase.Dispatching? && c.toWrite && !c.toRead && WriteResult(n, |c.out|)
    case RunForceClose => c.phase.Functors? && c.forceQueued > 0
    // whether the poller can remove the channel depends on the other channels
    case RunDestroy(_) => c.phase.Functors? && c.destroyQueued > 0
  }

  /** Channel::update as the poller takes it: an empty mask switches the slot off for good. */
  function Masked(c: Conn, reading: bool, writing: bool): Conn {
    c.(reading := reading, writing := writing,
       slot := match c.slot
         case Absent => Live
         case Live => if reading || writing then Live else Off
         case other => other)
  }

  function Close(c: Conn): Conn {
    Masked(c.(state := Disconnected), false, false).(closes := c.closes + 1, destroyQueued := c.destroyQueued + 1)
  }

  function ShutdownInLoop(c: Conn): Conn {
    if c.writing then c else c.(shutAt := c.shutAt + [|c.wire|])
  }

  /** The end of sendInLoop, when write() has taken n bytes of m. */
  function Sent(c: Conn, m: seq<Byte>, n: nat): Conn
    requires n <= |m|
  {
    var d := c.(accepted := c.accepted + m, wire := c.wire + m[..n]);
    if n < |m| then
      var d := d.(out := d.out + m[n..]);
      if d.writing then d else Masked(d, d.reading, true)
    else d.(completions := d.completions + 1)
  }

  function SendInLoop(c: Conn, m: seq<Byte>, written: int): Conn
    requires WriteResult(written, |m|)
  {
    var direct := !c.writing && c.out == [];
    if direct && written == -1 then c.(exited := true)
    else Sent(c, m, if direct then written else 0)
  }

  function Written(c: Conn, n: int): Conn
    requires WriteResult(n, |c.out|)
  {
    if !c.writing || n <= 0 then c
    else
      var d := c.(wire := c.wire + c.out[..n], out := c.out[n..]);
      if d.out != [] then d
      else
        var d := Masked(d, d.reading, false).(completions := d.completions + 1);
        if d.state.Disconnecting? then ShutdownInLoop(d) else d
  }

  /** The body of connectDestroyed. */
  function Detach(c: Conn, removable: bool): Conn {
    var d := if c.state.Connected? then Masked(c.(state := Disconnected), false, false) else c;
    if removable then d.(slot := Removed) else d.(exited := true)
  }

  function Step(c: Conn, e: Event): Conn
    requires Enabled(c, e)
  {
    match e
    case PollRound(readable, writable) => c.(phase := Dispatching, toRead := readable, toWrite := writable)
    case EndDispatch => c.(phase := Functors)
    case Established => Masked(c.(state := Connected), true, c.writing)
    case Send(message, written) => if c.state.Connected? then SendInLoop(c, message, written) else c
    case Shutdown => if c.state.Connected? then ShutdownInLoop(c.(state := Disconnecting)) else c
    case ForceClose =>
      if c.state.Connected? || c.state.Disconnecting? then c.(state := Disconnecting, forceQueued := c.forceQueued + 1)
      else c
    case HandleRead(n) => if n == 0 then Close(c.(toRead := false)) else c.(toRead := false)
    case HandleWrite(n) => Written(c, n).(toWrite := false)
    case RunForceClose =>
      var d := c.(forceQueued := c.forceQueued - 1);
      if d.state.Connected? || d.state.Disconnecting? then Close(d) else d
    case RunDestroy(removable) => Detach(c.(destroyQueued := c.destroyQueued - 1), removable)
  }

  datatype Run = Start | Then(past: Run, last: Event)

  ghost predicate Legal(r: Run) {
    match r
    case Start => true
    case Then(past, e) => Legal(past) && Enabled(Now(past), e)
  }

  ghost function Now(r: Run): Conn {
    match r
    case Start => Fresh
    case Then(past, e) => if Enabled(Now(past), e) then Step(Now(past), e) else Now(past)
  }

  // ---------------------------------------------------------------- invariants

  ghost predicate Open(c: Conn) { c.state.Connected? || c.state.Disconnecting? }

  ghost predicate Conserved(c: Conn) { c.wire + c.out == c.accepted }

  ghost predicate MaskFits(c: Conn) {
    && (Open(c) ==> c.slot.Live? && c.reading && (c.writing <==> c.out != []))
    && (c.state.Connecting? ==> c.slot.Absent? && !c.reading && !c.writing && c.out == [])
    && (c.state.Disconnected? ==> (c.slot.Off? || c.slot.Removed?) && !c.reading && !c.writing)
  }

  ghost predicate ClosedOnce(c: Conn) {
    && c.closes == (if c.state.Disconnected? then 1 else 0)
    && (c.toRead ==> c.phase.Dispatching? && Open(c))
    && (c.toWrite ==> c.phase.Dispatching?)
    && (!c.exited ==> c.destroyQueued + (if c.slot.Removed? then 1 else 0) == c.closes)
  }

  ghost predicate ShutCleanly(c: Conn) {
    && |c.shutAt| <= 1
    && (c.shutAt != [] ==> (c.state.Disconnecting? || c.state.Disconnected?)
                           && c.out == [] && c.wire == c.accepted && c.shutAt[0] == |c.wire|)
  }

  ghost predicate Inv(c: Conn) {
    Conserved(c) && MaskFits(c) && ClosedOnce(c) && ShutCleanly(c)
  }

  lemma Associative(a: seq<Byte>, b: seq<Byte>, c: seq<Byte>)
    ensures a + b + c == a + (b + c)
  {
  }

  lemma SentConserves(c: Conn, m: seq<Byte>, n: nat)
    requires Conserved(c) && n <= |m| && (n > 0 ==> c.out == [])
    ensures Conserved(Sent(c, m, n))
  {
    assert m[..n] + m[n..] == m;
    if c.out == [] {
      assert c.wire + [] == c.wire && [] + m[n..] == m[n..];
      Associative(c.wire, m[..n], m[n..]);
      assert n == |m| ==> m[n..] == [];
    } else {
      assert m[..0] == [] && m[0..] == m && c.wire + [] == c.wire;
      Associative(c.wire, c.out, m);
    }
  }

  lemma WrittenConserves(c: Conn, n: int)
    requires Conserved(c) && WriteResult(n, |c.out|)
    ensures Conserved(Written(c, n))
  {
    if n > 0 {
      assert c.out[..n] + c.out[n..] == c.out;
      Associative(c.wire, c.out[..n], c.out[n..]);
    }
  }

  lemma StepConserves(c: Conn, e: Event)
    requires Conserved(c) && MaskFits(c) && Enabled(c, e)
    ensures Conserved(Step(c, e))
  {
    match e
    case Send(m, written) =>
      if c.state.Connected? && !(!c.writing && c.out == [] && written == -1) {
        SentConserves(c, m, if !c.writing && c.out == [] then written else 0);
      }
    case HandleWrite(n) => WrittenConserves(c, n);
    case _ =>
  }

  lemma SendKeepsMask(c: Conn, m: seq<Byte>, written: int)
    requires MaskFits(c) && Enabled(c, Send(m, written))
    ensures MaskFits(Step(c, Send(m, written)))
  {
  }

  lemma WriteKeepsMask(c: Conn, n: int)
    requires MaskFits(c) && Enabled(c, HandleWrite(n))
    ensures MaskFits(Step(c, HandleWrite(n)))
  {
  }

  lemma StepKeepsMask(c: Conn, e: Event)
    requires MaskFits(c) && ClosedOnce(c) && Enabled(c, e)
    ensures MaskFits(Step(c, e))
  {
    match e
    case Send(m, written) => SendKeepsMask(c, m, written);
    case HandleWrite(n) => WriteKeepsMask(c, n);
    case _ =>
  }

  lemma StepKeepsClosedOnce(c: Conn, e: Event)
    requires MaskFits(c) && ClosedOnce(c) && Enabled(c, e)
    ensures ClosedOnce(Step(c, e))
  {
  }

  /** A state from which nothing more can be sent, and nothing is pending. */
  ghost predicate Drained(c: Conn) {
    (c.state.Disconnecting? || c.state.Disconnected?) && c.out == [] && !c.writing
  }

  lemma DrainedStays(c: Conn, e: Event)
    requires MaskFits(c) && ClosedOnce(c) && Enabled(c, e) && Drained(c)
    ensures var d := Step(c, e); Drained(d) && d.wire == c.wire && d.accepted == c.accepted && d.shutAt == c.shutAt
  {
  }

  /** Shutting down is the end of a step that leaves nothing pending. */
  lemma FirstShutdown(c: Conn, e: Event)
    requires MaskFits(c) && Enabled(c, e) && c.shutAt == []
    ensures var d := Step(c, e); d.shutAt == [] || (Drained(d) && d.shutAt == [|d.wire|])
  {
    match e
    case HandleWrite(n) => DrainingShuts(c, n);
    case _ =>
  }

  lemma DrainingShuts(c: Conn, n: int)
    requires MaskFits(c) && WriteResult(n, |c.out|) && c.shutAt == []
    ensures var d := Written(c, n); d.shutAt == [] || (Drained(d) && d.shutAt == [|d.wire|])
  {
  }

  lemma StepKeepsShutdown(c: Conn, e: Event)
    requires Inv(c) && Enabled(c, e)
    ensures ShutCleanly(Step(c, e))
  {
    StepConserves(c, e);
    var d := Step(c, e);
    assert d.wire + [] == d.wire;
    if c.shutAt == [] {
      FirstShutdown(c, e);
    } else {
      DrainedStays(c, e);
    }
  }

  lemma StepKeepsInv(c: Conn, e: Event)
    requires Inv(c) && Enabled(c, e)
    ensures Inv(Step(c, e))
  {
    StepConserves(c, e);
    StepKeepsMask(c, e);
    StepKeepsClosedOnce(c, e);
    StepKeepsShutdown(c, e);
  }

  lemma {:induction false} RunKeepsInv(r: Run)
    requires Legal(r)
    ensures Inv(Now(r))
  {
    match r
    case Start =>
    case Then(past, e) =>
      RunKeepsInv(past);
      StepKeepsInv(Now(past), e);
  }

  // ---------------------------------------------------------------- main results

  /** What a call of send hands over: the message, if the connection is open and the write does not end the process. */
  ghost function Handed(c: Conn, e: Event): seq<Byte> {
    if e.Send? && c.state.Connected? && !(e.written == -1 && c.out == []) then e.message else []
  }

  /** All the bytes the user has handed over while the connection took them. */
  ghost function HandedOver(r: Run): seq<Byte> {
    match r
    case Start => []
    case Then(past, e) => HandedOver(past) + Handed(Now(past), e)
  }

  lemma StepAccepts(c: Conn, e: Event)
    requires Inv(c) && Enabled(c, e)
    ensures Step(c, e).accepted == c.accepted + Handed(c, e)
  {
  }

  lemma SendGrowsStream(r: Run, message: seq<Byte>, written: int)
    requires Legal(r) && Enabled(Now(r), Send(message, written))
    ensures var c, d := Now(r), Step(Now(r), Send(message, written));
            d.wire + d.out == if c.state.Connected? && !d.exited then c.wire + c.out + message else c.wire + c.out
  {
    RunKeepsInv(r);
    StepKeepsInv(Now(r), Send(message, written));
    StepAccepts(Now(r), Send(message, written));
  }

  lemma SendWrites(r: Run, message: seq<Byte>, written: int)
    requires Legal(r) && Enabled(Now(r), Send(message, written))
    ensures var c, d := Now(r), Step(Now(r), Send(message, written));
            && d.wire == c.wire + (if c.state.Connected? && c.out == [] && written > 0 then message[..written] else [])
            && (d.exited <==> c.state.Connected? && c.out == [] && written == -1)
  {
    RunKeepsInv(r);
    assert Now(r).wire + [] == Now(r).wire && message[..0] == [];
  }

  lemma NothingBeforeEstablished(r: Run)
    requires Legal(r) && Now(r).state.Connecting?
    ensures !Now(r).writing && !Now(r).reading && Now(r).out == []
  {
    RunKeepsInv(r);
  }

  lemma {:induction false} AcceptedIsHandedOver(r: Run)
    requires Legal(r)
    ensures Now(r).accepted == HandedOver(r)
  {
    match r
    case Start =>
    case Then(past, e) =>
      AcceptedIsHandedOver(past);
      RunKeepsInv(past);
      StepAccepts(Now(past), e);
  }

  /**
   * The output stream is conserved: for any messages and any partial writes, what is on the wire and then what is
   * buffered is the concatenation of the messages; while the connection is open it polls for writing exactly when
   * something is buffered.
   */
  lemma OutputIsConserved(r: Run)
    requires Legal(r)
    ensures Now(r).wire + Now(r).out == HandedOver(r)
    ensures Open(Now(r)) ==> (Now(r).writing <==> Now(r).out != [])
  {
    RunKeepsInv(r);
    AcceptedIsHandedOver(r);
  }

  /**
   * The sum of the results of write(), from the events: send calls it when nothing is pending, handleWrite when
   * something is, and what is pending is what has been handed over and not been taken.
   */
  ghost function Taken(r: Run): nat {
    match r
    case Start => 0
    case Then(past, Send(_, written)) =>
      if Now(past).state.Connected? && Taken(past) == |HandedOver(past)| && written > 0 then Taken(past) + written
      else Taken(past)
    case Then(past, HandleWrite(n)) =>
      if Open(Now(past)) && Taken(past) < |HandedOver(past)| && n > 0 then Taken(past) + n else Taken(past)
    case Then(past, _) => Taken(past)
  }

  lemma StepTakes(c: Conn, e: Event)
    requires Inv(c) && Enabled(c, e)
    ensures |Step(c, e).wire| == |c.wire| +
              (if e.Send? && c.state.Connected? && c.out == [] && e.written > 0 then e.written
               else if e.HandleWrite? && Open(c) && c.out != [] && e.n > 0 then e.n else 0)
  {
  }

  /**
   * What is on the wire is exactly what write() said it took, byte for byte: the first so many bytes of those handed
   * over, none twice and none left out; and the buffer holds the others.
   */
  lemma {:induction false} WireIsWhatWriteTook(r: Run)
    requires Legal(r)
    ensures Taken(r) <= |HandedOver(r)|
    ensures Now(r).wire == HandedOver(r)[..Taken(r)] && Now(r).out == HandedOver(r)[Taken(r)..]
  {
    OutputIsConserved(r);
    match r
    case Start =>
    case Then(past, e) =>
      WireIsWhatWriteTook(past);
      RunKeepsInv(past);
      StepTakes(Now(past), e);
  }

  /**
   * Half-close is graceful: the write side is shut down at most once, only when every accepted byte is on the wire,
   * and not a byte is written or accepted afterwards.
   */
  lemma HalfCloseIsGraceful(r: Run)
    requires Legal(r)
    ensures |Now(r).shutAt| <= 1
    ensures Now(r).shutAt != [] ==> Now(r).wire == HandedOver(r) && |Now(r).wire| == Now(r).shutAt[0]
  {
    RunKeepsInv(r);
    AcceptedIsHandedOver(r);
  }

  /**
   * And it does happen: once shutdown() has been called with bytes still buffered, the write that drains the buffer
   * shuts the write side down in the same step.
   */
  lemma DrainShutsDown(r: Run, n: int)
    requires Legal(r) && Enabled(Now(r), HandleWrite(n)) && Now(r).state.Disconnecting?
    requires n == |Now(r).out| && n > 0
    ensures Step(Now(r), HandleWrite(n)).shutAt == [|HandedOver(r)|]
  {
    RunKeepsInv(r);
    AcceptedIsHandedOver(r);
    var c := Now(r);
    assert c.out[n..] == [] && c.wire + c.out[..n] == c.accepted;
  }

  ghost function Rank(s: ConnState): nat {
    match s case Connecting => 0 case Connected => 1 case Disconnecting => 2 case Disconnected => 3
  }

  /** The state only advances, and the close callback fires exactly on the step into Disconnected. */
  lemma StateOnlyAdvances(r: Run, e: Event)
    requires Legal(r) && Enabled(Now(r), e)
    ensures Rank(Now(r).state) <= Rank(Step(Now(r), e).state)
    ensures Step(Now(r), e).closes > Now(r).closes
            <==> Step(Now(r), e).state.Disconnected? && !Now(r).state.Disconnected?
  {
    RunKeepsInv(r);
    StepKeepsInv(Now(r), e);
  }

  /**
   * The close callback fires at most once, whatever mix of peer close and forceClose. After it no read is dispatched or
   * will be, and a write callback that poll had already reported does nothing.
   */
  lemma ClosesAtMostOnce(r: Run)
    requires Legal(r)
    ensures Now(r).closes <= 1
    ensures Now(r).closes == 1 ==>
              && Now(r).state.Disconnected? && !Now(r).toRead
              && (forall w :: !Enabled(Now(r), PollRound(true, w)))
              && (forall n :: Enabled(Now(r), HandleWrite(n)) ==>
                    Step(Now(r), HandleWrite(n)) == Now(r).(toWrite := false))
  {
    RunKeepsInv(r);
  }

  /** The channel leaves the poller in the functor phase only, after its close callback, with nothing to dispatch. */
  lemma RemovedOnlyByFunctor(r: Run, e: Event)
    requires Legal(r) && Enabled(Now(r), e)
    requires !Now(r).slot.Removed? && Step(Now(r), e).slot.Removed?
    ensures e == RunDestroy(true) && Now(r).phase.Functors? && Now(r).closes == 1 && Now(r).slot.Off?
    ensures !Now(r).toRead && !Now(r).toWrite
  {
    RunKeepsInv(r);
  }

  /**
   * A write-complete functor is queued exactly by a send that leaves nothing of its message to be buffered, and by the
   * write that drains the buffer; one each time.
   */
  lemma CompletionIff(r: Run, e: Event)
    requires Legal(r) && Enabled(Now(r), e)
    ensures var c, d := Now(r), Step(Now(r), e);
            d.completions == c.completions +
              (if e.Send? && c.state.Connected? && (if c.out == [] then e.written == |e.message| else e.message == [])
               then 1
               else if e.HandleWrite? && Open(c) && e.n > 0 && e.n == |c.out| then 1 else 0)
  {
    RunKeepsInv(r);
  }

  /** A write-complete functor is queued with the buffer drained, except by an empty message sent over pending bytes. */
  lemma CompletionMeansDrainedIff(r: Run, e: Event)
    requires Legal(r) && Enabled(Now(r), e) && Step(Now(r), e).completions > Now(r).completions
    ensures Step(Now(r), e).out == [] <==> !(e.Send? && e.message == [] && Now(r).out != [])
  {
    RunKeepsInv(r);
  }

  lemma GoOn(r: Run, e: Event) returns (next: Run)
    requires Legal(r) && Enabled(Now(r), e)
    ensures next == Then(r, e) && Legal(next) && Now(next) == Step(Now(r), e)
  {
    next := Then(r, e);
  }

  /** The exception does happen: one byte that write() does not take, and then an empty message. */
  lemma CompletionWithBytesPending(b: Byte) returns (r: Run)
    ensures Legal(r) && Now(r).completions == 1 && Now(r).out == [b] && Now(r).wire == []
  {
    r := GoOn(Start, Established);
    r := GoOn(r, Send([b], 0));
    assert Now(r).out == [b];
    r := GoOn(r, Send([], 0));
  }

  // ---------------------------------------------------------------- rounds go on

  /** The rest of a round's callbacks, with nothing read and nothing written. */
  lemma ToFunctors(before: Run) returns (r: Run)
    requires Legal(before) && !Now(before).exited
    ensures Legal(r) && !Now(r).exited && Now(r).phase.Functors? && !Now(r).toRead && !Now(r).toWrite
    ensures Now(r) == Now(before).(phase := Functors, toRead := false, toWrite := false)
  {
    RunKeepsInv(before);
    r := before;
    if Now(r).phase.Dispatching? {
      if Now(r).toRead { r := GoOn(r, HandleRead(-1)); }
      if Now(r).toWrite { r := GoOn(r, HandleWrite(0)); }
      r := GoOn(r, EndDispatch);
    }
  }

  /** Pending bytes can always be written: the next poll may report the channel writable, and one write may take all. */
  lemma PendingCanDrain(before: Run) returns (r: Run)
    requires Legal(before) && !Now(before).exited && Open(Now(before)) && Now(before).out != []
    ensures Legal(r) && Now(r).out == [] && Now(r).wire == HandedOver(r) == HandedOver(before)
  {
    r := ToFunctors(before);
    SameHanded(before, r);
    RunKeepsInv(r);
    var idle := r;
    r := GoOn(r, PollRound(false, true));
    r := GoOn(r, HandleWrite(|Now(r).out|));
    assert Now(idle).out[|Now(idle).out|..] == [];
    OutputIsConserved(r);
    OutputIsConserved(idle);
    assert HandedOver(r) == HandedOver(idle) + [] + [];
    assert Now(r).wire + [] == Now(r).wire;
  }

  lemma SameHanded(a: Run, b: Run)
    requires Legal(a) && Legal(b) && Now(a).wire == Now(b).wire && Now(a).out == Now(b).out
    ensures HandedOver(a) == HandedOver(b)
  {
    OutputIsConserved(a);
    OutputIsConserved(b);
  }

  /** forceClose on an open connection can always be carried through: closed, once, and out of the poller. */
  lemma ForceCloseCompletes(before: Run) returns (r: Run)
    requires Legal(before) && !Now(before).exited && Open(Now(before))
    ensures Legal(r) && Now(r).state.Disconnected? && Now(r).closes == 1 && Now(r).slot.Removed?
  {
    r := GoOn(before, ForceClose);
    r := ToFunctors(r);
    RunKeepsInv(r);
    r := GoOn(r, RunForceClose);
    RunKeepsInv(r);
    r := GoOn(r, RunDestroy(true));
    RunKeepsInv(r);
  }

  /** And so can a close by the peer, which the next poll may report: read, close, and removal by a functor. */
  lemma PeerCloseCompletes(before: Run) returns (r: Run)
    requires Legal(before) && !Now(before).exited && Open(Now(before))
    ensures Legal(r) && Now(r).state.Disconnected? && Now(r).closes == 1 && Now(r).slot.Removed?
  {
    r := ToFunctors(before);
    RunKeepsInv(r);
    r := GoOn(r, PollRound(true, false));
    r := GoOn(r, HandleRead(0));
    RunKeepsInv(r);
    r := GoOn(r, EndDispatch);
    r := GoOn(r, RunDestroy(true));
    RunKeepsInv(r);
  }
}
