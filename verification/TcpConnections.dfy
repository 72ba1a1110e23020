/** The TcpConnection object: its fields and both buffers, updated in place by the methods of the source. */
module TcpConnections {
  import opened Buffers
  import opened ConnProtocol

  /** What the connection has asked of the socket, of its loop and of its owner. */
  datatype Outside = Outside(
    wire: seq<Byte>,       // what write() has taken
    shutAt: seq<nat>,      // how much it had taken at each shutdownWrite
    forceQueued: nat,      // functors queued on the loop and not yet run: forceCloseInLoop,
    destroyQueued: nat,    // connectDestroyed,
    completions: nat,      // and the write-complete callbacks ever queued
    closes: nat            // calls of the close callback
  )

  class TcpConnection {
    var state: ConnState
    var reading: bool               // the channel's mask
    var writing: bool
    var slot: Slot                  // what the poller made of it
    const inputBuf: Buffer
    const outputBuf: Buffer
    var exited: bool
    var outside: Outside
    var connectionCalls: nat        // calls of the connection callback
    var messageCalls: nat           // calls of the message callback
    ghost var run: Run

    /** The fields are what the connection state says. */
    ghost predicate Shows(c: Conn)
      requires outputBuf.Valid()
      reads this, outputBuf
    {
      && c.state == state && c.reading == reading && c.writing == writing && c.slot == slot
      && c.exited == exited && c.out == outputBuf.Contents()
      && outside == Outside(c.wire, c.shutAt, c.forceQueued, c.destroyQueued, c.completions, c.closes)
    }

    ghost predicate Valid()
      reads this, inputBuf, outputBuf
    {
      && Legal(run) && inputBuf != outputBuf && inputBuf.Valid() && outputBuf.Valid()
      && Shows(Now(run))
    }

    constructor ()
      ensures Valid() && run == Start && fresh(inputBuf) && fresh(outputBuf)
    {
      state, reading, writing, slot, exited := Connecting, false, false, Absent, false;
      outside, connectionCalls, messageCalls := Outside([], [], 0, 0, 0, 0), 0, 0;
      inputBuf := new Buffer(DEFAULT_SIZE);
      outputBuf := new Buffer(DEFAULT_SIZE);
      run := Start;
    }

    /** What has been written and then what is still to be. */
    ghost function Stream(): seq<Byte>
      requires outputBuf.Valid()
      reads this, outputBuf
    {
      outside.wire + outputBuf.Contents()
    }

    /** The stream is what the user has handed over, and while it is open the channel writes exactly if bytes wait. */
    lemma StreamIsConserved()
      requires Valid()
      ensures Stream() == HandedOver(run)
      ensures state == Connected || state == Disconnecting ==> (writing <==> outputBuf.Contents() != [])
    {
      OutputIsConserved(run);
    }

    /** What it has written is exactly what write() took, none twice and none left out. */
    lemma WireIsExact()
      requires Valid()
      ensures Taken(run) <= |HandedOver(run)|
      ensures outside.wire == HandedOver(run)[..Taken(run)] && outputBuf.Contents() == HandedOver(run)[Taken(run)..]
    {
      WireIsWhatWriteTook(run);
    }

    /** The write side is shut down at most once, and then everything handed over is on the wire. */
    lemma ShutdownIsGraceful()
      requires Valid()
      ensures |outside.shutAt| <= 1
      ensures outside.shutAt != [] ==> outside.wire == HandedOver(run) && outside.shutAt[0] == |outside.wire|
      ensures outside.shutAt != [] ==> state == Disconnecting || state == Disconnected
    {
      HalfCloseIsGraceful(run);
      RunKeepsInv(run);
    }

    /** The owner is told of the close once at most, and exactly if the connection is closed. */
    lemma ClosedOnceForOwner()
      requires Valid()
      ensures outside.closes == if state == Disconnected then 1 else 0
    {
      RunKeepsInv(run);
    }

    /** Channel::update. */
    method Update()
      modifies this`slot
      ensures slot == match old(slot)
        case Absent => Live
        case Live => if reading || writing then Live else Off
        case other => other
    {
      if slot.Absent? {
        slot := Live;
      } else if slot.Live? && !reading && !writing {
        slot := Off;
      }
    }

    ghost method Record(e: Event)
      requires Legal(run) && Enabled(Now(run), e)
      modifies this`run
      ensures run == Then(old(run), e) && Legal(run) && Now(run) == Step(old(Now(run)), e)
    {
      run := Then(run, e);
    }

    /** connectEstablished. */
    method ConnectEstablished()
      requires Valid() && Enabled(Now(run), Established)
      modifies this
      ensures Valid() && run == Then(old(run), Established)
      ensures state == Connected && reading && !writing && slot == Live
      ensures connectionCalls == old(connectionCalls) + 1
    {
      NothingBeforeEstablished(run);
      state := Connected;
      reading := true;
      Update();
      connectionCalls := connectionCalls + 1;
      Record(Established);
    }

    /** send on the loop thread; `written` is what write() will return if it is called. */
    method Send(message: seq<Byte>, written: int)
      requires Valid() && Enabled(Now(run), ConnProtocol.Send(message, written)) && |message| <= INT_MAX
      modifies this, outputBuf
      ensures Valid() && run == Then(old(run), ConnProtocol.Send(message, written))
      ensures Stream() == if old(state) == Connected && !exited then old(Stream()) + message else old(Stream())
      ensures outside.wire == old(outside).wire +
                (if old(state) == Connected && old(outputBuf.Contents()) == [] && written > 0 then message[..written]
                 else [])
      ensures exited <==> old(state) == Connected && old(outputBuf.Contents()) == [] && written == -1
    {
      ghost var c := Now(run);
      SendGrowsStream(run, message, written);
      SendWrites(run, message, written);
      if state == Connected {
        SendInLoop(message, written, c);
      }
      assert Shows(Step(c, ConnProtocol.Send(message, written)));
      Record(ConnProtocol.Send(message, written));
    }

    /** sendInLoop, from connection state `c`. */
    method SendInLoop(message: seq<Byte>, written: int, ghost c: Conn)
      requires outputBuf.Valid() && Shows(c) && WriteResult(written, |message|) && |message| <= INT_MAX
      modifies this`exited, this`writing, this`slot, this`outside, outputBuf
      ensures outputBuf.Valid() && Shows(ConnProtocol.SendInLoop(c, message, written))
    {
      var nwrite := 0;
      if !writing && outputBuf.ReadBuffSize() == 0 {
        nwrite := written;
        if nwrite == -1 {
          exited := true;
          return;
        }
      }
      Sent(message, nwrite, c);
    }

    /** The end of sendInLoop, when write() has taken `nwrite` bytes: the rest is buffered. */
    method Sent(message: seq<Byte>, nwrite: nat, ghost c: Conn)
      requires outputBuf.Valid() && Shows(c) && nwrite <= |message| <= INT_MAX
      modifies this`writing, this`slot, this`outside, outputBuf
      ensures outputBuf.Valid() && Shows(ConnProtocol.Sent(c, message, nwrite))
    {
      outside := outside.(wire := outside.wire + message[..nwrite]);
      if nwrite < |message| {
        Buffer(message[nwrite..], c.(accepted := c.accepted + message, wire := c.wire + message[..nwrite]));
      } else {
        outside := outside.(completions := outside.completions + 1);
      }
    }

    /** The part of sendInLoop for what write() did not take. */
    method Buffer(rest: seq<Byte>, ghost d: Conn)
      requires outputBuf.Valid() && Shows(d) && |rest| <= INT_MAX
      modifies this`writing, this`slot, outputBuf
      ensures var d := d.(out := d.out + rest);
              outputBuf.Valid() && Shows(if d.writing then d else Masked(d, d.reading, true))
    {
      outputBuf.Append(rest);
      if !writing {
        writing := true;
        Update();
      }
    }

    /** shutdown on the loop thread. */
    method Shutdown()
      requires Valid() && Enabled(Now(run), ConnProtocol.Shutdown)
      modifies this
      ensures Valid() && run == Then(old(run), ConnProtocol.Shutdown)
      ensures old(state) == Connected ==>
                state == Disconnecting && (outside.shutAt != [] <==> outputBuf.Contents() == [])
      ensures old(state) != Connected ==> state == old(state) && outside == old(outside)
    {
      StreamIsConserved();
      ShutdownIsGraceful();
      if state == Connected {
        state := Disconnecting;
        ShutdownInLoop();
      }
      Record(ConnProtocol.Shutdown);
    }

    /** shutdownInLoop. */
    method ShutdownInLoop()
      modifies this`outside
      ensures var o := old(outside); outside == if writing then o else o.(shutAt := o.shutAt + [|o.wire|])
    {
      if !writing {
        outside := outside.(shutAt := outside.shutAt + [|outside.wire|]);
      }
    }

    /** forceClose on the loop thread: the close itself is left to a functor. */
    method ForceClose()
      requires Valid() && Enabled(Now(run), ConnProtocol.ForceClose)
      modifies this
      ensures Valid() && run == Then(old(run), ConnProtocol.ForceClose)
      ensures if old(state) == Connected || old(state) == Disconnecting
              then state == Disconnecting && outside == old(outside).(forceQueued := old(outside).forceQueued + 1)
              else state == old(state) && outside == old(outside)
    {
      if state == Connected || state == Disconnecting {
        state := Disconnecting;
        outside := outside.(forceQueued := outside.forceQueued + 1);
      }
      Record(ConnProtocol.ForceClose);
    }

    /** The functor that forceClose queued. */
    method ForceCloseInLoop()
      requires Valid() && Enabled(Now(run), RunForceClose)
      modifies this
      ensures Valid() && run == Then(old(run), RunForceClose)
      ensures old(state) == Connected || old(state) == Disconnecting ==> state == Disconnected && outside.closes == 1
      ensures old(state) == Disconnected ==> state == Disconnected && outside.closes == old(outside).closes
      ensures outside.forceQueued == old(outside).forceQueued - 1
    {
      ghost var d := Now(run).(forceQueued := Now(run).forceQueued - 1);
      outside := outside.(forceQueued := outside.forceQueued - 1);
      CloseIfOpen(d);
      Record(RunForceClose);
      ClosedOnceForOwner();
    }

    /** The body of forceCloseInLoop, from connection state `c`. */
    method CloseIfOpen(ghost c: Conn)
      requires outputBuf.Valid() && Shows(c)
      modifies this`state, this`reading, this`writing, this`slot, this`outside
      ensures outputBuf.Valid() && Shows(if c.state.Connected? || c.state.Disconnecting? then Close(c) else c)
    {
      if state == Connected || state == Disconnecting {
        HandleClose(c);
      }
    }

    /** handleClose, from connection state `c`; the owner's close callback queues connectDestroyed. */
    method HandleClose(ghost c: Conn)
      requires outputBuf.Valid() && Shows(c)
      modifies this`state, this`reading, this`writing, this`slot, this`outside
      ensures outputBuf.Valid() && Shows(Close(c))
    {
      state := Disconnected;
      reading, writing := false, false;
      Update();
      outside := outside.(closes := outside.closes + 1, destroyQueued := outside.destroyQueued + 1);
    }

    /** handleRead: what arrives goes behind the input already buffered; end of stream closes. */
    method HandleRead(incoming: seq<Byte>, error: bool) returns (n: int)
      requires Valid()
      requires Enabled(Now(run), ConnProtocol.HandleRead(if error then -1 else |incoming|))
      requires |incoming| <= if inputBuf.WriteBuffSize() < EXTRA_SIZE then inputBuf.WriteBuffSize() + EXTRA_SIZE
                             else inputBuf.WriteBuffSize()
      modifies this, inputBuf
      ensures Valid() && run == Then(old(run), ConnProtocol.HandleRead(n))
      ensures inputBuf.Contents() == if error then old(inputBuf.Contents()) else old(inputBuf.Contents()) + incoming
      ensures n == 0 ==> state == Disconnected && outside.closes == 1
      ensures n != 0 ==> state == old(state) && outside == old(outside)
      ensures messageCalls == old(messageCalls) + if n > 0 then 1 else 0
    {
      n := inputBuf.ReadFd(incoming, error);
      if n > 0 {
        messageCalls := messageCalls + 1;
      } else if n == 0 {
        HandleClose(Now(run));
      }
      Record(ConnProtocol.HandleRead(n));
      ClosedOnceForOwner();
    }

    /** handleWrite; `written` is what write() will return if it is called. */
    method HandleWrite(written: int)
      requires Valid() && Enabled(Now(run), ConnProtocol.HandleWrite(written)) && written <= INT_MAX
      modifies this, outputBuf
      ensures Valid() && run == Then(old(run), ConnProtocol.HandleWrite(written))
      ensures Stream() == old(Stream())
      ensures if old(writing) && written > 0
              then outside.wire == old(outside.wire) + old(outputBuf.Contents())[..written]
                   && outputBuf.Contents() == old(outputBuf.Contents())[written..]
              else outside == old(outside) && outputBuf.Contents() == old(outputBuf.Contents())
      ensures old(state) == Disconnecting && old(outputBuf.Contents()) != [] && outputBuf.Contents() == [] ==>
                outside.shutAt == [|outside.wire|]
    {
      StreamIsConserved();
      ShutdownIsGraceful();
      if writing {
        var n := written;
        if n > 0 {
          Drain(n, Now(run));
        }
      }
      assert Shows(Step(Now(run), ConnProtocol.HandleWrite(written)));
      Record(ConnProtocol.HandleWrite(written));
      StreamIsConserved();
    }

    /** The part of handleWrite after write() has taken n bytes, from connection state `c`. */
    method Drain(n: nat, ghost c: Conn)
      requires outputBuf.Valid() && Shows(c) && writing && 0 < n <= |c.out| && n <= INT_MAX
      modifies this`writing, this`slot, this`outside, outputBuf
      ensures outputBuf.Valid() && Shows(Written(c, n))
    {
      outside := outside.(wire := outside.wire + outputBuf.Contents()[..n]);
      outputBuf.Retrieve(n);
      ghost var d := c.(wire := c.wire + c.out[..n], out := c.out[n..]);
      if outputBuf.ReadBuffSize() == 0 {
        AllWritten(d);
      }
    }

    /** The part of handleWrite for when the buffer has been drained, from connection state `d`. */
    method AllWritten(ghost d: Conn)
      requires outputBuf.Valid() && Shows(d)
      modifies this`writing, this`slot, this`outside
      ensures outputBuf.Valid()
      ensures var e := Masked(d, d.reading, false).(completions := d.completions + 1);
              Shows(if e.state.Disconnecting? then ConnProtocol.ShutdownInLoop(e) else e)
    {
      writing := false;
      Update();
      outside := outside.(completions := outside.completions + 1);
      if state == Disconnecting {
        ShutdownInLoop();
      }
    }

    /** connectDestroyed, a functor. If the poller cannot remove the channel the process ends. */
    method ConnectDestroyed(removable: bool)
      requires Valid() && Enabled(Now(run), RunDestroy(removable))
      modifies this
      ensures Valid() && run == Then(old(run), RunDestroy(removable))
      ensures state == Disconnected && outside.closes == 1 && if removable then slot.Removed? else exited
    {
      ghost var d := Now(run).(destroyQueued := Now(run).destroyQueued - 1);
      RunKeepsInv(run);
      outside := outside.(destroyQueued := outside.destroyQueued - 1);
      Detach(removable, d);
      Record(RunDestroy(removable));
      ClosedOnceForOwner();
    }

    /** The body of connectDestroyed, from connection state `c`. */
    method Detach(removable: bool, ghost c: Conn)
      requires outputBuf.Valid() && Shows(c)
      modifies this`state, this`reading, this`writing, this`slot, this`exited
      ensures Shows(ConnProtocol.Detach(c, removable))
    {
      if state == Connected {
        state := Disconnected;
        reading, writing := false, false;
        Update();
      }
      if removable {
        slot := Removed;
      } else {
        exited := true;
      }
    }
  }
}
