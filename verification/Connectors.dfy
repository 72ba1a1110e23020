/**
 * The Connector object: its fields, updated in place. The assertions of the source are the assert statements here,
 * and they are proved. `appended`, `timers`, `closedFds` and `handedFds` stand for what it asks of the loop, the
 * kernel and its owner; `crashed` says that the poller could not remove its channel.
 */
module Connectors {
  import opened ConnectorProtocol

  class Connector {
    var connect: bool                 // connect_
    var state: ConnState              // state_
    var channel: Channel              // channel_ and the poller's knowledge of it
    var retryDelayMs: nat             // retryDelayMs_
    var appended: seq<Fn>             // functors appended to the loop and not yet swapped out
    var timers: seq<Timer>            // timers set with runAfter and not yet fired
    var nextFd: nat
    var closedFds: set<Sock>
    var handedFds: set<Sock>
    var live: Live                    // the connection made from the last socket handed over
    var round: nat                    // the round of the loop
    var crashed: bool
    ghost var st: State               // where the protocol stands

    /** The fields are what a protocol state says. */
    ghost predicate Shows(s: State)
      reads this
    {
      && s.broken == crashed
      && (!crashed ==>
            && s.connect == connect && s.state == state && s.channel == channel && s.retryDelay == retryDelayMs
            && s.pending == appended && s.timers == timers && s.made == nextFd && s.closed == closedFds
            && s.handed == handedFds && s.live == live && s.round == round)
    }

    ghost predicate Valid()
      reads this
    {
      Reachable(st) && Shows(st)
    }

    constructor ()
      ensures Valid() && !crashed && st == Fresh
    {
      connect, state, channel, retryDelayMs := false, Disconnected, None, INIT_RETRY_DELAY_MS;
      appended, timers, nextFd, closedFds, handedFds, live, round := [], [], 0, {}, {}, NoConn, 0;
      crashed := false;
      st := Fresh;
      FreshIsReachable();
    }

    ghost method Record(e: Event)
      requires Reachable(st) && Enabled(st, e)
      modifies this`st
      ensures Reachable(st) && st == Step(old(st), e)
    {
      ReachableGoesOn(st, e);
      st := Step(st, e);
    }

    /** Nothing but the live connection and the batch may differ. */
    ghost predicate SameBut(s: State)
      reads this
    {
      && connect == s.connect && state == s.state && channel == s.channel && retryDelayMs == s.retryDelay
      && appended == s.pending && timers == s.timers && nextFd == s.made && closedFds == s.closed
      && handedFds == s.handed && round == s.round
    }

    // ---------------------------------------------------------------- what always holds of the object

    /** Every socket it has opened is exactly one of closed, handed over, or owned by the channel in the poller. */
    lemma SocketsAreAccountedFor(x: Sock)
      requires Valid() && !crashed
      ensures var flying := channel.Chan? && channel.registered && channel.sock == x;
              && (x < nextFd <==> x in closedFds || x in handedFds || flying)
              && !(x in closedFds && x in handedFds) && !(flying && (x in closedFds || x in handedFds))
    {
      var r :| Reaches(r, st);
      EverySocketIsAccountedFor(r, x);
    }

    /** kConnecting means a registered channel; a retry timer means rest; a handed-over connection means kConnected. */
    lemma StateIsTelling()
      requires Valid() && !crashed
      ensures state == Connecting <==> channel.Chan? && channel.registered
      ensures timers != [] ==> |timers| == 1 && state == Disconnected && live.NoConn?
      ensures live.Handed? ==> state == Connected && live.sock in handedFds
    {
      ReachableIsInv(st);
    }

    /** The next retry waits 500 ms doubled once for each retry since construction or restart, at most 30 s. */
    lemma NextDelayIs()
      requires Valid() && !crashed
      ensures retryDelayMs == Min(500 * Pow2(|st.delays|), 30000)
    {
      ReachableIsInv(st);
    }

    // ---------------------------------------------------------------- the private functions

    /** retry. */
    method Retry(sock: Sock, ghost s: State)
      requires Shows(s) && !crashed
      modifies this`closedFds, this`state, this`timers, this`retryDelayMs
      ensures Shows(ConnectorProtocol.Retry(s, sock))
    {
      closedFds := closedFds + {sock};
      state := Disconnected;
      if connect {
        timers := timers + [Timer(retryDelayMs, round)];
        retryDelayMs := Min(retryDelayMs * 2, MAX_RETRY_DELAY_MS);
      }
    }

    /** removeAndResetChannel. */
    method RemoveAndResetChannel(removable: bool, ghost s: State) returns (sock: Sock)
      requires Shows(s) && !crashed && channel.Chan? && channel.registered
      modifies this`channel, this`appended, this`crashed
      ensures sock == old(channel).sock && Shows(RemoveAndReset(s, removable)) && crashed == !removable
    {
      sock := channel.sock;
      if removable {
        channel := Chan(sock, false);
        appended := appended + [ResetChannel];
      } else {
        crashed := true;
      }
    }

    /** The common end of handleError, stopInLoop and a failed handleWrite. */
    method GiveUp(removable: bool, ghost s: State)
      requires Shows(s) && !crashed && channel.Chan? && channel.registered
      modifies this
      ensures st == old(st) && Shows(GiveUpAttempt(s, removable))
    {
      var sock := RemoveAndResetChannel(removable, s);
      if !crashed {
        Retry(sock, RemoveAndReset(s, removable));
      }
    }

    /** connecting. */
    method ConnectTo(sock: Sock, ghost s: State)
      requires Shows(s) && !crashed && channel.None?
      modifies this`state, this`channel
      ensures Shows(ConnectingTo(s, sock))
    {
      state := Connecting;
      assert channel.None?;             // assert(!channel_)
      channel := Chan(sock, true);
    }

    /** connect; `res` is the class of errno that connect(2) gives. */
    method Connect(res: Outcome, ghost s: State)
      requires Shows(s) && !crashed && channel.None?
      modifies this
      ensures st == old(st) && !crashed && Shows(ConnectorProtocol.Connect(s, res))
    {
      var sock := nextFd;
      nextFd := nextFd + 1;
      match res
      case InProgress => ConnectTo(sock, s.(made := s.made + 1));
      case Retriable => Retry(sock, s.(made := s.made + 1));
      case Fatal => closedFds := closedFds + {sock};
    }

    /** startInLoop. */
    method StartInLoop(res: Outcome, ghost s: State)
      requires Shows(s) && !crashed && state == Disconnected && (connect ==> channel.None?)
      modifies this
      ensures st == old(st) && !crashed && Shows(StartNow(s, res))
    {
      assert state == Disconnected;     // assert(state_ == kDisconnected)
      if connect {
        Connect(res, s);
      }
    }

    /** stopInLoop. */
    method StopInLoop(removable: bool, ghost s: State)
      requires Shows(s) && !crashed && (state == Connecting ==> channel.Chan? && channel.registered)
      modifies this
      ensures st == old(st) && Shows(OnError(s, removable))
    {
      if state == Connecting {
        state := Disconnected;
        var sock := RemoveAndResetChannel(removable, s.(state := Disconnected));
        if !crashed {
          Retry(sock, RemoveAndReset(s.(state := Disconnected), removable));
        }
      }
    }

    /** restart. */
    method Restart(res: Outcome, ghost s: State)
      requires Shows(s) && !crashed && channel.None?
      modifies this
      ensures st == old(st) && !crashed && Shows(ConnectorProtocol.Restart(s, res))
    {
      state := Disconnected;
      retryDelayMs := INIT_RETRY_DELAY_MS;
      connect := true;
      StartInLoop(res, s.(state := Disconnected, retryDelay := INIT_RETRY_DELAY_MS, delays := [], connect := true));
    }

    /** The end of a connection that forceClose closes; the client may restart. */
    method CloseNow(sock: Sock, restart: bool, res: Outcome, ghost s: State)
      requires Shows(s) && !crashed && (live.Handed? && live.sock == sock ==> channel.None?)
      modifies this
      ensures st == old(st) && Shows(RunFn(s, CloseConn(sock), restart, res, true))
    {
      if live.Handed? && live.sock == sock {
        live := NoConn;
        if restart {
          Restart(res, s.(live := NoConn));
        }
      }
    }

    /** The end of a successful handleWrite. */
    method HandOver(sock: Sock, ghost s: State)
      requires Shows(s) && !crashed
      modifies this`state, this`handedFds, this`closedFds, this`live
      ensures var t := s.(state := Connected);
              Shows(if s.connect then t.(handed := t.handed + {sock}, live := Handed(sock, t.round))
                    else t.(closed := t.closed + {sock}))
    {
      state := Connected;
      if connect {
        handedFds := handedFds + {sock};
        live := Handed(sock, round);
      } else {
        closedFds := closedFds + {sock};
      }
    }

    // ---------------------------------------------------------------- what users and the loop call

    /** start() on the loop thread. */
    method Start(res: Outcome)
      requires Valid() && Enabled(st, StartHere(res))
      modifies this
      ensures Valid() && st == Step(old(st), StartHere(res)) && !crashed
      ensures connect && Attempted(st, res, old(nextFd), old(retryDelayMs))
    {
      ReachableIsInv(st);
      StartAttempts(st, res);
      connect := true;
      StartInLoop(res, st.(started := true, connect := true));
      Record(StartHere(res));
    }

    /** start() on another thread. */
    method StartFromElsewhere()
      requires Valid() && Enabled(st, StartElsewhere)
      modifies this
      ensures Valid() && st == Step(old(st), StartElsewhere) && !crashed
      ensures connect && appended == old(appended) + [Fn.StartInLoop] && nextFd == old(nextFd)
    {
      connect := true;
      appended := appended + [Fn.StartInLoop];
      Record(StartElsewhere);
    }

    /** stop(): no attempt is made from now on, and the one in flight will be given up by a functor. */
    method Stop()
      requires Valid() && Enabled(st, ConnectorProtocol.Stop)
      modifies this
      ensures Valid() && st == Step(old(st), ConnectorProtocol.Stop) && !crashed
      ensures !connect && appended == old(appended) + [Fn.StopInLoop] && state == old(state) && channel == old(channel)
    {
      connect := false;
      appended := appended + [Fn.StopInLoop];
      Record(ConnectorProtocol.Stop);
    }

    /** The retry timer calls startInLoop: the next attempt, unless stop() has been called. */
    method OnTimer(res: Outcome)
      requires Valid() && Enabled(st, TimerFires(res))
      modifies this
      ensures Valid() && st == Step(old(st), TimerFires(res)) && !crashed
      ensures if connect then Attempted(st, res, old(nextFd), old(retryDelayMs))
              else nextFd == old(nextFd) && timers == [] && state == Disconnected
    {
      TimerIsAlone(st, res);
      timers := timers[1..];
      StartInLoop(res, st.(timers := st.timers[1..]));
      Record(TimerFires(res));
    }

    /** handleError. */
    method HandleError(removable: bool)
      requires Valid() && Enabled(st, ConnectorProtocol.HandleError(removable))
      modifies this
      ensures Valid() && st == Step(old(st), ConnectorProtocol.HandleError(removable))
      ensures crashed <==> old(state) == Connecting && !removable
      ensures old(state) == Connecting && removable ==> GaveUpOn(st, old(channel).sock, old(retryDelayMs))
      ensures old(state) != Connecting ==> state == old(state) && timers == old(timers)
    {
      ReachableIsInv(st);
      ghost var s := st.(phase := Handling(st.phase.sock, false, st.phase.onWrite));
      if state == Connecting {
        AttemptGivenUp(s);
        GiveUp(removable, s);
      }
      Record(ConnectorProtocol.HandleError(removable));
    }

    /** handleWrite; `failed` says that the socket has an error or is connected to itself. */
    method HandleWrite(failed: bool, removable: bool)
      requires Valid() && Enabled(st, ConnectorProtocol.HandleWrite(failed, removable))
      modifies this
      ensures Valid() && st == Step(old(st), ConnectorProtocol.HandleWrite(failed, removable))
      ensures crashed <==> old(state) == Connecting && !removable
      ensures old(state) == Connecting && removable && failed ==> GaveUpOn(st, old(channel).sock, old(retryDelayMs))
      ensures old(state) == Connecting && removable && !failed ==>
                state == Connected && old(channel).sock in (if connect then handedFds else closedFds)
                && live == if connect then Handed(old(channel).sock, round) else old(live)
      ensures old(state) != Connecting ==> live == old(live) && state == Disconnected && handedFds == old(handedFds)
    {
      ReachableIsInv(st);
      ghost var s := st.(phase := Handling(st.phase.sock, false, false));
      if state == Connecting {
        if failed {
          AttemptGivenUp(s);
          GiveUp(removable, s);
        } else {
          Succeed(removable, s);
        }
      } else {
        assert state == Disconnected;   // assert(state_ == kDisconnected)
      }
      Record(ConnectorProtocol.HandleWrite(failed, removable));
    }

    /** The successful half of handleWrite. */
    method Succeed(removable: bool, ghost s: State)
      requires Shows(s) && !crashed && state == Connecting && channel.Chan? && channel.registered
      modifies this
      ensures st == old(st) && Shows(OnWrite(s, false, removable)) && crashed == !removable && connect == old(connect)
      ensures removable ==> state == Connected && old(channel).sock in (if connect then handedFds else closedFds)
      ensures removable ==>
                round == old(round) && live == if connect then Handed(old(channel).sock, round) else old(live)
    {
      var sock := RemoveAndResetChannel(removable, s);
      if !crashed {
        HandOver(sock, RemoveAndReset(s, removable));
      }
    }

    /** restart(), when the peer has closed the handed-over connection: a new attempt, with the delay at its start. */
    method RestartAfterPeerClose(res: Outcome)
      requires Valid() && Enabled(st, PeerClose(true, res))
      modifies this
      ensures Valid() && st == Step(old(st), PeerClose(true, res)) && !crashed
      ensures connect && live == NoConn && Attempted(st, res, old(nextFd), 500)
    {
      ReachableIsInv(st);
      RestartAttempts(st, res);
      live := NoConn;
      Restart(res, st.(live := NoConn));
      Record(PeerClose(true, res));
    }

    /** The loop runs resetChannel: the dead channel is destroyed. */
    method RunResetChannel(restart: bool, res: Outcome, removable: bool)
      requires Valid() && Enabled(st, RunFunctor(restart, res, removable)) && st.batch[0] == ResetChannel
      modifies this
      ensures Valid() && st == Step(old(st), RunFunctor(restart, res, removable)) && !crashed
      ensures old(channel).Chan? && !old(channel).registered && channel == None && st.batch == old(st).batch[1..]
    {
      ReachableIsInv(st);
      assert ResetChannel in st.batch;
      channel := None;
      Record(RunFunctor(restart, res, removable));
    }

    /** The loop runs stopInLoop: an attempt in flight is given up, and no retry is set. */
    method RunStopInLoop(restart: bool, res: Outcome, removable: bool)
      requires Valid() && Enabled(st, RunFunctor(restart, res, removable)) && st.batch[0] == Fn.StopInLoop
      modifies this
      ensures Valid() && st == Step(old(st), RunFunctor(restart, res, removable))
      ensures crashed <==> old(state) == Connecting && !removable
      ensures old(state) == Connecting && removable ==>
                !connect && st.batch == old(st).batch[1..] && timers == []
                && GaveUpOn(st, old(channel).sock, old(retryDelayMs))
    {
      ReachableIsInv(st);
      assert Fn.StopInLoop in st.batch;
      ghost var s := st.(batch := st.batch[1..]);
      if state == Connecting { AttemptGivenUp(s); }
      StopInLoop(removable, s);
      Record(RunFunctor(restart, res, removable));
    }

    /** The loop runs startInLoop, queued by start() on another thread. */
    method RunStartInLoop(restart: bool, res: Outcome, removable: bool)
      requires Valid() && Enabled(st, RunFunctor(restart, res, removable)) && st.batch[0] == Fn.StartInLoop
      modifies this
      ensures Valid() && st == Step(old(st), RunFunctor(restart, res, removable)) && !crashed
      ensures st.batch == old(st).batch[1..]
      ensures if connect then Attempted(st, res, old(nextFd), old(retryDelayMs))
              else nextFd == old(nextFd) && timers == []
    {
      ReachableIsInv(st);
      assert Fn.StartInLoop in st.batch;
      if connect { QueuedStartAttempts(st, res); }
      StartInLoop(res, st.(batch := st.batch[1..]));
      Record(RunFunctor(restart, res, removable));
    }

    /** The loop runs the close of a connection that forceClose() closed. */
    method RunCloseConn(sock: Sock, restart: bool, res: Outcome, removable: bool)
      requires Valid() && Enabled(st, RunFunctor(restart, res, removable)) && st.batch[0] == CloseConn(sock)
      modifies this
      ensures Valid() && st == Step(old(st), RunFunctor(restart, res, removable)) && !crashed
      ensures st.batch == old(st).batch[1..]
      ensures if old(live).Handed? && old(live).sock == sock then
                live == NoConn && if restart then connect && Attempted(st, res, old(nextFd), 500) else SameBut(old(st))
              else live == old(live) && SameBut(old(st))
    {
      CloseRestarts(st, sock, restart, res, removable);
      CloseNow(sock, restart, res, st.(batch := st.batch[1..]));
      Record(RunFunctor(restart, res, removable));
    }

    /** The loop swaps the queue of functors out. */
    method BeginFunctors()
      requires Valid() && Enabled(st, ConnectorProtocol.BeginFunctors)
      modifies this
      ensures Valid() && st == Step(old(st), ConnectorProtocol.BeginFunctors) && appended == [] && !crashed
      ensures st.batch == old(appended)
    {
      appended := [];
      Record(ConnectorProtocol.BeginFunctors);
    }

    /** The other steps of the loop: they touch nothing of the connector's. */
    method LoopStep(e: Event)
      requires Valid() && Enabled(st, e)
      requires e.BeginHandle? || e.EndHandle? || (e.PeerClose? && !e.restart) || e.PollRound?
      modifies this`st, this`round, this`live
      ensures Valid() && st == Step(old(st), e) && !crashed
      ensures round == (if e.PollRound? then old(round) + 1 else old(round))
      ensures live == (if e.PeerClose? then NoConn else old(live))
    {
      ReachableIsInv(st);
      StepKeepsInv(st, e);
      if e.PollRound? {
        round := round + 1;
      } else if e.PeerClose? {
        live := NoConn;
      }
      Record(e);
    }

    /** forceClose() of the handed-over connection queues its close. */
    method ForceClose()
      requires Valid() && Enabled(st, ConnectorProtocol.ForceClose)
      modifies this
      ensures Valid() && st == Step(old(st), ConnectorProtocol.ForceClose) && !crashed
      ensures live == old(live) && live.Handed? && appended == old(appended) + [CloseConn(live.sock)]
    {
      appended := appended + [CloseConn(live.sock)];
      Record(ConnectorProtocol.ForceClose);
    }
  }
}
