/** The connection object: its handlers work on a Buffer and a Channel, and do to them what the stream model says. */
module TcpConnections {
  import opened Buffers
  import opened Pollers
  import opened TcpStreams

  class TcpConnection {
    const channel: Channel
    const output: Buffer
    const hooks: Hooks
    var phase: Phase
    var notices: seq<Notice>
    var shut: bool
    ghost var wire: seq<Byte>
    ghost var accepted: seq<Byte>
    ghost var removed: bool

    ghost predicate Valid()
      reads this, output, channel, channel.poller, channel.poller.world
    {
      && output.Valid()
      && channel.poller.Valid() && channel in channel.poller.world
      && (!removed && channel.events != NONE_EVENT ==> channel.index == Added)
    }

    ghost function View(): Conn
      requires output.Valid()
      reads this, output, output.data, channel
    {
      Conn(phase, channel.events, output.Contents(), wire, accepted, notices, shut, channel.tied)
    }

    constructor (channel: Channel, hooks: Hooks)
      requires channel.poller.Valid() && channel in channel.poller.world && channel.events == NONE_EVENT && !channel.tied
      ensures Valid() && View() == NEW_CONN && this.channel == channel && this.hooks == hooks && !removed
      ensures fresh(output) && fresh(output.data)
    {
      this.channel, this.hooks := channel, hooks;
      output := new Buffer(INITIAL_SIZE);
      phase, notices, shut := Connecting, [], false;
      wire, accepted, removed := [], [], false;
    }

    /** Bytes that wait on a connection that is neither down nor removed have EPOLLOUT registered in the kernel. */
    lemma PendingIsWatched()
      requires Valid() && StreamOk(View()) && !removed && output.Contents() != [] && phase != Disconnected
      ensures channel.fd in channel.poller.kernel
      ensures channel.poller.kernel[channel.fd] & WRITE_EVENT == WRITE_EVENT
    {
      assert channel.poller.Agrees(channel);
      assert NONE_EVENT & WRITE_EVENT != WRITE_EVENT;
    }

    method ConnectEstablished()
      requires Valid() && !removed
      modifies this`phase, this`notices, channel, channel.poller
      ensures Valid() && View() == EstablishStep(old(View()))
    {
      hide EpollPoller.Valid, TidyTables, ListedIn, KnownIn;
      ghost var c := View();
      phase := Connected;
      channel.Tie();
      channel.EnableReading();
      notices := notices + [ConnectionChanged];
      assert View().output == c.output;
      assert View() == c.(phase := Connected, events := channel.events, tied := true, notices := notices);
    }

    /** `o` is the kernel's answer should the data be written at once.  A send may have been queued before the
        connection was destroyed: what it leaves waiting then puts the removed channel back into the kernel's table. */
    method SendInLoop(data: seq<Byte>, o: Outcome)
      requires Valid() && MayAnswer(o, |data|)
      modifies this`notices, this`wire, this`accepted, output, output.data, channel, channel.poller
      ensures output.Valid() && (output.data == old(output.data) || fresh(output.data))
      ensures Valid() && View() == SendStep(old(View()), hooks, data, o)
      ensures View().output != old(View()).output && old(channel.events) != WRITE_EVENT ==> channel.index == Added
    {
      hide EpollPoller.Valid, TidyTables, ListedIn, KnownIn, Buffer.Valid, Buffer.Contents, SendStep, HighWaterNotice;
      ghost var c := View();
      if phase == Disconnected {
        SendRefused(c, hooks, data, o);
        return;
      }
      var nwrote, faultError := TryWrite(data, o);
      ghost var c1 := View();
      if !faultError && |data| - nwrote > 0 {
        Enqueue(data[nwrote..]);
      }
      SendComposes(c, c1, View(), hooks, data, o, nwrote);
    }

    /** Lines 175-199: if nothing is queued before, so the data may go out at once. */
    method TryWrite(data: seq<Byte>, o: Outcome) returns (nwrote: nat, faultError: bool)
      requires Valid() && MayAnswer(o, |data|)
      modifies this`notices, this`wire, this`accepted
      ensures Valid() && nwrote == Sent(old(View()), |data|, o) && faultError == Faulty(old(View()), o)
      ensures View() == WriteStep(old(View()), hooks, data, o)
    {
      hide EpollPoller.Valid, TidyTables, ListedIn, KnownIn;
      nwrote, faultError := 0, false;
      if !channel.IsWriteEvent() && output.ReadableBytes() == 0 {
        match o
        case Wrote(n) =>
          nwrote := n;
          if |data| - nwrote == 0 && hooks.complete {
            notices := notices + [WriteComplete];
          }
        case Failed(errno) =>
          if errno == EWOULDBLOCK {
            if errno == EPIPE || errno == ECONNRESET {
              faultError := true;
            }
          }
      }
      wire := wire + data[..nwrote];
      accepted := accepted + data;
    }

    /** Lines 205-222: what is left goes to the output buffer. */
    method Enqueue(rest: seq<Byte>)
      requires Valid() && rest != []
      modifies this`notices, output, output.data, channel, channel.poller
      ensures output.Valid() && (output.data == old(output.data) || fresh(output.data))
      ensures Valid() && View() == EnqueueStep(old(View()), hooks, rest)
      ensures View().output == old(View()).output + rest
      ensures notices == old(notices) + if hooks.highWater && |old(View()).output| < hooks.mark <= |View().output|
                                        then [HighWater(|View().output|)] else []
      ensures old(channel.events) != WRITE_EVENT ==> channel.index == Added
    {
      hide EpollPoller.Valid, TidyTables, ListedIn, KnownIn, AskStep, Buffer.Valid, Buffer.Contents, HighWaterNotice;
      AppendRest(rest);
      AskForWriting();
    }

    /** Lines 207-215. */
    method AppendRest(rest: seq<Byte>)
      requires Valid()
      modifies this`notices, output, output.data
      ensures output.Valid() && (output.data == old(output.data) || fresh(output.data))
      ensures Valid()
      ensures View() == old(View()).(output := old(View()).output + rest,
                                     notices := old(View()).notices + HighWaterNotice(|old(View()).output|, |rest|, hooks))
      ensures notices == old(notices) + if hooks.highWater && |old(View()).output| < hooks.mark <= |View().output|
                                        then [HighWater(|View().output|)] else []
    {
      hide EpollPoller.Valid, TidyTables, ListedIn, KnownIn;
      var oldLen := output.ReadableBytes();
      if oldLen + |rest| >= hooks.mark && oldLen < hooks.mark && hooks.highWater {
        notices := notices + [HighWater(oldLen + |rest|)];
      }
      output.Append(rest);
    }

    /** Lines 216-221. */
    method AskForWriting()
      requires Valid()
      modifies channel, channel.poller
      ensures Valid() && View() == AskStep(old(View()))
      ensures old(channel.events) != WRITE_EVENT ==> channel.index == Added
    {
      hide EpollPoller.Valid, TidyTables, ListedIn, KnownIn;
      ghost var c := View();
      if !channel.IsWriteEvent() {
        channel.EnableWriting();
      }
      assert View().output == c.output;
      assert View() == c.(events := channel.events);
    }

    method ShutdownInLoop()
      modifies this`shut
      ensures shut == (old(shut) || channel.events != WRITE_EVENT)
    {
      if !channel.IsWriteEvent() {
        shut := true;
      }
    }

    /** `o` is the kernel's answer to a write of everything that waits. */
    method HandleWrite(o: Outcome)
      requires Valid() && !removed && MayAnswer(o, |output.Contents()|)
      modifies this`notices, this`wire, this`shut, output, channel, channel.poller
      ensures Valid() && View() == HandleWriteStep(old(View()), hooks, o)
    {
      hide EpollPoller.Valid, TidyTables, ListedIn, KnownIn;
      if channel.IsWriteEvent() {
        if o.Wrote? && o.n > 0 {
          wire := wire + output.Contents()[..o.n];
          output.Retrieve(o.n);
          if output.ReadableBytes() == 0 {
            channel.DisableWriting();
            if hooks.complete {
              notices := notices + [WriteComplete];
            }
            if phase == Disconnecting {
              ShutdownInLoop();
            }
          }
        }
      }
    }

    method HandleClose()
      requires Valid() && !removed
      modifies this`phase, this`notices, channel, channel.poller
      ensures Valid() && View() == HandleCloseStep(old(View()))
    {
      hide EpollPoller.Valid, TidyTables, ListedIn, KnownIn;
      ghost var c := View();
      phase := Disconnected;
      channel.DisableAll();
      notices := notices + [ConnectionChanged, CloseReported];
      assert View().output == c.output;
      assert View() == c.(phase := Disconnected, events := NONE_EVENT, notices := notices);
    }

    method Shutdown()
      requires Valid()
      modifies this`phase, this`notices
      ensures Valid() && View() == ShutdownStep(old(View()))
    {
      if phase == Connected {
        phase := Disconnecting;
        notices := notices + [ShutdownAsked];
      }
    }

    method ConnectDestroyed()
      requires Valid() && !removed
      modifies this`phase, this`notices, this`removed, channel, channel.poller
      ensures Valid() && removed && View() == DestroyStep(old(View()))
      ensures channel.fd !in channel.poller.kernel && channel.fd !in channel.poller.channels
    {
      hide EpollPoller.Valid, TidyTables, ListedIn, KnownIn;
      ghost var c := View();
      if phase == Connected {
        phase := Disconnected;
        channel.DisableAll();
        notices := notices + [ConnectionChanged];
      }
      channel.Remove();
      removed := true;
      assert View().output == c.output;
      assert View() == c.(phase := phase, events := channel.events, notices := notices);
    }
  }

  /** A connection destroyed between Shutdown and a queued send: the send brings its channel back. */
  method SendAfterDestroy(h: Hooks, fd: nat, data: seq<Byte>) returns (gone: bool, back: bool)
    requires data != []
    ensures gone && back
  {
    var p := new EpollPoller();
    var c := new Channel(p, fd);
    var conn := new TcpConnection(c, h);
    conn.ConnectEstablished();
    conn.Shutdown();
    conn.ConnectDestroyed();
    gone := fd !in p.kernel;
    ghost var v := conn.View();
    NeverFaulty(v, Failed(EWOULDBLOCK));
    conn.SendInLoop(data, Failed(EWOULDBLOCK));
    assert p.Agrees(c);
    back := fd in p.kernel;
  }
}
