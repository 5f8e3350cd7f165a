/** The outgoing byte stream of a connection as values: what each handler does to it, and what every run keeps. */
module TcpStreams {
  import opened Buffers
  import opened Pollers

  const EWOULDBLOCK: nat := 11
  const EPIPE: nat := 32
  const ECONNRESET: nat := 104

  datatype Phase = Connecting | Connected | Disconnecting | Disconnected

  /** What the kernel answers to write(2). */
  datatype Outcome = Wrote(n: nat) | Failed(errno: nat)

  /** Callbacks, in the order they were called or handed to the loop. */
  datatype Notice =
    | WriteComplete                // queued
    | HighWater(len: nat)          // queued
    | ConnectionChanged            // connection_callback_, called
    | CloseReported                // close_callback_, called
    | ShutdownAsked                // ShutdownInLoop, handed to RunInLoop

  /** Which callbacks are set, and the high-water mark. */
  datatype Hooks = Hooks(complete: bool, highWater: bool, mark: nat)

  /** `wire` is what the kernel took so far, `accepted` what the application handed over; `tied` is the channel's. */
  datatype Conn = Conn(phase: Phase, events: Mask, output: seq<Byte>, wire: seq<Byte>, accepted: seq<Byte>,
                       notices: seq<Notice>, shut: bool, tied: bool)

  predicate MayAnswer(o: Outcome, len: nat) {
    o.Wrote? ==> o.n <= len
  }

  /** SendInLoop writes to the socket itself only if nothing is queued before. */
  predicate Direct(c: Conn) {
    c.events != WRITE_EVENT && c.output == []
  }

  /** Bytes SendInLoop gets rid of at once. */
  function Sent(c: Conn, len: nat, o: Outcome): (n: nat)
    requires MayAnswer(o, len)
    ensures n <= len
  {
    if Direct(c) && o.Wrote? then o.n else 0
  }

  /** Lines 186-198: the error tests are nested in the test for EWOULDBLOCK. */
  predicate Faulty(c: Conn, o: Outcome) {
    Direct(c) && o.Failed? && o.errno == EWOULDBLOCK && (o.errno == EPIPE || o.errno == ECONNRESET)
  }

  /** The high-water callback fires when a send takes the queue across the mark. */
  function HighWaterNotice(before: nat, added: nat, h: Hooks): seq<Notice> {
    if before + added >= h.mark && before < h.mark && h.highWater then [HighWater(before + added)] else []
  }

  /** The first half of SendInLoop: write what can be written. */
  function WriteStep(c: Conn, h: Hooks, data: seq<Byte>, o: Outcome): Conn
    requires MayAnswer(o, |data|)
  {
    var n := Sent(c, |data|, o);
    c.(wire := c.wire + data[..n], accepted := c.accepted + data,
       notices := c.notices + if Direct(c) && o.Wrote? && n == |data| && h.complete then [WriteComplete] else [])
  }

  function AskStep(c: Conn): Conn {
    c.(events := if c.events == WRITE_EVENT then c.events else c.events | WRITE_EVENT)
  }

  /** The second half: queue the rest and ask for EPOLLOUT. */
  function EnqueueStep(c: Conn, h: Hooks, rest: seq<Byte>): Conn {
    AskStep(c.(output := c.output + rest, notices := c.notices + HighWaterNotice(|c.output|, |rest|, h)))
  }

  function SendStep(c: Conn, h: Hooks, data: seq<Byte>, o: Outcome): Conn
    requires MayAnswer(o, |data|)
  {
    if c.phase == Disconnected then c
    else
      var (n, d) := (Sent(c, |data|, o), WriteStep(c, h, data, o));
      if !Faulty(c, o) && n < |data| then EnqueueStep(d, h, data[n..]) else d
  }

  function ShutdownInLoopStep(c: Conn): Conn {
    if c.events != WRITE_EVENT then c.(shut := true) else c
  }

  function ShutdownStep(c: Conn): Conn {
    if c.phase == Connected then c.(phase := Disconnecting, notices := c.notices + [ShutdownAsked]) else c
  }

  /** HandleWrite once the last byte is gone. */
  function DrainedStep(c: Conn, h: Hooks): Conn {
    var d := c.(events := c.events & !WRITE_EVENT, notices := c.notices + if h.complete then [WriteComplete] else []);
    if c.phase == Disconnecting then ShutdownInLoopStep(d) else d
  }

  function HandleWriteStep(c: Conn, h: Hooks, o: Outcome): Conn
    requires MayAnswer(o, |c.output|)
  {
    if c.events != WRITE_EVENT || o.Failed? || o.n == 0 then c
    else
      var d := c.(wire := c.wire + c.output[..o.n], output := c.output[o.n..]);
      if d.output == [] then DrainedStep(d, h) else d
  }

  function HandleCloseStep(c: Conn): Conn {
    c.(phase := Disconnected, events := NONE_EVENT, notices := c.notices + [ConnectionChanged, CloseReported])
  }

  function EstablishStep(c: Conn): Conn {
    c.(phase := Connected, events := c.events | READ_EVENT, tied := true, notices := c.notices + [ConnectionChanged])
  }

  function DestroyStep(c: Conn): Conn {
    if c.phase == Connected then
      c.(phase := Disconnected, events := NONE_EVENT, notices := c.notices + [ConnectionChanged])
    else c
  }

  // ---------------------------------------------------------------- runs

  datatype Action =
    | Establish
    | Send(data: seq<Byte>, outcome: Outcome)    // SendInLoop, by now or earlier asked for on a connected socket
    | Writable(outcome: Outcome)                 // HandleWrite
    | Close                                      // HandleClose: end of file or hang-up
    | Shutdown
    | ShutdownInLoop
    | Destroy

  predicate Possible(c: Conn, a: Action) {
    match a
    case Establish => c.phase == Connecting
    case Send(data, o) => c.phase != Connecting && MayAnswer(o, |data|)
    case Writable(o) => MayAnswer(o, |c.output|)
    case ShutdownInLoop => c.phase != Connecting
    case _ => true
  }

  function Act(c: Conn, h: Hooks, a: Action): Conn
    requires Possible(c, a)
  {
    match a
    case Establish => EstablishStep(c)
    case Send(data, o) => SendStep(c, h, data, o)
    case Writable(o) => HandleWriteStep(c, h, o)
    case Close => HandleCloseStep(c)
    case Shutdown => ShutdownStep(c)
    case ShutdownInLoop => ShutdownInLoopStep(c)
    case Destroy => DestroyStep(c)
  }

  ghost predicate Runs(c: Conn, h: Hooks, actions: seq<Action>, d: Conn)
    decreases |actions|
  {
    if actions == [] then d == c
    else Possible(c, actions[0]) && Runs(Act(c, h, actions[0]), h, actions[1..], d)
  }

  const NEW_CONN: Conn := Conn(Connecting, NONE_EVENT, [], [], [], [], false, false)

  /** The stream is whole, and while bytes wait on a connection that is not down the kernel is asked for EPOLLOUT. */
  predicate StreamOk(c: Conn) {
    && c.wire + c.output == c.accepted
    && (c.output != [] && c.phase != Disconnected ==> c.events & WRITE_EVENT == WRITE_EVENT)
  }

  /** From establishment to the end the connection stays interested in reading. */
  predicate Reading(c: Conn) {
    match c.phase
    case Connecting => c.events == NONE_EVENT
    case Disconnected => c.events == NONE_EVENT
    case _ => c.events & READ_EVENT == READ_EVENT
  }

  lemma SendRefused(c: Conn, h: Hooks, data: seq<Byte>, o: Outcome)
    requires c.phase == Disconnected && MayAnswer(o, |data|)
    ensures SendStep(c, h, data, o) == c
  {
  }

  lemma SendComposes(c: Conn, c1: Conn, c2: Conn, h: Hooks, data: seq<Byte>, o: Outcome, n: nat)
    requires c.phase != Disconnected && MayAnswer(o, |data|) && n == Sent(c, |data|, o) && c1 == WriteStep(c, h, data, o)
    requires c2 == if !Faulty(c, o) && n < |data| then EnqueueStep(c1, h, data[n..]) else c1
    ensures SendStep(c, h, data, o) == c2
  {
  }

  lemma NeverFaulty(c: Conn, o: Outcome)
    ensures !Faulty(c, o)
  {
  }

  lemma WriteBit(e: Mask)
    ensures (e | WRITE_EVENT) & WRITE_EVENT == WRITE_EVENT && (e | READ_EVENT) & WRITE_EVENT == e & WRITE_EVENT
    ensures WRITE_EVENT & WRITE_EVENT == WRITE_EVENT
  {
  }

  /** What goes out and what is queued make up the data, behind everything before. */
  lemma SplitConserves(wire: seq<Byte>, output: seq<Byte>, accepted: seq<Byte>, data: seq<Byte>, n: nat)
    requires wire + output == accepted && n <= |data| && (n > 0 ==> output == [])
    ensures (wire + data[..n]) + (output + data[n..]) == accepted + data
    ensures n == |data| ==> (wire + data[..n]) + output == accepted + data
  {
    assert data[..n] + data[n..] == data;
    if n == 0 {
      assert data[..0] == [] && wire + [] == wire;
    }
  }

  lemma SendIs(c: Conn, h: Hooks, data: seq<Byte>, o: Outcome)
    requires MayAnswer(o, |data|) && c.phase != Disconnected
    ensures var d, n := SendStep(c, h, data, o), Sent(c, |data|, o);
            && d.wire == c.wire + data[..n] && d.accepted == c.accepted + data && (n > 0 ==> c.output == [])
            && d.output == if n < |data| then c.output + data[n..] else c.output
  {
    NeverFaulty(c, o);
    hide Faulty, HighWaterNotice;
  }

  /** All a send does to a connection that is not down.  It goes out at once, as far as the kernel takes it, if nothing is
      queued and writing is not the only interest; the rest is queued and EPOLLOUT asked for.  The write-complete
      callback is called for exactly when such a write takes everything, the high-water callback exactly when the
      queue crosses the mark, with the length of the whole queue, and no other callback. */
  lemma SendMeans(c: Conn, h: Hooks, data: seq<Byte>, o: Outcome, d: Conn)
    requires (o.Wrote? ==> o.n <= |data|) && d == SendStep(c, h, data, o)
    ensures c.phase == Disconnected ==> d == c
    ensures c.phase != Disconnected ==>
              var direct := c.events != WRITE_EVENT && c.output == [] && o.Wrote?;
              var n := if direct then o.n else 0;
              && d.wire == c.wire + data[..n] && d.output == c.output + data[n..] && d.accepted == c.accepted + data
              && d.events == (if n == |data| || c.events == WRITE_EVENT then c.events else c.events | WRITE_EVENT)
              && d.notices == c.notices
                              + (if h.complete && direct && |d.wire| == |c.wire| + |data| then [WriteComplete] else [])
                              + (if h.highWater && |c.output| < h.mark <= |d.output| then [HighWater(|d.output|)] else [])
              && (d.phase, d.shut, d.tied) == (c.phase, c.shut, c.tied)
  {
    if c.phase != Disconnected {
      SendIs(c, h, data, o);
      SendNotices(c, h, data, o);
      SendEvents(c, h, data, o);
      hide SendStep;
      if Sent(c, |data|, o) == |data| {
        assert c.output + data[|data|..] == c.output;
      }
      assert |d.output| == |c.output| + |data| - Sent(c, |data|, o);
    }
  }

  lemma SendNotices(c: Conn, h: Hooks, data: seq<Byte>, o: Outcome)
    requires MayAnswer(o, |data|) && c.phase != Disconnected
    ensures var d, n := SendStep(c, h, data, o), Sent(c, |data|, o);
            && d.notices == c.notices
                            + (if h.complete && Direct(c) && o.Wrote? && n == |data| then [WriteComplete] else [])
                            + (if h.highWater && |c.output| < h.mark <= |c.output| + |data| - n then [HighWater(|c.output| + |data| - n)] else [])
            && (d.phase, d.shut, d.tied) == (c.phase, c.shut, c.tied)
  {
    NeverFaulty(c, o);
    var n, c1 := Sent(c, |data|, o), WriteStep(c, h, data, o);
    var c2 := if n < |data| then EnqueueStep(c1, h, data[n..]) else c1;
    SendComposes(c, c1, c2, h, data, o, n);
    WriteNotices(c, h, data, o);
    EnqueueNotices(c1, h, data[n..]);
    hide Faulty, Direct, Sent, WriteStep, EnqueueStep, SendStep;
    if n == |data| {
      assert c2.notices + [] == c2.notices;
    }
  }

  lemma SendEvents(c: Conn, h: Hooks, data: seq<Byte>, o: Outcome)
    requires MayAnswer(o, |data|) && c.phase != Disconnected
    ensures SendStep(c, h, data, o).events
            == if Sent(c, |data|, o) == |data| || c.events == WRITE_EVENT then c.events else c.events | WRITE_EVENT
  {
    NeverFaulty(c, o);
    hide Faulty, Direct, Sent, HighWaterNotice;
  }

  lemma WriteNotices(c: Conn, h: Hooks, data: seq<Byte>, o: Outcome)
    requires MayAnswer(o, |data|)
    ensures var d := WriteStep(c, h, data, o);
            && d.notices == c.notices + (if h.complete && Direct(c) && o.Wrote? && Sent(c, |data|, o) == |data| then [WriteComplete] else [])
            && (d.phase, d.shut, d.tied, d.events, d.output) == (c.phase, c.shut, c.tied, c.events, c.output)
  {
    hide Direct, Sent;
  }

  lemma EnqueueNotices(c: Conn, h: Hooks, rest: seq<Byte>)
    ensures var d := EnqueueStep(c, h, rest);
            && d.notices == c.notices + (if h.highWater && |c.output| < h.mark <= |c.output| + |rest| then [HighWater(|c.output| + |rest|)] else [])
            && (d.phase, d.shut, d.tied) == (c.phase, c.shut, c.tied)
  {
  }

  /** All that HandleWrite does.  Only a connection interested in nothing but writing is served; the front of the queue
      goes out as far as the kernel takes it.  When that empties the queue nothing is asked of the kernel any more, the
      write-complete callback is called for, and a connection that is disconnecting closes its sending side. */
  lemma HandleWriteMeans(c: Conn, h: Hooks, o: Outcome, d: Conn)
    requires (o.Wrote? ==> o.n <= |c.output|) && d == HandleWriteStep(c, h, o)
    ensures c.events != WRITE_EVENT || o.Failed? || o.n == 0 ==> d == c
    ensures c.events == WRITE_EVENT && o.Wrote? && o.n > 0 ==>
              var empty := o.n == |c.output|;
              && |d.wire| == |c.wire| + o.n && d.wire + d.output == c.wire + c.output && d.accepted == c.accepted
              && d.events == (if empty then NONE_EVENT else WRITE_EVENT)
              && d.notices == c.notices + (if empty && h.complete then [WriteComplete] else [])
              && d.shut == (c.shut || (empty && c.phase == Disconnecting))
              && (d.phase, d.tied) == (c.phase, c.tied)
  {
    if c.events == WRITE_EVENT && o.Wrote? && o.n > 0 {
      assert c.output == c.output[..o.n] + c.output[o.n..];
      assert WRITE_EVENT & !WRITE_EVENT == NONE_EVENT && NONE_EVENT != WRITE_EVENT;
    }
  }

  /** The other handlers, field by field: which phase, which interest, which callbacks in which order. */
  lemma HandlersMean(c: Conn)
    ensures EstablishStep(c) == Conn(Connected, c.events | READ_EVENT, c.output, c.wire, c.accepted,
                                     c.notices + [ConnectionChanged], c.shut, true)
    ensures HandleCloseStep(c) == Conn(Disconnected, NONE_EVENT, c.output, c.wire, c.accepted,
                                       c.notices + [ConnectionChanged] + [CloseReported], c.shut, c.tied)
    ensures c.phase == Connected ==>
              && DestroyStep(c) == Conn(Disconnected, NONE_EVENT, c.output, c.wire, c.accepted,
                                        c.notices + [ConnectionChanged], c.shut, c.tied)
              && ShutdownStep(c) == Conn(Disconnecting, c.events, c.output, c.wire, c.accepted,
                                         c.notices + [ShutdownAsked], c.shut, c.tied)
    ensures c.phase != Connected ==> DestroyStep(c) == ShutdownStep(c) == c
    ensures ShutdownInLoopStep(c) == Conn(c.phase, c.events, c.output, c.wire, c.accepted, c.notices,
                                          c.shut || c.events != WRITE_EVENT, c.tied)
  {
  }

  lemma SendConserves(c: Conn, h: Hooks, data: seq<Byte>, o: Outcome)
    requires c.wire + c.output == c.accepted && MayAnswer(o, |data|)
    ensures var d := SendStep(c, h, data, o); d.wire + d.output == d.accepted
  {
    if c.phase == Disconnected {
      SendRefused(c, h, data, o);
    } else {
      SendIs(c, h, data, o);
      hide SendStep, Sent;
      SplitConserves(c.wire, c.output, c.accepted, data, Sent(c, |data|, o));
    }
  }

  lemma SendKeepsInterest(c: Conn, h: Hooks, data: seq<Byte>, o: Outcome)
    requires StreamOk(c) && MayAnswer(o, |data|)
    ensures var d := SendStep(c, h, data, o);
            d.output != [] && d.phase != Disconnected ==> d.events & WRITE_EVENT == WRITE_EVENT
  {
    WriteBit(c.events);
    hide Faulty, HighWaterNotice, Sent, Direct;
  }

  lemma WriteConserves(c: Conn, h: Hooks, o: Outcome)
    requires StreamOk(c) && MayAnswer(o, |c.output|)
    ensures StreamOk(HandleWriteStep(c, h, o))
  {
    WriteBit(c.events);
    if c.events == WRITE_EVENT && o.Wrote? {
      assert c.output[..o.n] + c.output[o.n..] == c.output;
      assert c.wire + c.output[..o.n] + c.output[o.n..] == c.accepted;
    }
  }

  /** No outcome of write(2) loses, repeats or reorders a byte. */
  lemma StreamOkStep(c: Conn, h: Hooks, a: Action)
    requires StreamOk(c) && Possible(c, a)
    ensures StreamOk(Act(c, h, a))
  {
    hide SendStep, HandleWriteStep;
    match a
    case Send(data, o) =>
      SendConserves(c, h, data, o);
      SendKeepsInterest(c, h, data, o);
    case Writable(o) => WriteConserves(c, h, o);
    case Establish => WriteBit(c.events);
    case _ =>
  }

  lemma ReadingStep(c: Conn, h: Hooks, a: Action)
    requires Reading(c) && Possible(c, a)
    ensures Reading(Act(c, h, a))
  {
    hide Faulty, HighWaterNotice, Sent, Direct;
  }

  /** HandleWrite does something exactly for a connection interested in writing and in nothing else. */
  lemma WritesIff(c: Conn, h: Hooks, o: Outcome)
    requires MayAnswer(o, |c.output|)
    ensures HandleWriteStep(c, h, o).wire != c.wire <==> c.events == WRITE_EVENT && o.Wrote? && o.n > 0
  {
    if c.events == WRITE_EVENT && o.Wrote? && o.n > 0 {
      assert |HandleWriteStep(c, h, o).wire| == |c.wire| + o.n;
    }
  }

  lemma NeverOnlyWriting(c: Conn)
    requires Reading(c)
    ensures c.events != WRITE_EVENT
  {
    assert WRITE_EVENT & READ_EVENT != READ_EVENT;
  }

  /** Byte-stream conservation over whole runs. */
  lemma {:induction false} StreamIsConserved(c: Conn, h: Hooks, actions: seq<Action>, d: Conn)
    requires StreamOk(c) && Runs(c, h, actions, d)
    ensures StreamOk(d)
    decreases |actions|
  {
    if actions != [] {
      hide StreamOk, Act, Possible;
      StreamOkStep(c, h, actions[0]);
      StreamIsConserved(Act(c, h, actions[0]), h, actions[1..], d);
    }
  }

  /** As reading stays enabled, HandleWrite never writes: once output is waiting, no run puts another byte on the wire,
      and the output only grows. */
  lemma {:induction false} PendingOutputIsStuck(c: Conn, h: Hooks, actions: seq<Action>, d: Conn)
    requires Reading(c) && c.output != [] && Runs(c, h, actions, d)
    ensures d.wire == c.wire && c.output <= d.output
    decreases |actions|
  {
    if actions != [] {
      var c' := Act(c, h, actions[0]);
      ReadingStep(c, h, actions[0]);
      StuckStep(c, h, actions[0]);
      hide Act, Possible, Reading;
      PendingOutputIsStuck(c', h, actions[1..], d);
    }
  }

  lemma StuckStep(c: Conn, h: Hooks, a: Action)
    requires Reading(c) && c.output != [] && Possible(c, a)
    ensures Act(c, h, a).wire == c.wire && c.output <= Act(c, h, a).output
  {
    NeverOnlyWriting(c);
    hide Reading, HighWaterNotice;
    match a
    case Send(data, o) => assert c.wire + data[..0] == c.wire;
    case _ =>
  }

  /** How often the high-water callback was called for. */
  function HighWaters(notices: seq<Notice>): nat {
    if notices == [] then 0
    else HighWaters(notices[..|notices| - 1]) + if notices[|notices| - 1].HighWater? then 1 else 0
  }

  lemma HighWatersNext(notices: seq<Notice>, n: Notice)
    ensures HighWaters(notices + [n]) == HighWaters(notices) + if n.HighWater? then 1 else 0
  {
    assert (notices + [n])[..|notices|] == notices;
  }

  /** The callback was called for once if the queue has reached the mark, and not before. */
  predicate WaterCounted(c: Conn, h: Hooks) {
    HighWaters(c.notices) == if h.highWater && 0 < h.mark <= |c.output| then 1 else 0
  }

  lemma WaterStep(c: Conn, h: Hooks, a: Action)
    requires Reading(c) && Possible(c, a) && WaterCounted(c, h)
    ensures WaterCounted(Act(c, h, a), h)
  {
    NeverOnlyWriting(c);
    var d := Act(c, h, a);
    match a
    case Send(data, o) =>
      SendMeans(c, h, data, o, d);
      hide SendStep, Reading, HighWaters;
      assert c.notices + [] == c.notices && c.notices + [WriteComplete] + [] == c.notices + [WriteComplete];
      HighWatersNext(c.notices, WriteComplete);
      HighWatersNext(c.notices, HighWater(|d.output|));
      HighWatersNext(c.notices + [WriteComplete], HighWater(|d.output|));
    case Writable(o) => HandleWriteMeans(c, h, o, d);
    case _ =>
      hide HighWaters, Reading;
      HandlersMean(c);
      HighWatersNext(c.notices, ConnectionChanged);
      HighWatersNext(c.notices, ShutdownAsked);
      HighWatersNext(c.notices + [ConnectionChanged], CloseReported);
  }

  lemma {:induction false} WaterStays(c: Conn, h: Hooks, actions: seq<Action>, d: Conn)
    requires Reading(c) && WaterCounted(c, h) && Runs(c, h, actions, d)
    ensures WaterCounted(d, h)
    decreases |actions|
  {
    if actions != [] {
      ReadingStep(c, h, actions[0]);
      WaterStep(c, h, actions[0]);
      hide Act, Possible, Reading, WaterCounted;
      WaterStays(Act(c, h, actions[0]), h, actions[1..], d);
    }
  }

  /** Over every run of a new connection the high-water callback is called for once if the queue ever reaches the mark,
      since it never drains, and otherwise never; a mark of 0 is never crossed. */
  lemma HighWaterOnce(h: Hooks, actions: seq<Action>, d: Conn)
    requires Runs(NEW_CONN, h, actions, d)
    ensures HighWaters(d.notices) == if h.highWater && 0 < h.mark <= |d.output| then 1 else 0
  {
    assert Reading(NEW_CONN) && WaterCounted(NEW_CONN, h);
    hide Runs, Reading;
    WaterStays(NEW_CONN, h, actions, d);
  }

  lemma {:induction false} ReadingStays(c: Conn, h: Hooks, actions: seq<Action>, d: Conn)
    requires Reading(c) && Runs(c, h, actions, d)
    ensures Reading(d)
    decreases |actions|
  {
    if actions != [] {
      hide Act, Possible, Reading;
      ReadingStep(c, h, actions[0]);
      ReadingStays(Act(c, h, actions[0]), h, actions[1..], d);
    }
  }

  /** So half-close does not wait: ShutdownInLoop closes the sending side at once, whatever is still queued. */
  lemma ShutdownNeverWaits(h: Hooks, actions: seq<Action>, c: Conn)
    requires Runs(NEW_CONN, h, actions, c)
    ensures ShutdownInLoopStep(c).shut
    ensures forall o | MayAnswer(o, |c.output|) :: HandleWriteStep(c, h, o) == c
  {
    hide Runs;
    ReadingStays(NEW_CONN, h, actions, c);
    NeverOnlyWriting(c);
  }

  lemma RunsTwo(c: Conn, h: Hooks, a: Action, b: Action)
    requires Possible(c, a) && Possible(Act(c, h, a), b)
    ensures Runs(c, h, [a, b], Act(Act(c, h, a), h, b))
  {
    hide Act, Possible;
    var d := Act(Act(c, h, a), h, b);
    assert [a, b][1..] == [b] && [b][1..] == [];
    assert Runs(d, h, [], d);
    assert Runs(Act(c, h, a), h, [b], d);
  }

  /** The first send of a connection just established: what the kernel did not take at once is queued. */
  lemma FirstSend(h: Hooks, data: seq<Byte>, o: Outcome, d: Conn)
    requires MayAnswer(o, |data|)
    requires d == SendStep(EstablishStep(NEW_CONN), h, data, o)
    ensures Runs(NEW_CONN, h, [Establish, Send(data, o)], d) && Reading(d) && StreamOk(d) && d.accepted == data
    ensures d.wire == data[..if o.Wrote? then o.n else 0] && d.output == data[if o.Wrote? then o.n else 0..]
  {
    var c := EstablishStep(NEW_CONN);
    assert (NONE_EVENT | READ_EVENT) != WRITE_EVENT && Direct(c);
    NeverFaulty(c, o);
    assert [] + data[..if o.Wrote? then o.n else 0] == data[..if o.Wrote? then o.n else 0];
    ReadingStep(NEW_CONN, h, Establish);
    ReadingStep(c, h, Send(data, o));
    StreamOkStep(NEW_CONN, h, Establish);
    StreamOkStep(c, h, Send(data, o));
    hide Faulty, Reading, StreamOk, HighWaterNotice;
    RunsTwo(NEW_CONN, h, Establish, Send(data, o));
    if o.Wrote? && o.n == |data| {
      assert data[o.n..] == [];
    }
  }

  /** Every send of a run, on a connection that is not down, was empty or was taken whole by its own write. */
  predicate AllTaken(c: Conn, h: Hooks, actions: seq<Action>)
    decreases |actions|
  {
    actions != [] && Possible(c, actions[0]) ==>
      && TakenWhole(c, actions[0])
      && AllTaken(Act(c, h, actions[0]), h, actions[1..])
  }

  predicate TakenWhole(c: Conn, a: Action) {
    a.Send? && c.phase != Disconnected && a.data != [] ==> a.outcome == Wrote(|a.data|)
  }

  /** While nothing waits, a step leaves something waiting exactly if it is a send that was not taken whole. */
  lemma TakenStep(c: Conn, h: Hooks, a: Action)
    requires Reading(c) && c.output == [] && Possible(c, a)
    ensures Act(c, h, a).output == [] <==> TakenWhole(c, a)
  {
    NeverOnlyWriting(c);
    match a
    case Send(data, o) =>
      if c.phase != Disconnected {
        SendIs(c, h, data, o);
        assert Direct(c);
        hide SendStep, Reading, Faulty;
        if Sent(c, |data|, o) < |data| {
          assert |data[Sent(c, |data|, o)..]| > 0;
        }
      }
    case _ => hide Reading;
  }

  lemma WholeIff(c: Conn)
    requires StreamOk(c)
    ensures c.wire == c.accepted <==> c.output == []
  {
    assert |c.wire| + |c.output| == |c.accepted|;
    if c.output == [] {
      assert c.wire + [] == c.wire;
    }
  }

  lemma {:induction false} NothingWaitsIff(c: Conn, h: Hooks, actions: seq<Action>, d: Conn)
    requires Reading(c) && c.output == [] && Runs(c, h, actions, d)
    ensures d.output == [] <==> AllTaken(c, h, actions)
    decreases |actions|
  {
    if actions != [] {
      var c' := Act(c, h, actions[0]);
      ReadingStep(c, h, actions[0]);
      TakenStep(c, h, actions[0]);
      hide Act, Possible, Reading, TakenWhole;
      if c'.output == [] {
        NothingWaitsIff(c', h, actions[1..], d);
      } else {
        PendingOutputIsStuck(c', h, actions[1..], d);
      }
    }
  }

  /** Over every run of a new connection: all that was accepted reaches the wire if and only if every send was taken
      whole by its own first write. */
  lemma AllOnWireIff(h: Hooks, actions: seq<Action>, d: Conn)
    requires Runs(NEW_CONN, h, actions, d)
    ensures d.wire == d.accepted <==> AllTaken(NEW_CONN, h, actions)
  {
    assert Reading(NEW_CONN) && StreamOk(NEW_CONN);
    hide Runs, AllTaken, Reading, StreamOk;
    NothingWaitsIff(NEW_CONN, h, actions, d);
    StreamIsConserved(NEW_CONN, h, actions, d);
    WholeIff(d);
  }

  /** For the first message alone: it is sent in full, by whatever happens later, if and only if its first write takes
      all of it; otherwise the rest stays queued for good. */
  lemma FirstSendDecides(h: Hooks, data: seq<Byte>, o: Outcome, later: seq<Action>, d: Conn)
    requires MayAnswer(o, |data|) && data != []
    requires Runs(NEW_CONN, h, [Establish, Send(data, o)] + later, d)
    ensures data <= d.wire <==> o == Wrote(|data|)
    ensures o != Wrote(|data|) ==> d.wire == data[..if o.Wrote? then o.n else 0] && data[|d.wire|..] <= d.output
  {
    var actions := [Establish, Send(data, o)] + later;
    var c1 := EstablishStep(NEW_CONN);
    var c2 := SendStep(c1, h, data, o);
    assert actions[1..][0] == Send(data, o) && actions[1..][1..] == later;
    assert Runs(c1, h, actions[1..], d) && Runs(c2, h, later, d);
    FirstSend(h, data, o, c2);
    if o == Wrote(|data|) {
      WireOnlyGrows(c2, h, later, d);
    } else {
      PendingOutputIsStuck(c2, h, later, d);
    }
  }

  lemma {:induction false} WireOnlyGrows(c: Conn, h: Hooks, actions: seq<Action>, d: Conn)
    requires Runs(c, h, actions, d)
    ensures c.wire <= d.wire
    decreases |actions|
  {
    if actions != [] {
      WireGrows(c, h, actions[0]);
      hide Act, Possible;
      WireOnlyGrows(Act(c, h, actions[0]), h, actions[1..], d);
    }
  }

  lemma WireGrows(c: Conn, h: Hooks, a: Action)
    requires Possible(c, a)
    ensures c.wire <= Act(c, h, a).wire
  {
    hide Faulty, HighWaterNotice, Direct;
  }
}
