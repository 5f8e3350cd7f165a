/** The event loop's wakeup protocol as a state machine: the loop thread, and any number of threads that queue functors
    for it or ask it to quit. */
module EventLoopSteps {
  import opened Options

  type Functor = nat

  /** Where the loop thread stands. */
  datatype Place =
    | Polling                          // in epoll_wait, or about to call it
    | Handling(signalled: bool)        // runs channel handlers; whether the wakeup channel is still to be handled
    | Calling                          // in DoPendingFunctors, before the swap
    | Running                          // after the swap, runs the batch
    | Tail                             // back at the loop's test
    | Stopped

  /** `batch` is what the swap took and has not run yet.  `owed` counts the other threads between queueing (or setting
      quit_) and their write to the eventfd; `ownOwed` says the same of the loop thread.  `queued` and `executed` are
      history. */
  datatype State = State(place: Place, quit: bool, calling: bool, pending: seq<Functor>, batch: seq<Functor>,
                         eventfd: nat, owed: nat, ownOwed: bool, queued: seq<Functor>, executed: seq<Functor>)

  datatype Event =
    | PollReturns(signalled: bool)     // whether the wakeup channel is among the active ones
    | ReadWakeup                       // HandleRead
    | Handled
    | Swap
    | RunNext
    | Done
    | Test
    | QueueOwn(f: Functor)             // the loop thread queues, in a handler or in a functor
    | WriteOwn
    | QuitOwn
    | QueueOther(f: Functor)
    | QuitOther
    | WriteOther

  const STARTED: State := State(Polling, false, false, [], [], 0, 0, false, [], [])

  function Push(s: State, f: Functor): State {
    s.(pending := s.pending + [f], queued := s.queued + [f])
  }

  predicate InUserCode(p: Place) {
    p.Handling? || p == Running
  }

  /** What an event does, or None where it cannot happen.  While the loop thread owes a write it does nothing else. */
  function Step(s: State, e: Event): Option<State> {
    match e
    case QueueOther(f) => Some(Push(s, f).(owed := s.owed + 1))
    case QuitOther => Some(s.(quit := true, owed := s.owed + 1))
    case WriteOther => if s.owed > 0 then Some(s.(owed := s.owed - 1, eventfd := s.eventfd + 1)) else None
    case WriteOwn => if s.ownOwed then Some(s.(ownOwed := false, eventfd := s.eventfd + 1)) else None
    case _ => if s.ownOwed then None else LoopStep(s, e)
  }

  function LoopStep(s: State, e: Event): Option<State> {
    match e
    case PollReturns(signalled) =>
      if s.place == Polling && (signalled ==> s.eventfd > 0) then Some(s.(place := Handling(signalled))) else None
    case ReadWakeup =>
      if s.place == Handling(true) then Some(s.(place := Handling(false), eventfd := 0)) else None
    case Handled => if s.place == Handling(false) then Some(s.(place := Calling, calling := true)) else None
    case Swap => if s.place == Calling then Some(s.(place := Running, batch := s.pending, pending := [])) else None
    case RunNext =>
      if s.place == Running && s.batch != []
      then Some(s.(executed := s.executed + [s.batch[0]], batch := s.batch[1..])) else None
    case Done => if s.place == Running && s.batch == [] then Some(s.(place := Tail, calling := false)) else None
    case Test => if s.place == Tail then Some(s.(place := if s.quit then Stopped else Polling)) else None
    case QueueOwn(f) => if InUserCode(s.place) then Some(Push(s, f).(ownOwed := s.calling)) else None
    case QuitOwn => if InUserCode(s.place) then Some(s.(quit := true)) else None
    case _ => None
  }

  function Run(s: State, es: seq<Event>): Option<State>
    decreases |es|
  {
    if es == [] then Some(s)
    else
      var r := Step(s, es[0]);
      if r.None? then None else Run(r.value, es[1..])
  }

  // ---------------------------------------------------------------- what every run keeps

  /** From the swap to the return of the next poll. */
  predicate Settled(p: Place) {
    p == Running || p == Tail || p == Polling || p == Stopped
  }

  /** Writes to the eventfd made and not read, or still to be made. */
  function Signals(s: State): nat {
    s.eventfd + s.owed + if s.ownOwed then 1 else 0
  }

  /** What ran, then the batch, then what waits is what was queued. */
  ghost predicate Ordered(s: State) {
    s.executed + s.batch + s.pending == s.queued
  }

  ghost predicate Placed(s: State) {
    && (s.batch != [] ==> s.place == Running)
    && (s.calling <==> s.place == Calling || s.place == Running)
    && (s.ownOwed ==> s.place == Running)
    && (s.place == Stopped ==> s.quit)
  }

  ghost predicate Signalled(s: State) {
    && (Settled(s.place) ==> |s.pending| <= Signals(s))
    && (s.place == Polling && s.quit ==> Signals(s) > 0)
    && (s.place == Handling(true) ==> s.eventfd > 0)
  }

  ghost predicate Inv(s: State) {
    Ordered(s) && Placed(s) && Signalled(s)
  }

  lemma OrderedStep(s: State, e: Event)
    requires Ordered(s) && Placed(s) && Step(s, e).Some?
    ensures Ordered(Step(s, e).value)
  {
    match e
    case RunNext =>
      var x, y, z := s.executed, s.batch, s.pending;
      assert x + [y[0]] + y[1..] + z == x + y + z;
    case QueueOwn(f) => assert s.executed + s.batch + (s.pending + [f]) == s.queued + [f];
    case QueueOther(f) => assert s.executed + s.batch + (s.pending + [f]) == s.queued + [f];
    case Swap =>
      assert s.batch == [] && s.executed + s.pending + [] == s.executed + s.batch + s.pending;
    case _ =>
  }

  lemma PlacedStep(s: State, e: Event)
    requires Placed(s) && Step(s, e).Some?
    ensures Placed(Step(s, e).value)
  {
    hide Signals;
  }

  lemma SignalledStep(s: State, e: Event)
    requires Placed(s) && Signalled(s) && Step(s, e).Some?
    ensures Signalled(Step(s, e).value)
  {
  }

  lemma InvStep(s: State, e: Event)
    requires Inv(s) && Step(s, e).Some?
    ensures Inv(Step(s, e).value)
  {
    hide Step, Ordered, Placed, Signalled;
    OrderedStep(s, e);
    PlacedStep(s, e);
    SignalledStep(s, e);
  }

  lemma {:induction false} RunInv(s: State, es: seq<Event>)
    requires Inv(s) && Run(s, es).Some?
    ensures Inv(Run(s, es).value)
    decreases |es|
  {
    if es != [] {
      hide Inv, Step;
      InvStep(s, es[0]);
      RunInv(Step(s, es[0]).value, es[1..]);
    }
  }

  /** No lost wakeup, over every run: when the loop is between its swap and the return of its next poll, each waiting
      functor is matched by a write to the eventfd that was made and not read, or is about to be made.  So a loop that
      can block in epoll_wait with functors waiting, or with quit_ set, has a writer on its way. */
  lemma NoLostWakeup(es: seq<Event>)
    requires Run(STARTED, es).Some?
    ensures var s := Run(STARTED, es).value;
            && (Settled(s.place) ==> |s.pending| <= s.eventfd + s.owed + if s.ownOwed then 1 else 0)
            && (s.place == Polling && s.eventfd == 0 && (s.pending != [] || s.quit) ==> s.owed > 0)
  {
    hide Step;
    RunInv(STARTED, es);
  }

  /** Functors run in the order they were queued and each at most once: over every run, what ran, then the current batch,
      then what waits is exactly what was queued. */
  lemma InOrderOnce(es: seq<Event>)
    requires Run(STARTED, es).Some?
    ensures var s := Run(STARTED, es).value; s.executed + s.batch + s.pending == s.queued
  {
    hide Step;
    RunInv(STARTED, es);
  }

  lemma QuitStep(s: State, e: Event)
    requires Step(s, e).Some?
    ensures Step(s, e).value.quit <==> s.quit || e.QuitOwn? || e.QuitOther?
  {
  }

  lemma {:induction false} QuitIff(s: State, es: seq<Event>)
    requires Run(s, es).Some?
    ensures Run(s, es).value.quit <==> s.quit || exists k | 0 <= k < |es| :: es[k].QuitOwn? || es[k].QuitOther?
    decreases |es|
  {
    if es != [] {
      QuitStep(s, es[0]);
      hide Step;
      QuitIff(Step(s, es[0]).value, es[1..]);
      assert forall k | 1 <= k < |es| :: es[k] == es[1..][k - 1];
      assert forall k | 0 <= k < |es| - 1 :: es[1..][k] == es[k + 1];
    }
  }

  /** Over every run quit_ is set exactly if somebody asked for it, and only then does the loop stop. */
  lemma StopsOnlyIfAsked(es: seq<Event>)
    requires Run(STARTED, es).Some?
    ensures var s := Run(STARTED, es).value;
            && (s.quit <==> exists k | 0 <= k < |es| :: es[k].QuitOwn? || es[k].QuitOther?)
            && (s.place == Stopped ==> exists k | 0 <= k < |es| :: es[k].QuitOwn? || es[k].QuitOther?)
  {
    hide Step;
    QuitIff(STARTED, es);
    RunInv(STARTED, es);
  }

  lemma {:induction false} RunAppend(s: State, es: seq<Event>, fs: seq<Event>)
    requires Run(s, es).Some?
    ensures Run(s, es + fs) == Run(Run(s, es).value, fs)
    decreases |es|
  {
    hide Step;
    if es == [] {
      assert es + fs == fs;
    } else {
      assert (es + fs)[0] == es[0] && (es + fs)[1..] == es[1..] + fs;
      RunAppend(Step(s, es[0]).value, es[1..], fs);
    }
  }

  lemma RunOne(s: State, e: Event)
    requires Step(s, e).Some?
    ensures Run(s, [e]) == Step(s, e)
  {
    hide Step;
    assert [e][1..] == [];
    assert Run(Step(s, e).value, []) == Some(Step(s, e).value);
  }

  lemma {:induction false} RunsBatch(s: State) returns (es: seq<Event>)
    requires s.place == Running && !s.ownOwed
    ensures Run(s, es) == Some(s.(executed := s.executed + s.batch, batch := []))
    decreases |s.batch|
  {
    if s.batch == [] {
      es := [];
      assert s.executed + [] == s.executed;
    } else {
      RunOne(s, RunNext);
      var s' := Step(s, RunNext).value;
      var rest := RunsBatch(s');
      RunAppend(s, [RunNext], rest);
      es := [RunNext] + rest;
      assert s.executed + [s.batch[0]] + s.batch[1..] == s.executed + s.batch;
    }
  }

  /** A loop that could block with functors waiting is brought to run them all by the writers on their way: one write, if
      none is there to read yet, then the loop thread alone. */
  lemma WaitingGetsServed(s: State) returns (es: seq<Event>)
    requires Inv(s) && s.place == Polling && s.pending != []
    ensures Run(s, es).Some? && Run(s, es).value.executed == s.queued
  {
    var first, s1 := [], s;
    if s.eventfd == 0 {
      RunOne(s, WriteOther);
      first, s1 := [WriteOther], Step(s, WriteOther).value;
    }
    assert Run(s, first) == Some(s1) && s1.eventfd > 0;
    var s5 := RunToSwap(s1);
    var swap := [PollReturns(true), ReadWakeup, Handled, Swap];
    var rest := RunsBatch(s5);
    RunAppend(s1, swap, rest);
    RunAppend(s, first, swap + rest);
    es := first + (swap + rest);
    assert s.executed + s.batch + s.pending == s.executed + s.pending;
  }

  lemma RunToSwap(s: State) returns (s': State)
    requires s.place == Polling && s.eventfd > 0 && !s.ownOwed
    ensures Run(s, [PollReturns(true), ReadWakeup, Handled, Swap]) == Some(s')
    ensures s' == s.(place := Running, calling := true, eventfd := 0, batch := s.pending, pending := [])
  {
    var es := [PollReturns(true), ReadWakeup, Handled, Swap];
    var s2 := Step(s, es[0]).value;
    var s3 := Step(s2, es[1]).value;
    var s4 := Step(s3, es[2]).value;
    s' := Step(s4, es[3]).value;
    assert es[1..] == [ReadWakeup, Handled, Swap] && es[1..][1..] == [Handled, Swap] && es[1..][1..][1..] == [Swap];
    RunOne(s4, Swap);
    assert Run(s3, [Handled, Swap]) == Run(s4, [Swap]);
    assert Run(s2, [ReadWakeup, Handled, Swap]) == Run(s3, [Handled, Swap]);
  }

  // ---------------------------------------------------------------- how soon

  /** Steps that take the loop thread on, as opposed to what user code and other threads do meanwhile. */
  predicate Progress(e: Event) {
    e.PollReturns? || e.ReadWakeup? || e.Handled? || e.Swap? || e.RunNext? || e.Done? || e.Test?
  }

  function ProgressSteps(es: seq<Event>): nat {
    if es == [] then 0 else (if Progress(es[0]) then 1 else 0) + ProgressSteps(es[1..])
  }

  /** At most this many of them until the first `t` functors have run. */
  function Need(s: State, t: nat): nat {
    if |s.executed| >= t then 0
    else
      var left := t - |s.executed|;
      match s.place
      case Running => if left <= |s.batch| then left else left + 6
      case Calling => left + 1
      case Handling(signalled) => left + if signalled then 3 else 2
      case Polling => left + 4
      case Tail => left + 5
      case Stopped => 0
  }

  lemma NeedShrinks(s: State, e: Event, t: nat)
    requires Inv(s) && t <= |s.queued| && Step(s, e).Some? && Step(s, e).value.place != Stopped
    ensures t <= |Step(s, e).value.queued| && s.queued <= Step(s, e).value.queued
    ensures if Progress(e) && Need(s, t) > 0 then Need(Step(s, e).value, t) < Need(s, t)
            else Need(Step(s, e).value, t) <= Need(s, t)
  {
    assert |s.queued| == |s.executed| + |s.batch| + |s.pending| by {
      assert |s.executed + s.batch + s.pending| == |s.queued|;
    }
    hide Ordered, Signalled;
    match e
    case RunNext =>
    case _ =>
  }

  lemma StoppedStays(s: State, e: Event)
    requires Step(s, e).Some? && s.place == Stopped
    ensures Step(s, e).value.place == Stopped
  {
  }

  lemma {:induction false} StoppedForGood(s: State, es: seq<Event>)
    requires Run(s, es).Some? && s.place == Stopped
    ensures Run(s, es).value.place == Stopped
    decreases |es|
  {
    if es != [] {
      StoppedStays(s, es[0]);
      hide Step;
      StoppedForGood(Step(s, es[0]).value, es[1..]);
    }
  }

  lemma {:induction false} NeedBounds(s: State, es: seq<Event>, t: nat)
    requires Inv(s) && t <= |s.queued| && Run(s, es).Some? && Run(s, es).value.place != Stopped
    ensures var d := Run(s, es).value;
            s.queued <= d.queued && (Need(d, t) == 0 || Need(d, t) + ProgressSteps(es) <= Need(s, t))
    decreases |es|
  {
    if es != [] {
      hide Need, Inv, Step;
      var s' := Step(s, es[0]).value;
      if s'.place == Stopped {
        StoppedForGood(s', es[1..]);
      } else {
        NeedShrinks(s, es[0], t);
        InvStep(s, es[0]);
        NeedBounds(s', es[1..], t);
      }
    }
  }

  lemma NeedAtMost(s: State)
    requires Ordered(s)
    ensures Need(s, |s.queued|) <= |s.batch| + |s.pending| + 6
  {
    assert |s.executed + s.batch + s.pending| == |s.queued|;
  }

  lemma NeedZero(d: State, t: nat)
    requires d.place != Stopped && Need(d, t) == 0
    ensures |d.executed| >= t
  {
  }

  lemma ExecutedPrefix(d: State, queued: seq<Functor>)
    requires Ordered(d) && queued <= d.queued && |d.executed| >= |queued|
    ensures queued <= d.executed
  {
    assert d.executed + (d.batch + d.pending) == d.queued;
    assert queued == d.queued[..|queued|] == d.executed[..|queued|];
  }

  lemma StoppedIsQuit(s: State)
    requires Inv(s)
    ensures s.place == Stopped ==> s.quit
  {
  }

  /** However the threads interleave and whatever they queue meanwhile: once the loop thread has made as many steps as
      there were functors in the batch and waiting, and six more, all of these have run, in order, if nobody has asked
      the loop to quit, or if it goes on all the same. */
  lemma ServedWithin(s: State, es: seq<Event>)
    requires Inv(s) && Run(s, es).Some? && ProgressSteps(es) >= |s.batch| + |s.pending| + 6
    ensures !s.quit && (forall k | 0 <= k < |es| :: !es[k].QuitOwn? && !es[k].QuitOther?) ==> s.queued <= Run(s, es).value.executed
    ensures Run(s, es).value.place != Stopped ==> s.queued <= Run(s, es).value.executed
  {
    hide Run, Need, Step, ProgressSteps, Ordered, Placed, Signalled;
    RunInv(s, es);
    QuitIff(s, es);
    StoppedIsQuit(Run(s, es).value);
    if Run(s, es).value.place != Stopped {
      NeedBounds(s, es, |s.queued|);
      NeedAtMost(s);
      NeedZero(Run(s, es).value, |s.queued|);
      ExecutedPrefix(Run(s, es).value, s.queued);
    }
  }

  /** Steps that queue a functor. */
  function QueueSteps(es: seq<Event>): nat {
    if es == [] then 0 else (if es[0].QueueOwn? || es[0].QueueOther? then 1 else 0) + QueueSteps(es[1..])
  }

  /** At most this many steps of the loop thread until it stops, once quit_ is set and if nothing more is queued. */
  function ToStop(s: State): nat {
    match s.place
    case Stopped => 0
    case Tail => 1
    case Running => |s.batch| + 2
    case Calling => |s.pending| + 3
    case Handling(signalled) => |s.pending| + if signalled then 5 else 4
    case Polling => |s.pending| + 6
  }

  lemma ToStopShrinks(s: State, e: Event)
    requires s.quit && Step(s, e).Some?
    ensures Step(s, e).value.quit
    ensures ToStop(Step(s, e).value) + (if Progress(e) then 1 else 0) <= ToStop(s) + if e.QueueOwn? || e.QueueOther? then 1 else 0
  {
  }

  lemma {:induction false} ToStopBounds(s: State, es: seq<Event>)
    requires s.quit && Run(s, es).Some?
    ensures ToStop(Run(s, es).value) + ProgressSteps(es) <= ToStop(s) + QueueSteps(es)
    decreases |es|
  {
    if es != [] {
      ToStopShrinks(s, es[0]);
      hide Step, ToStop;
      ToStopBounds(Step(s, es[0]).value, es[1..]);
    }
  }

  /** A loop asked to quit stops, however the threads interleave: from then on its thread makes at most as many steps as
      there were functors in the batch and waiting, one for each queued meanwhile, and six more; and it can always make
      one until it has stopped. */
  lemma StopsWithin(s: State, es: seq<Event>)
    requires Inv(s) && s.quit && Run(s, es).Some?
    ensures ProgressSteps(es) <= |s.batch| + |s.pending| + 6 + QueueSteps(es)
    ensures var d := Run(s, es).value;
            d.place != Stopped ==>
              && ProgressSteps(es) < |s.batch| + |s.pending| + 6 + QueueSteps(es)
              && exists e :: Step(d, e).Some? && (Progress(e) || e == WriteOwn)
  {
    ToStopBounds(s, es);
    RunInv(s, es);
    var d := Run(s, es).value;
    if d.place != Stopped {
      var e := LoopGoesOn(d);
    }
    hide Step, Run;
  }

  /** And the loop thread can always make such a step, or its own write first; only a poll with nothing to report may
      block, and then, if a functor waits or the loop is to quit, a writer is on its way. */
  lemma LoopGoesOn(s: State) returns (e: Event)
    requires Inv(s) && s.place != Stopped
    ensures Step(s, e).Some? && (if s.ownOwed then e == WriteOwn else Progress(e))
    ensures s.place == Polling && s.eventfd == 0 && (s.pending != [] || s.quit) ==> s.owed > 0
  {
    e := if s.ownOwed then WriteOwn
         else match s.place
           case Handling(true) => ReadWakeup
           case Handling(false) => Handled
           case Calling => Swap
           case Running => if s.batch != [] then RunNext else Done
           case Tail => Test
           case _ => PollReturns(s.eventfd > 0);
  }
}
