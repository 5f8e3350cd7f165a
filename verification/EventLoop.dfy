/** The loop object: the code that queues functors, wakes the loop and runs the queue, tied to the wakeup protocol. */
module EventLoops {
  import opened Options
  import opened EventLoopSteps

  /** A functor queued while another one runs: by that one, on the loop thread, or by some other thread. */
  datatype Push = Push(f: Functor, own: bool)

  function Pushed(ps: seq<Push>): (fs: seq<Functor>)
    ensures |fs| == |ps| && forall i | 0 <= i < |ps| :: fs[i] == ps[i].f
  {
    if ps == [] then [] else Pushed(ps[..|ps| - 1]) + [ps[|ps| - 1].f]
  }

  lemma PushedNext(ps: seq<Push>, i: nat)
    requires i < |ps|
    ensures Pushed(ps[..i + 1]) == Pushed(ps[..i]) + [ps[i].f]
  {
    assert ps[..i + 1][..i] == ps[..i];
  }

  /** All that is queued while a batch runs, given what is queued during each of its functors. */
  function Requeued(during: seq<seq<Push>>): seq<Functor> {
    if during == [] then [] else Requeued(during[..|during| - 1]) + Pushed(during[|during| - 1])
  }

  lemma RequeuedNext(during: seq<seq<Push>>, i: nat)
    requires i < |during|
    ensures Requeued(during[..i + 1]) == Requeued(during[..i]) + Pushed(during[i])
  {
    assert during[..i + 1][..i] == during[..i];
  }

  lemma RequeuedNone(during: seq<seq<Push>>)
    ensures Requeued(during[..0]) == []
  {
  }

  /** One more event of a run. */
  lemma Extends(s0: State, es: seq<Event>, s: State, e: Event)
    requires Run(s0, es) == Some(s) && Step(s, e).Some?
    ensures Run(s0, es + [e]) == Step(s, e)
  {
    RunOne(s, e);
    RunAppend(s0, es, [e]);
  }

  class EventLoop {
    var pendingFunctors: seq<Functor>
    var callingPendingFunctors: bool
    var quit: bool
    var wakeupFd: nat                // the counter behind the eventfd
    ghost var s: State

    ghost predicate Valid()
      reads this
    {
      && pendingFunctors == s.pending && callingPendingFunctors == s.calling
      && quit == s.quit && wakeupFd == s.eventfd
    }

    constructor ()
      ensures Valid() && s == STARTED
    {
      pendingFunctors, callingPendingFunctors, quit, wakeupFd := [], false, false, 0;
      s := STARTED;
    }

    /** Queues a functor and, except from a channel handler of the loop thread, wakes the loop. */
    method QueueInLoop(f: Functor, inLoopThread: bool) returns (ghost es: seq<Event>)
      requires Valid() && (inLoopThread ==> InUserCode(s.place) && !s.ownOwed)
      modifies this
      ensures Valid() && Run(old(s), es) == Some(s)
      ensures pendingFunctors == old(pendingFunctors) + [f]
      ensures wakeupFd == old(wakeupFd) + if inLoopThread && !callingPendingFunctors then 0 else 1
      ensures callingPendingFunctors == old(callingPendingFunctors) && quit == old(quit)
      ensures s == old(s).(pending := old(s).pending + [f], queued := old(s).queued + [f], eventfd := wakeupFd)
    {
      ghost var s0 := s;
      ghost var push := if inLoopThread then QueueOwn(f) else QueueOther(f);
      pendingFunctors := pendingFunctors + [f];
      s := Step(s, push).value;
      es := [push];
      RunOne(s0, push);
      if !inLoopThread || callingPendingFunctors {
        ghost var write := if inLoopThread then WriteOwn else WriteOther;
        Extends(s0, es, s, write);
        wakeupFd := wakeupFd + 1;
        s := Step(s, write).value;
        es := es + [write];
      }
    }

    /** Quit from another thread, or from the loop's own. */
    method Quit(inLoopThread: bool) returns (ghost es: seq<Event>)
      requires Valid() && (inLoopThread ==> InUserCode(s.place) && !s.ownOwed)
      modifies this
      ensures Valid() && Run(old(s), es) == Some(s) && quit
      ensures wakeupFd == old(wakeupFd) + if inLoopThread then 0 else 1
      ensures pendingFunctors == old(pendingFunctors) && callingPendingFunctors == old(callingPendingFunctors)
      ensures s == old(s).(quit := true, eventfd := wakeupFd)
    {
      ghost var s0 := s;
      ghost var ask := if inLoopThread then QuitOwn else QuitOther;
      quit := true;
      s := Step(s, ask).value;
      es := [ask];
      RunOne(s0, ask);
      if !inLoopThread {
        Extends(s0, es, s, WriteOther);
        wakeupFd := wakeupFd + 1;
        s := Step(s, WriteOther).value;
        es := es + [WriteOther];
      }
    }

    /** The wakeup channel's handler: reading an eventfd sets it back to zero. */
    method HandleRead()
      requires Valid() && s.place == Handling(true) && !s.ownOwed
      modifies this
      ensures Valid() && Step(old(s), ReadWakeup) == Some(s) && wakeupFd == 0
      ensures pendingFunctors == old(pendingFunctors) && callingPendingFunctors == old(callingPendingFunctors) && quit == old(quit)
    {
      wakeupFd := 0;
      s := Step(s, ReadWakeup).value;
    }

    /** Takes the whole queue and runs it in order.  `during` says what the functors, and other threads, queue while
        each of them runs: it waits for the next round, and each push wakes the loop. */
    method DoPendingFunctors(during: seq<seq<Push>>) returns (ghost es: seq<Event>)
      requires Valid() && s.place == Handling(false) && !s.ownOwed && s.batch == [] && |during| == |pendingFunctors|
      modifies this
      ensures Valid() && Run(old(s), es) == Some(s) && s.place == Tail
      ensures s.executed == old(s.executed + s.pending)
      ensures pendingFunctors == Requeued(during)
      ensures wakeupFd == old(wakeupFd) + |pendingFunctors|
      ensures quit == old(quit) && !callingPendingFunctors
    {
      hide Step, InUserCode, Run, Requeued, Pushed;
      RequeuedNone(during);
      ghost var s0 := s;
      callingPendingFunctors := true;
      ghost var s2 := SwapsOut(s0);
      var functors := pendingFunctors;
      pendingFunctors := [];
      s := s2;
      es := [Handled, Swap];
      var i := 0;
      while i < |functors|
        invariant 0 <= i <= |functors| && Valid() && Run(s0, es) == Some(s) && callingPendingFunctors && quit == old(quit)
        invariant s.place == Running && !s.ownOwed && s.batch == functors[i..] && s.executed == s0.executed + functors[..i]
        invariant pendingFunctors == Requeued(during[..i])
        invariant wakeupFd == old(wakeupFd) + |pendingFunctors|
      {
        ghost var more := CallFunctor(during[i]);
        RunAppend(s0, es, more);
        es := es + more;
        assert functors[i..][0] == functors[i] && functors[i..][1..] == functors[i + 1..];
        assert s0.executed + functors[..i] + [functors[i]] == s0.executed + functors[..i + 1];
        RequeuedNext(during, i);
        i := i + 1;
      }
      assert functors[..i] == functors && during[..i] == during;
      EndsBatch(s);
      Extends(s0, es, s, Done);
      callingPendingFunctors := false;
      s := Step(s, Done).value;
      es := es + [Done];
    }

    /** The next functor of the batch, with what is queued while it runs. */
    method CallFunctor(ps: seq<Push>) returns (ghost es: seq<Event>)
      requires Valid() && s.place == Running && !s.ownOwed && callingPendingFunctors && s.batch != []
      modifies this
      ensures Valid() && Run(old(s), es) == Some(s)
      ensures callingPendingFunctors && pendingFunctors == old(pendingFunctors) + Pushed(ps) && wakeupFd == old(wakeupFd) + |ps|
      ensures s.place == Running && !s.ownOwed && quit == old(quit)
      ensures s.batch == old(s.batch[1..]) && s.executed == old(s.executed + [s.batch[0]])
    {
      hide Step, Pushed;
      ghost var s0 := s;
      RunsNext(s);
      RunOne(s, RunNext);
      es := [RunNext];
      s := s.(executed := s.executed + [s.batch[0]], batch := s.batch[1..]);
      ghost var s1 := s;
      var i := 0;
      assert Pushed(ps[..0]) == [];
      while i < |ps|
        invariant 0 <= i <= |ps| && Valid() && Run(s0, es) == Some(s) && callingPendingFunctors && quit == old(quit)
        invariant s.place == Running && !s.ownOwed && s.batch == s1.batch && s.executed == s1.executed
        invariant pendingFunctors == s0.pending + Pushed(ps[..i]) && wakeupFd == s0.eventfd + i
      {
        ghost var more := QueueInLoop(ps[i].f, ps[i].own);
        RunAppend(s0, es, more);
        es := es + more;
        PushedNext(ps, i);
        i := i + 1;
      }
      assert ps[..i] == ps;
    }
  }

  lemma SwapsOut(s: State) returns (s': State)
    requires s.place == Handling(false) && !s.ownOwed
    ensures Run(s, [Handled, Swap]) == Some(s')
    ensures s' == s.(place := Running, calling := true, batch := s.pending, pending := [])
  {
    var s1 := Step(s, Handled).value;
    s' := Step(s1, Swap).value;
    RunOne(s1, Swap);
    assert [Handled, Swap][1..] == [Swap];
  }

  lemma RunsNext(s: State)
    requires s.place == Running && s.batch != [] && !s.ownOwed
    ensures Step(s, RunNext) == Some(s.(executed := s.executed + [s.batch[0]], batch := s.batch[1..]))
  {
  }

  lemma EndsBatch(s: State)
    requires s.place == Running && s.batch == [] && !s.ownOwed
    ensures Step(s, Done) == Some(s.(place := Tail, calling := false))
  {
  }
}
