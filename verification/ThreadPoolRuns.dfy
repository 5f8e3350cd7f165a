/** The thread pool over whole runs from Start on. */
module ThreadPoolRuns {
  import opened Options
  import opened ThreadPoolSteps
  import opened ThreadPoolSafety
  import opened ThreadPoolWork
  import opened ThreadPoolShutdown

  lemma {:induction false} RunSnoc(c: Config, s: State, es: seq<Event>, e: Event)
    requires Run(c, s, es).Some?
    ensures Run(c, s, es + [e]) == Step(c, Run(c, s, es).value, e)
    decreases |es|
  {
    hide Step;
    if es == [] {
      assert Run(c, s, [e]) == if Step(c, s, e).None? then None else Run(c, Step(c, s, e).value, [e][1..]);
    } else {
      assert (es + [e])[1..] == es[1..] + [e];
      RunSnoc(c, Step(c, s, es[0]).value, es[1..], e);
    }
  }

  ghost predicate Reachable(c: Config, s: State) {
    exists es :: Run(c, Started(c), es) == Some(s)
  }

  lemma ReachStep(c: Config, s: State, e: Event)
    requires Reachable(c, s) && Step(c, s, e).Some?
    ensures Reachable(c, Step(c, s, e).value)
  {
    hide Step;
    var es :| Run(c, Started(c), es) == Some(s);
    RunSnoc(c, Started(c), es, e);
  }

  /** What every step keeps, next to the invariants, holds after any run. */
  lemma {:induction false} RunKeeps(c: Config, s: State, es: seq<Event>, good: State -> bool)
    requires forall t, e :: Inv(c, t) && good(t) && Step(c, t, e).Some? ==> good(Step(c, t, e).value)
    requires Inv(c, s) && good(s) && Run(c, s, es).Some?
    ensures Inv(c, Run(c, s, es).value) && good(Run(c, s, es).value)
    decreases |es|
  {
    if es != [] {
      hide Step, Inv;
      InvStep(c, s, es[0]);
      RunKeeps(c, Step(c, s, es[0]).value, es[1..], good);
    }
  }

  lemma ReachableKeeps(c: Config, s: State, good: State -> bool)
    requires forall t, e :: Inv(c, t) && good(t) && Step(c, t, e).Some? ==> good(Step(c, t, e).value)
    requires c.init <= c.max && good(Started(c)) && Reachable(c, s)
    ensures Inv(c, s) && good(s)
  {
    hide Inv, Step, Run;
    var es :| Run(c, Started(c), es) == Some(s);
    InvStarts(c);
    RunKeeps(c, Started(c), es, good);
  }

  /** A fixed pool neither retires workers nor sees timeouts. */
  lemma NeverLate(c: Config, s: State, e: Event)
    requires c.mode == Fixed && Step(c, s, e).Some?
    ensures !e.Late? && !e.Retire? && !e.Timeout?
  {
  }

  lemma ReachableInv(c: Config, s: State)
    requires c.init <= c.max && Reachable(c, s)
    ensures Inv(c, s)
  {
    ReachableKeeps(c, s, t => true);
  }

  // ---------------------------------------------------------------- accounting

  /** In every reachable state of either mode the counters mean what their names say. */
  lemma CountersAreRight(c: Config, s: State)
    requires c.init <= c.max && Reachable(c, s)
    ensures s.taskSize == |s.queue| <= c.limit
    ensures s.running ==> c.init <= s.current == Alive(s) <= c.max && s.idle == Alive(s) - Busy(s)
    ensures 0 <= s.idle <= s.current
  {
    hide Run, Total;
    ReachableInv(c, s);
    BusyIsAlive(s.workers);
  }

  /** Tasks are dequeued in the order they were accepted, each by one worker, and each is queued, executing or done. */
  lemma TasksAreKept(c: Config, s: State, t: nat)
    requires c.init <= c.max && Reachable(c, s) && t < |s.accepted|
    ensures s.taken <= |s.accepted| && s.accepted == s.accepted[..s.taken] + s.queue
    ensures t >= s.taken ==> t - s.taken < |s.queue| && s.queue[t - s.taken] == s.accepted[t] && t !in s.done && !Held(s.workers, t)
    ensures t < s.taken ==> (t in s.done) != Held(s.workers, t)
    ensures forall v, w | 0 <= v < |s.workers| && 0 <= w < |s.workers| && s.workers[v] == s.workers[w] == Executing(t) :: v == w
  {
    hide Run;
    ReachableInv(c, s);
  }

  // ---------------------------------------------------------------- work conservation

  /** The state before event `i` of a run. */
  function At(c: Config, s: State, es: seq<Event>, i: nat): State
    requires i <= |es| && Run(c, s, es).Some?
    decreases |es|
  {
    if i == 0 then s else At(c, Step(c, s, es[0]).value, es[1..], i - 1)
  }

  /** A property holds in every state of a run. */
  ghost predicate Always(c: Config, s: State, es: seq<Event>, good: State -> bool)
    requires Run(c, s, es).Some?
  {
    forall i | 0 <= i <= |es| :: good(At(c, s, es, i))
  }

  /** No event of a run is of a kind. */
  ghost predicate Never(c: Config, s: State, es: seq<Event>, bad: (State, Event) -> bool)
    requires Run(c, s, es).Some?
  {
    forall i | 0 <= i < |es| :: !bad(At(c, s, es, i), es[i])
  }

  lemma AlwaysFirst(c: Config, s: State, es: seq<Event>, good: State -> bool)
    requires Run(c, s, es).Some? && es != []
    ensures Always(c, s, es, good) <==> good(s) && Always(c, Step(c, s, es[0]).value, es[1..], good)
  {
    hide Step;
    var s', rest := Step(c, s, es[0]).value, es[1..];
    if Always(c, s, es, good) {
      assert good(At(c, s, es, 0));
      forall i | 0 <= i <= |rest|
        ensures good(At(c, s', rest, i))
      {
        assert good(At(c, s, es, i + 1));
      }
    }
    if good(s) && Always(c, s', rest, good) {
      forall i | 0 <= i <= |es|
        ensures good(At(c, s, es, i))
      {
        if i > 0 {
          assert good(At(c, s', rest, i - 1));
        }
      }
    }
  }

  lemma NeverFirst(c: Config, s: State, es: seq<Event>, bad: (State, Event) -> bool)
    requires Run(c, s, es).Some? && es != []
    ensures Never(c, s, es, bad) <==> !bad(s, es[0]) && Never(c, Step(c, s, es[0]).value, es[1..], bad)
  {
    hide Step;
    var s', rest := Step(c, s, es[0]).value, es[1..];
    if Never(c, s, es, bad) {
      assert !bad(At(c, s, es, 0), es[0]);
      forall i | 0 <= i < |rest|
        ensures !bad(At(c, s', rest, i), rest[i])
      {
        assert !bad(At(c, s, es, i + 1), es[i + 1]);
      }
    }
    if !bad(s, es[0]) && Never(c, s', rest, bad) {
      forall i | 0 <= i < |es|
        ensures !bad(At(c, s, es, i), es[i])
      {
        if i > 0 {
          assert !bad(At(c, s', rest, i - 1), rest[i - 1]);
        }
      }
    }
  }

  lemma AlwaysHere(c: Config, s: State, es: seq<Event>, good: State -> bool)
    requires Run(c, s, es).Some? && Always(c, s, es, good)
    ensures good(s) && good(Run(c, s, es).value)
  {
    assert good(At(c, s, es, 0)) && good(At(c, s, es, |es|));
    AtEnd(c, s, es);
  }

  /** A property that survives exactly the steps without `bad` holds all along exactly the runs without `bad`. */
  lemma {:induction false} RunIff(c: Config, s: State, es: seq<Event>, good: State -> bool, bad: (State, Event) -> bool)
    requires forall t, e :: Inv(c, t) && good(t) && Step(c, t, e).Some? ==> (good(Step(c, t, e).value) <==> !bad(t, e))
    requires Inv(c, s) && good(s) && Run(c, s, es).Some?
    ensures Always(c, s, es, good) <==> Never(c, s, es, bad)
    decreases |es|
  {
    if es == [] {
      assert At(c, s, es, 0) == s;
    } else {
      hide Inv, Step, Always, Never, At;
      var s' := Step(c, s, es[0]).value;
      InvStep(c, s, es[0]);
      AlwaysFirst(c, s, es, good);
      NeverFirst(c, s, es, bad);
      if good(s') {
        RunIff(c, s', es[1..], good, bad);
      } else if Always(c, s', es[1..], good) {
        AlwaysHere(c, s', es[1..], good);
      }
    }
  }

  /** No task waits beside sleepers only, at any point of a run, if and only if no event of the run is a late timeout of
      the only awake worker. */
  lemma WorkIsConservedIff(c: Config, es: seq<Event>)
    requires c.init <= c.max && Run(c, Started(c), es).Some?
    ensures Always(c, Started(c), es, t => Conserved(t)) <==> Never(c, Started(c), es, (t, e) => LosesWakeup(t, e))
  {
    InvStarts(c);
    hide Run, Locked, Counted, Ticketed, NoSleep, Step, Conserved, LosesWakeup, Always, Never;
    forall t, e | Inv(c, t) && Conserved(t) && Step(c, t, e).Some?
      ensures Conserved(Step(c, t, e).value) <==> !LosesWakeup(t, e)
    {
      ConservedStep(c, t, e);
    }
    RunIff(c, Started(c), es, t => Conserved(t), (t, e) => LosesWakeup(t, e));
  }

  /** No task of a running pool is left to nobody, at any point of a run, if and only if no event of the run is one of
      those that Abandons names. */
  lemma WorkIsAttendedIff(c: Config, es: seq<Event>)
    requires c.init <= c.max && Run(c, Started(c), es).Some?
    ensures Always(c, Started(c), es, t => Attended(t)) <==> Never(c, Started(c), es, (t, e) => Abandons(c, t, e))
  {
    InvStarts(c);
    assert Attended(Started(c));
    hide Run, Locked, Counted, Ticketed, NoSleep, Step, Attended, Abandons, Always, Never;
    forall t, e | Inv(c, t) && Attended(t) && Step(c, t, e).Some?
      ensures Attended(Step(c, t, e).value) <==> !Abandons(c, t, e)
    {
      AttendedStep(c, t, e);
    }
    RunIff(c, Started(c), es, t => Attended(t), (t, e) => Abandons(c, t, e));
  }

  lemma {:induction false} FixedNeverLoses(c: Config, s: State, es: seq<Event>)
    requires c.mode == Fixed && Run(c, s, es).Some?
    ensures Never(c, s, es, (t, e) => LosesWakeup(t, e))
    decreases |es|
  {
    if es != [] {
      NeverLate(c, s, es[0]);
      NeverFirst(c, s, es, (t, e) => LosesWakeup(t, e));
      hide Step, Never;
      FixedNeverLoses(c, Step(c, s, es[0]).value, es[1..]);
    }
  }

  lemma {:induction false} AtEnd(c: Config, s: State, es: seq<Event>)
    requires Run(c, s, es).Some?
    ensures At(c, s, es, |es|) == Run(c, s, es).value
    decreases |es|
  {
    if es != [] {
      hide Step;
      AtEnd(c, Step(c, s, es[0]).value, es[1..]);
    }
  }

  /** In a fixed pool, and after any run without a lost wakeup: if there is a task and a sleeping worker then another
      worker is on its way to the queue; and while the pool runs with at least one initial worker, a task in the queue
      finds some worker up. */
  lemma WorkIsConserved(c: Config, es: seq<Event>)
    requires c.init <= c.max && Run(c, Started(c), es).Some?
    requires c.mode == Fixed || Never(c, Started(c), es, (t, e) => LosesWakeup(t, e))
    ensures var s := Run(c, Started(c), es).value;
            && (s.queue != [] && SomeParked(s.workers) ==> SomeAwake(s.workers))
            && (s.queue != [] && s.running && c.init > 0 ==> SomeUp(s.workers))
  {
    hide Run, Step, At, LosesWakeup, Always, Never;
    var s := Run(c, Started(c), es).value;
    if c.mode == Fixed {
      FixedNeverLoses(c, Started(c), es);
    }
    WorkIsConservedIff(c, es);
    AlwaysHere(c, Started(c), es, t => Conserved(t));
    InvStarts(c);
    RunKeeps(c, Started(c), es, t => true);
    if s.queue != [] && s.running && c.init > 0 {
      NotAllGone(c, s);
      SomeoneIsUp(c, s);
    }
  }

  lemma SomeoneIsUp(c: Config, s: State)
    requires Locked(c, s) && Conserved(s) && s.queue != [] && !AllGone(s.workers)
    ensures SomeUp(s.workers)
  {
    var w :| 0 <= w < |s.workers| && s.workers[w] != Gone;
    if s.workers[w] == Parked {
      var i :| 0 <= i < |s.workers| && Awake(s.workers[i]);
      assert Up(s.workers[i]);
    } else {
      assert Up(s.workers[w]);
    }
  }

  lemma NotAllGone(c: Config, s: State)
    requires Counted(c, s) && s.running && c.init > 0
    ensures !AllGone(s.workers)
  {
    NoneAlive(s.workers);
  }
}
