/** Work conservation: a task in the queue is never left to workers that sleep. */
module ThreadPoolWork {
  import opened Options
  import opened ThreadPoolSteps
  import opened ThreadPoolSafety

  // ---------------------------------------------------------------- work conservation

  /** On the way to line 106 and certain to get there; one that timed out may retire instead. */
  predicate Awake(p: Phase) {
    p == AtLock || p == Looking || p == Woken(false) || p == Back(false)
  }

  predicate SomeAwake(ws: seq<Phase>) {
    exists i | 0 <= i < |ws| :: Awake(ws[i])
  }

  /** No task waits while some worker sleeps un-notified and nobody is on the way to the queue. */
  ghost predicate Conserved(s: State) {
    s.queue != [] && SomeParked(s.workers) ==> SomeAwake(s.workers)
  }

  predicate OnlyAwake(ws: seq<Phase>, w: nat) {
    forall i | 0 <= i < |ws| && i != w :: !Awake(ws[i])
  }

  /** The one step that can lose a wakeup: the only awake worker was notified too late to tell it from a timeout. */
  ghost predicate LosesWakeup(s: State, e: Event) {
    e.Late? && s.queue != [] && SomeParked(s.workers) && OnlyAwake(s.workers, e.w)
  }

  lemma ConservedMove(c: Config, s: State, s': State, w: nat)
    requires Locked(c, s) && Conserved(s) && Moved(c, s, s', w)
    requires !(s.workers[w] == Woken(false) && s'.workers[w] == Woken(true))
    ensures Conserved(s')
  {
    if s'.queue != [] && SomeParked(s'.workers) {
      var i :| 0 <= i < |s'.workers| && s'.workers[i] == Parked;
      assert s.workers[i] == Parked;
      var j :| 0 <= j < |s.workers| && Awake(s.workers[j]);
      assert j != w ==> s'.workers[j] == s.workers[j];
      assert Awake(s'.workers[j]);
    }
  }

  lemma NotifiedNoneParked(ws: seq<Phase>)
    ensures !SomeParked(NotifyAll(ws))
  {
  }

  lemma ConservedTake(s: State, w: nat)
    requires w < |s.workers| && s.workers[w] == Looking && s.queue != []
    ensures Conserved(Taken(s, w))
  {
    if s.queue[1..] != [] {
      NotifiedNoneParked(s.workers);
      assert !SomeParked(Taken(s, w).workers);
    }
  }

  lemma ConservedSubmit(c: Config, s: State, task: Task, chosen: nat)
    requires MayChoose(s.workers, chosen)
    ensures Conserved(Spawned(c, Enqueued(s, task, chosen)))
  {
    var s' := Spawned(c, Enqueued(s, task, chosen));
    if SomeParked(s'.workers) {
      var i :| 0 <= i < |s'.workers| && s'.workers[i] == Parked;
      assert s.workers[i] == Parked;
      assert s'.workers[chosen] == Woken(false);
    }
  }

  lemma ConservedLate(c: Config, s: State, s': State, w: nat)
    requires Conserved(s) && Moved(c, s, s', w) && s.workers[w] == Woken(false) && s'.workers[w] == Woken(true)
    ensures Conserved(s') <==> !(s.queue != [] && SomeParked(s.workers) && OnlyAwake(s.workers, w))
  {
    if SomeParked(s.workers) {
      var i :| 0 <= i < |s.workers| && s.workers[i] == Parked;
      assert s'.workers[i] == Parked;
    }
    if SomeParked(s'.workers) {
      var i :| 0 <= i < |s'.workers| && s'.workers[i] == Parked;
      assert s.workers[i] == Parked;
    }
    if !OnlyAwake(s.workers, w) {
      var i :| 0 <= i < |s.workers| && i != w && Awake(s.workers[i]);
      assert Awake(s'.workers[i]);
    }
    if OnlyAwake(s.workers, w) {
      forall i | 0 <= i < |s'.workers|
        ensures !Awake(s'.workers[i])
      {
        assert i != w ==> s'.workers[i] == s.workers[i];
      }
    }
  }

  /** Work conservation survives every step but one. */
  lemma ConservedStep(c: Config, s: State, e: Event)
    requires Locked(c, s) && Conserved(s) && Step(c, s, e).Some?
    ensures Conserved(Step(c, s, e).value) <==> !LosesWakeup(s, e)
  {
    var s' := Step(c, s, e).value;
    if OfWorker(e) && !e.Take? {
      WorkerMoves(c, s, e);
      if e.Late? {
        assert s.workers[e.w] == Woken(false) && s'.workers[e.w] == Woken(true);
        hide Step, Moved, Conserved, Locked, OnlyAwake, SomeParked;
        ConservedLate(c, s, s', e.w);
      } else {
        assert !(s.workers[e.w] == Woken(false) && s'.workers[e.w] == Woken(true));
        hide Step, Moved, Conserved, Locked;
        ConservedMove(c, s, s', e.w);
      }
    } else if Quiet(e) {
      QuietStep(c, s, e);
      hide Step, Locked, SomeParked, SomeAwake;
    } else {
      hide Locked, Conserved, SomeAwake, Taken, Spawned, Enqueued, MayChoose, AllGone;
      match e
      case Submit(task, chosen) => ConservedSubmit(c, s, task, chosen);
      case Lock => NotifiedNoneParked(s.workers); NoneParkedConserved(s');
      case Take(w) => ConservedTake(s, w);
    }
  }

  lemma NoneParkedConserved(s: State)
    requires !SomeParked(s.workers)
    ensures Conserved(s)
  {
  }

  lemma AwakeAfterTake(s: State, v: nat, w: nat)
    requires v < |s.workers| && w < |s.workers| && v != w && Awake(s.workers[w]) && s.queue != []
    ensures Awake(Taken(s, v).workers[w])
  {
  }

  lemma AwakeAfterSubmit(c: Config, s: State, task: Task, chosen: nat, w: nat)
    requires w < |s.workers| && Awake(s.workers[w])
    ensures w < |Spawned(c, Enqueued(s, task, chosen)).workers| && Awake(Spawned(c, Enqueued(s, task, chosen)).workers[w])
  {
  }

  /** What makes an awake worker worth something: while there is a task, it stays awake until it takes one. */
  lemma AwakeUntilTake(c: Config, s: State, e: Event, w: nat)
    requires Step(c, s, e).Some? && w < |s.workers| && Awake(s.workers[w]) && s.queue != []
    requires e != Take(w) && e != Late(w)
    ensures w < |Step(c, s, e).value.workers| && Awake(Step(c, s, e).value.workers[w])
  {
    var s' := Step(c, s, e).value;
    if OfWorker(e) && !e.Take? {
      WorkerMoves(c, s, e);
      if e.w == w {
        assert e.Acquire? || e.Resume?;
      } else {
        hide Step, Holds;
        assert s'.workers[w] == s.workers[w];
      }
    } else if Quiet(e) {
      QuietStep(c, s, e);
      hide Step;
    } else {
      hide AllGone, MayChoose, Taken, Spawned, Enqueued;
      match e
      case Submit(task, chosen) => AwakeAfterSubmit(c, s, task, chosen, w);
      case Take(v) => AwakeAfterTake(s, v, w);
      case Lock =>
    }
  }

  // ---------------------------------------------------------------- nobody left

  /** Not asleep, not about to sleep and not gone: on its way to the queue, executing, or just timed out. */
  predicate Up(p: Phase) {
    p != Parked && p != SawRunning && p != Gone
  }

  predicate SomeUp(ws: seq<Phase>) {
    exists i | 0 <= i < |ws| :: Up(ws[i])
  }

  /** A task in a running pool finds some worker up. */
  ghost predicate Attended(s: State) {
    s.queue != [] && s.running ==> SomeUp(s.workers)
  }

  predicate OnlyUp(ws: seq<Phase>, w: nat) {
    forall i | 0 <= i < |ws| && i != w :: !Up(ws[i])
  }

  /** The steps that leave a task to nobody: a worker retires past the queue (line 122 looks at the clock and the thread
      count only) while no other is up, or a task is accepted without a worker and without leave to start one. */
  ghost predicate Abandons(c: Config, s: State, e: Event) {
    || (e.Retire? && s.queue != [] && s.running && OnlyUp(s.workers, e.w))
    || (e.Submit? && AllGone(s.workers) && (c.mode == Fixed || c.max == 0))
  }

  lemma RetireIs(c: Config, s: State, e: Event)
    requires OfWorker(e) && !e.Take? && Step(c, s, e).Some?
    ensures e.Retire? <==> s.workers[e.w].Back? && Step(c, s, e).value.workers[e.w] == Gone
  {
  }

  lemma AttendedMove(c: Config, s: State, s': State, w: nat)
    requires Locked(c, s) && Attended(s) && Moved(c, s, s', w)
    ensures Attended(s') <==> !(s.workers[w].Back? && s'.workers[w] == Gone && s.queue != [] && s.running && OnlyUp(s.workers, w))
  {
    hide Holds;
    var q := s'.workers[w];
    if Up(q) {
      assert SomeUp(s'.workers);
    } else if q == Gone && s.workers[w].Back? {
      if OnlyUp(s.workers, w) {
        forall i | 0 <= i < |s'.workers|
          ensures !Up(s'.workers[i])
        {
          assert i != w ==> s'.workers[i] == s.workers[i];
        }
      } else {
        var i :| 0 <= i < |s.workers| && i != w && Up(s.workers[i]);
        assert Up(s'.workers[i]);
      }
    }
  }

  lemma AttendedSubmit(c: Config, s: State, task: Task, chosen: nat)
    requires Locked(c, s) && Counted(c, s) && s.running && s.holder == None && MayChoose(s.workers, chosen)
    ensures Attended(Spawned(c, Enqueued(s, task, chosen))) <==> !(AllGone(s.workers) && (c.mode == Fixed || c.max == 0))
  {
    var t := Enqueued(s, task, chosen);
    var s' := Spawned(c, t);
    NoneAlive(s.workers);
    if AllGone(s.workers) {
      BusyIsAlive(s.workers);
      hide Total;
      assert t.workers == s.workers && s.idle == 0 && s.current == 0;
      if Spawns(c, t) {
        assert Up(s'.workers[|s.workers|]);
      }
    } else {
      hide Total, Counted, Spawns;
      var w :| 0 <= w < |s.workers| && s.workers[w] != Gone;
      if SomeParked(s.workers) {
        assert Up(s'.workers[chosen]);
      } else {
        assert !Holds(s.workers[w]) && s.workers[w] != Parked;
        assert Up(s'.workers[w]);
      }
    }
  }

  /** Exactly which steps leave a task of a running pool to nobody. */
  lemma AttendedStep(c: Config, s: State, e: Event)
    requires Locked(c, s) && Counted(c, s) && Attended(s) && Step(c, s, e).Some?
    ensures Attended(Step(c, s, e).value) <==> !Abandons(c, s, e)
  {
    var s' := Step(c, s, e).value;
    if OfWorker(e) && !e.Take? {
      WorkerMoves(c, s, e);
      RetireIs(c, s, e);
      hide Step, Moved, Locked, Counted, Attended, OnlyUp, AllGone;
      AttendedMove(c, s, s', e.w);
    } else if Quiet(e) {
      QuietStep(c, s, e);
      AttendedQuiet(c, s, e);
      hide Step, Locked, Counted, Attended;
    } else {
      hide Locked, Spawned, Enqueued, MayChoose, AllGone, Total;
      match e
      case Submit(task, chosen) => AttendedSubmit(c, s, task, chosen);
      case Lock => assert !s'.running;
      case Take(w) => assert Up(s'.workers[w]);
    }
  }

  lemma AttendedQuiet(c: Config, s: State, e: Event)
    requires Quiet(e) && Attended(s) && Step(c, s, e).Some?
    ensures Attended(Step(c, s, e).value)
  {
    hide AllGone, SomeUp;
  }
}
