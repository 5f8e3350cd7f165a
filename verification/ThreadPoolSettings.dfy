/** Which settings of the thread pool give which guarantee: for each, the exact condition on mode, thread counts and
    queue limit, with a run that breaks the guarantee for every other setting. */
module ThreadPoolSettings {
  import opened Options
  import opened ThreadPoolSteps
  import opened ThreadPoolSafety
  import opened ThreadPoolWork
  import opened ThreadPoolShutdown
  import opened ThreadPoolRuns

  // ---------------------------------------------------------------- pieces of runs

  lemma StartedReachable(c: Config)
    ensures Reachable(c, Started(c))
  {
    assert Run(c, Started(c), []) == Some(Started(c));
  }

  /** One worker takes the only task, executes it and comes back. */
  lemma OneTask(c: Config, s: State, w: nat) returns (s': State)
    requires Reachable(c, s) && w < |s.workers| && s.workers[w] == AtLock && s.holder == None && |s.queue| == 1
    ensures Reachable(c, s') && s' == s.(queue := [], taskSize := s.taskSize - 1, taken := s.taken + 1, done := s.done + {s.taken})
  {
    hide Reachable;
    var s2 := OneTakes(c, s, w);
    ReachStep(c, s2, Finish(w));
    var s3 := Step(c, s2, Finish(w)).value;
    ReachStep(c, s3, Rest(w));
    s' := Step(c, s3, Rest(w)).value;
    assert s'.workers == s.workers;
  }

  lemma OneTakes(c: Config, s: State, w: nat) returns (s': State)
    requires Reachable(c, s) && w < |s.workers| && s.workers[w] == AtLock && s.holder == None && |s.queue| == 1
    ensures Reachable(c, s')
    ensures s' == s.(queue := [], taskSize := s.taskSize - 1, taken := s.taken + 1, idle := s.idle - 1,
                     workers := s.workers[w := Executing(s.taken)])
  {
    hide Reachable;
    ReachStep(c, s, Acquire(w));
    var s1 := Step(c, s, Acquire(w)).value;
    assert s1.queue[1..] == [];
    ReachStep(c, s1, Take(w));
    s' := Step(c, s1, Take(w)).value;
    assert s'.workers == s.workers[w := Executing(s.taken)];
  }

  /** One worker finds the queue empty and parks. */
  lemma OneParks(c: Config, s: State, w: nat) returns (s': State)
    requires Reachable(c, s) && w < |s.workers| && s.workers[w] == AtLock && s.holder == None
    requires s.queue == [] && s.running
    ensures Reachable(c, s') && s' == s.(workers := s.workers[w := Parked])
  {
    hide Reachable;
    ReachStep(c, s, Acquire(w));
    var s1 := Step(c, s, Acquire(w)).value;
    ReachStep(c, s1, Look(w));
    var s2 := Step(c, s1, Look(w)).value;
    ReachStep(c, s2, Park(w));
    s' := Step(c, s2, Park(w)).value;
    assert s'.workers == s.workers[w := Parked];
  }

  lemma OneTimesOut(c: Config, s: State, w: nat) returns (s': State)
    requires c.mode == Cached && Reachable(c, s) && w < |s.workers| && s.workers[w] == AtLock && s.holder == None
    requires s.queue == [] && s.running
    ensures Reachable(c, s') && s' == s.(workers := s.workers[w := Woken(true)])
  {
    hide Reachable;
    var s3 := OneParks(c, s, w);
    ReachStep(c, s3, Timeout(w));
    s' := Step(c, s3, Timeout(w)).value;
    assert s'.workers == s.workers[w := Woken(true)];
  }

  /** A worker that timed out retires. */
  lemma OneRetires(c: Config, s: State, w: nat) returns (s': State)
    requires c.mode == Cached && Reachable(c, s) && w < |s.workers| && s.workers[w] == Woken(true) && s.holder == None
    requires s.current > c.init
    ensures Reachable(c, s') && s' == s.(workers := s.workers[w := Gone], current := s.current - 1, idle := s.idle - 1)
  {
    hide Reachable;
    ReachStep(c, s, Acquire(w));
    var s1 := Step(c, s, Acquire(w)).value;
    ReachStep(c, s1, Retire(w));
    s' := Step(c, s1, Retire(w)).value;
    assert s'.workers == s.workers[w := Gone];
  }

  /** A task is accepted, nobody is parked and no worker is added. */
  lemma OneSubmit(c: Config, s: State, task: Task) returns (s': State)
    requires Reachable(c, s) && s.running && s.holder == None && s.queue == [] && s.taskSize == 0 && c.limit > 0
    requires !SomeParked(s.workers) && !Spawns(c, s.(taskSize := 1))
    ensures Reachable(c, s') && s' == s.(queue := [task], taskSize := 1, accepted := s.accepted + [task])
  {
    hide Reachable;
    ReachStep(c, s, Submit(task, 0));
    s' := Step(c, s, Submit(task, 0)).value;
  }

  // ---------------------------------------------------------------- pools of any number of workers

  /** `k` workers, the first `i` executing and the others at the mutex, and no task waiting. */
  ghost predicate Working(s: State, k: nat, i: nat) {
    && i <= k == |s.workers| && s.holder == None && s.queue == [] && s.running && s.closing == Open
    && s.current == k && s.idle == k - i && s.taskSize == 0
    && (forall j | 0 <= j < i :: s.workers[j].Executing?) && (forall j | i <= j < k :: s.workers[j] == AtLock)
  }

  lemma OneMoreWorking(c: Config, s: State, k: nat, i: nat) returns (s': State)
    requires Reachable(c, s) && Working(s, k, i) && i < k && c.limit > 0
    ensures Reachable(c, s') && Working(s', k, i + 1)
  {
    hide Reachable;
    var s1 := OneSubmit(c, s, 7);
    s' := OneTakes(c, s1, i);
  }

  lemma {:induction false} AllWorking(c: Config, s: State, k: nat, i: nat) returns (s': State)
    requires Reachable(c, s) && Working(s, k, i) && c.limit > 0
    ensures Reachable(c, s') && Working(s', k, k)
    decreases k - i
  {
    s' := s;
    if i < k {
      hide Reachable, Working;
      s' := OneMoreWorking(c, s, k, i);
      s' := AllWorking(c, s', k, i + 1);
    }
  }

  lemma OneLessWorking(c: Config, s: State, k: nat, i: nat) returns (s': State)
    requires Reachable(c, s) && Working(s, k, i) && i > 0
    ensures Reachable(c, s') && Working(s', k, i - 1)
  {
    hide Reachable;
    ReachStep(c, s, Finish(i - 1));
    var s1 := Step(c, s, Finish(i - 1)).value;
    ReachStep(c, s1, Rest(i - 1));
    s' := Step(c, s1, Rest(i - 1)).value;
  }

  lemma {:induction false} NoneWorking(c: Config, s: State, k: nat, i: nat) returns (s': State)
    requires Reachable(c, s) && Working(s, k, i)
    ensures Reachable(c, s') && Working(s', k, 0)
    decreases i
  {
    s' := s;
    if i > 0 {
      hide Reachable, Working;
      s' := OneLessWorking(c, s, k, i);
      s' := NoneWorking(c, s', k, i - 1);
    }
  }

  /** A task that finds every worker of a cached pool busy brings a worker more. */
  lemma OneMoreWorker(c: Config, s: State, k: nat) returns (s': State)
    requires c.mode == Cached && k < c.max && c.limit > 0 && Reachable(c, s) && Working(s, k, k)
    ensures Reachable(c, s') && Working(s', k + 1, k)
  {
    hide Reachable;
    ReachStep(c, s, Submit(7, 0));
    var s1 := Step(c, s, Submit(7, 0)).value;
    assert s1.workers == s.workers + [AtLock];
    s' := OneTask(c, s1, k);
  }

  /** A cached pool can come to any number of workers it may have, all of them idle. */
  lemma {:induction false} Fleet(c: Config, n: nat) returns (s: State)
    requires c.init == n || (c.mode == Cached && c.limit > 0 && c.init <= n <= c.max)
    ensures Reachable(c, s) && Working(s, n, 0)
    decreases n - c.init
  {
    if n == c.init {
      StartedReachable(c);
      s := Started(c);
    } else {
      hide Reachable, Working;
      s := Fleet(c, n - 1);
      s := AllWorking(c, s, n - 1, 0);
      s := OneMoreWorker(c, s, n - 1);
      s := NoneWorking(c, s, n, n - 1);
    }
  }

  /** The first `i` of `k` idle workers are parked. */
  ghost predicate Sleeping(s: State, k: nat, i: nat) {
    && i <= k == |s.workers| && s.holder == None && s.queue == [] && s.running && s.closing == Open
    && s.current == k && s.idle == k && s.taskSize == 0
    && (forall j | 0 <= j < i :: s.workers[j] == Parked) && (forall j | i <= j < k :: s.workers[j] == AtLock)
  }

  lemma {:induction false} AllSleeping(c: Config, s: State, k: nat, i: nat) returns (s': State)
    requires Reachable(c, s) && Sleeping(s, k, i)
    ensures Reachable(c, s') && Sleeping(s', k, k)
    decreases k - i
  {
    hide Reachable;
    s' := s;
    if i < k {
      s' := OneParks(c, s, i);
      s' := AllSleeping(c, s', k, i + 1);
    }
  }

  /** A task is accepted by a sleeping pool of `k` workers, and the wait of the notified one reports a timeout. */
  lemma LateNotice(c: Config, k: nat) returns (s: State)
    requires c.mode == Cached && c.limit > 0 && 0 < k && c.init <= k <= c.max
    ensures Reachable(c, s) && |s.workers| == k && s.workers[k - 1] == Woken(true) && s.holder == None
    ensures s.queue == [9] && s.running && s.current == k && forall j | 0 <= j < k - 1 :: s.workers[j] == Parked
  {
    hide Reachable;
    var s0 := Fleet(c, k);
    var s1 := AllSleeping(c, s0, k, 0);
    assert SomeParked(s1.workers) by {
      assert s1.workers[k - 1] == Parked;
    }
    ReachStep(c, s1, Submit(9, k - 1));
    var s2 := Step(c, s1, Submit(9, k - 1)).value;
    assert s2.workers == s1.workers[k - 1 := Woken(false)];
    ReachStep(c, s2, Late(k - 1));
    s := Step(c, s2, Late(k - 1)).value;
  }

  // ---------------------------------------------------------------- runs that break a guarantee

  /** A notified worker whose wait reports a timeout retires with the wakeup: the task stays behind, with nobody up. */
  lemma LateTimeoutLosesWakeup(c: Config) returns (s: State)
    requires c.mode == Cached && c.init < c.max && c.limit > 0
    ensures Reachable(c, s) && s.running && s.queue == [9] && !SomeUp(s.workers)
    ensures c.init > 0 ==> SomeParked(s.workers) && !Conserved(s)
  {
    hide Reachable;
    var k := c.init + 1;
    var s1 := LateNotice(c, k);
    s := OneRetires(c, s1, k - 1);
    assert forall j | 0 <= j < k :: !Up(s.workers[j]);
    if c.init > 0 {
      assert s.workers[0] == Parked;
    }
  }

  /** Two workers are enough for a task beside a sleeper with nobody on the way to it. */
  lemma LateTimeoutLosesNotice(c: Config) returns (s: State)
    requires c.mode == Cached && c.init <= c.max && c.max >= 2 && c.limit > 0
    ensures Reachable(c, s) && !Conserved(s)
  {
    hide Reachable;
    var k := if c.init < 2 then 2 else c.init;
    s := LateNotice(c, k);
    assert s.workers[0] == Parked;
    assert forall j | 0 <= j < k :: !Awake(s.workers[j]);
  }

  /** Without initial workers a cached pool can accept a task and have its only worker retire past it. */
  lemma TaskStranded(c: Config) returns (s: State)
    requires c.mode == Cached && c.init == 0 < c.max && c.limit > 0
    ensures Reachable(c, s) && s.running && s.queue == [8] && s.holder == None && s.closing == Open && AllGone(s.workers)
    ensures forall e: Event :: OfWorker(e) ==> Step(c, s, e).None?
  {
    hide Reachable;
    var s0 := Fleet(c, 1);
    var s1 := OneTimesOut(c, s0, 0);
    var s2 := OneSubmit(c, s1, 8);
    s := OneRetires(c, s2, 0);
    assert s.workers == [Gone];
  }

  /** A pool that may not have a worker accepts a task. */
  lemma NobodyToTakeIt(c: Config) returns (s: State)
    requires c.init == 0 && c.limit > 0 && (c.mode == Fixed || c.max == 0)
    ensures Reachable(c, s) && s.running && s.queue == [8] && s.holder == None && s.closing == Open && AllGone(s.workers)
  {
    hide Reachable;
    StartedReachable(c);
    assert Started(c).workers == [];
    s := OneSubmit(c, Started(c), 8);
  }

  /** The destructor of a pool without initial workers can return with a task undone. */
  lemma NoWorkersDropTasks(c: Config) returns (s: State)
    requires c.init == 0 && c.limit > 0
    ensures Reachable(c, s) && s.closing == Closed && !AllDone(s)
  {
    hide Reachable;
    var s0;
    if c.mode == Fixed || c.max == 0 {
      s0 := NobodyToTakeIt(c);
    } else {
      s0 := TaskStranded(c);
    }
    ReachStep(c, s0, Clear);
    var s1 := Step(c, s0, Clear).value;
    assert NotifyAll(s1.workers) == s1.workers;
    ReachStep(c, s1, Lock);
    s := Step(c, s1, Lock).value;
    ReachableInv(c, s);
    TicketedQueue(s);
    TasksAreKept(c, s, s.taken);
  }

  /** The destructor waits; the first `i` of `k` workers have ended, the last one timed out before. */
  ghost predicate Leaving(s: State, k: nat, i: nat) {
    && i < k == |s.workers| && s.holder == None && s.queue == [] && !s.running && s.current == k
    && (s.closing == Waiting || s.closing == Alerted) && s.workers[k - 1] == Woken(true)
    && (forall j | 0 <= j < i :: s.workers[j] == Gone) && (forall j | i <= j < k - 1 :: s.workers[j] == AtLock)
  }

  lemma {:induction false} OthersLeave(c: Config, s: State, k: nat, i: nat) returns (s': State)
    requires Reachable(c, s) && Leaving(s, k, i)
    ensures Reachable(c, s') && Leaving(s', k, k - 1)
    decreases k - i
  {
    hide Reachable;
    s' := s;
    if i < k - 1 {
      ReachStep(c, s, Acquire(i));
      var s1 := Step(c, s, Acquire(i)).value;
      ReachStep(c, s1, Exit(i));
      s' := OthersLeave(c, Step(c, s1, Exit(i)).value, k, i + 1);
    }
  }

  lemma DestructorWaits(c: Config, k: nat) returns (s: State)
    requires c.mode == Cached && c.limit > 0 && c.init < k <= c.max
    ensures Reachable(c, s) && Leaving(s, k, 0)
  {
    hide Reachable;
    var s0 := Fleet(c, k);
    var s1 := OneTimesOut(c, s0, k - 1);
    ReachStep(c, s1, Clear);
    var s2 := Step(c, s1, Clear).value;
    assert NotifyAll(s2.workers) == s2.workers && s2.workers[k - 1] != Gone;
    ReachStep(c, s2, Lock);
    s := Step(c, s2, Lock).value;
  }

  /** In a cached pool that may grow the last worker can retire while the destructor waits, and nothing wakes the
      destructor but chance. */
  lemma CachedShutdownUnheard(c: Config) returns (s: State)
    requires c.mode == Cached && c.init < c.max && c.limit > 0
    ensures Reachable(c, s) && s.closing == Waiting && AllGone(s.workers)
    ensures forall e: Event :: Step(c, s, e).Some? ==> e.Refuse? || e.Stir?
  {
    hide Reachable;
    var k := c.init + 1;
    var s0 := DestructorWaits(c, k);
    var s1 := OthersLeave(c, s0, k, 0);
    assert s1.workers[k - 1] != Gone;
    if s1.closing == Alerted {
      ReachStep(c, s1, Check);
      s1 := Step(c, s1, Check).value;
    }
    s := OneRetires(c, s1, k - 1);
    assert s.running == false && s.holder == None;
  }

  // ---------------------------------------------------------------- runs that keep it

  /** A pool whose queue admits nothing never accepts a task, and never has more than its initial workers. */
  ghost predicate Barren(c: Config, s: State) {
    s.accepted == [] && s.queue == [] && s.current <= c.init
  }

  lemma BarrenStep(c: Config, s: State, e: Event)
    requires c.limit == 0 && Barren(c, s) && Step(c, s, e).Some?
    ensures Barren(c, Step(c, s, e).value)
  {
    if OfWorker(e) && !e.Take? {
      WorkerMoves(c, s, e);
      hide Step, Holds;
    } else if Quiet(e) {
      QuietStep(c, s, e);
      hide Step;
    } else {
      hide AllGone;
      assert e.Lock?;
    }
  }

  lemma ReachableBarren(c: Config, s: State)
    requires c.init <= c.max && c.limit == 0 && Reachable(c, s)
    ensures Barren(c, s)
  {
    forall t, e | Inv(c, t) && Barren(c, t) && Step(c, t, e).Some?
      ensures Barren(c, Step(c, t, e).value)
    {
      BarrenStep(c, t, e);
    }
    assert Barren(c, Started(c));
    hide Inv, Step, Barren, Reachable;
    ReachableKeeps(c, s, t => Barren(c, t));
  }

  /** A pool that always keeps a worker: it has one to begin with and cannot retire any. */
  predicate Steady(c: Config) {
    c.init > 0 && (c.mode == Fixed || c.init == c.max)
  }

  lemma SteadyStep(c: Config, s: State, e: Event)
    requires Steady(c) && Locked(c, s) && Counted(c, s) && Attended(s) && Step(c, s, e).Some?
    ensures Attended(Step(c, s, e).value)
  {
    AttendedStep(c, s, e);
    if e.Submit? {
      NotAllGone(c, s);
    }
    hide Total, Locked, Attended, AllGone, OnlyUp, Spawned, Enqueued, Taken;
  }

  ghost predicate AlwaysAttended(c: Config) {
    forall s | Reachable(c, s) :: Attended(s)
  }

  /** A task of a running pool finds some worker up, in every reachable state, exactly for pools that admit no task and
      for those that have initial workers and cannot retire any. */
  lemma AttendedIff(c: Config)
    requires c.init <= c.max
    ensures AlwaysAttended(c) <==> c.limit == 0 || Steady(c)
  {
    hide Reachable;
    if c.limit == 0 || Steady(c) {
      forall s | Reachable(c, s)
        ensures Attended(s)
      {
        AttendedHere(c, s);
      }
    } else if c.mode == Cached && c.init < c.max {
      var s := LateTimeoutLosesWakeup(c);
      assert Reachable(c, s) && !Attended(s);
    } else {
      var s := NobodyToTakeIt(c);
      assert Reachable(c, s) && !Attended(s);
    }
  }

  lemma AttendedHere(c: Config, s: State)
    requires c.init <= c.max && Reachable(c, s) && (c.limit == 0 || Steady(c))
    ensures Attended(s)
  {
    if c.limit == 0 {
      ReachableBarren(c, s);
    } else {
      assert Attended(Started(c));
      hide Step, Locked, Counted, Ticketed, NoSleep, Attended, Steady, Reachable;
      forall t, e | Inv(c, t) && Attended(t) && Step(c, t, e).Some?
        ensures Attended(Step(c, t, e).value)
      {
        SteadyStep(c, t, e);
      }
      ReachableKeeps(c, s, t => Attended(t));
    }
  }

  lemma TwoAlive(ws: seq<Phase>, v: nat, w: nat)
    requires v < |ws| && w < |ws| && v != w && ws[v] != Gone && ws[w] != Gone
    ensures Total(ws, AliveOne) >= 2
  {
    TotalUpdate(ws, AliveOne, v, Gone);
    var ws' := ws[v := Gone];
    TotalUpdate(ws', AliveOne, w, Gone);
  }

  lemma LoneNeverLoses(c: Config, s: State, e: Event)
    requires (c.mode == Fixed || c.max <= 1) && Counted(c, s) && Step(c, s, e).Some?
    ensures !LosesWakeup(s, e)
  {
    NeverLateIfFixed(c, s, e);
    hide Total, Spawned, Enqueued, Taken, Recheck;
    if LosesWakeup(s, e) {
      assert s.workers[e.w] == Woken(false);
      var i :| 0 <= i < |s.workers| && s.workers[i] == Parked;
      TwoAlive(s.workers, i, e.w);
      assert false;
    }
  }

  lemma NeverLateIfFixed(c: Config, s: State, e: Event)
    requires Step(c, s, e).Some?
    ensures c.mode == Fixed ==> !e.Late?
  {
  }

  ghost predicate AlwaysConserved(c: Config) {
    forall s | Reachable(c, s) :: Conserved(s)
  }

  /** No task waits beside sleepers only, in every reachable state, exactly for fixed pools, pools that admit no task and
      pools of at most one worker. */
  lemma ConservedIff(c: Config)
    requires c.init <= c.max
    ensures AlwaysConserved(c) <==> c.mode == Fixed || c.limit == 0 || c.max <= 1
  {
    hide Reachable;
    if c.mode == Fixed || c.limit == 0 || c.max <= 1 {
      forall s | Reachable(c, s)
        ensures Conserved(s)
      {
        ConservedHere(c, s);
      }
    } else {
      var s := LateTimeoutLosesNotice(c);
      assert Reachable(c, s) && !Conserved(s);
    }
  }

  lemma ConservedHere(c: Config, s: State)
    requires c.init <= c.max && Reachable(c, s) && (c.mode == Fixed || c.limit == 0 || c.max <= 1)
    ensures Conserved(s)
  {
    if c.limit == 0 {
      ReachableBarren(c, s);
    } else {
      InvStarts(c);
      hide Step, Locked, Counted, Ticketed, NoSleep, Conserved, LosesWakeup, Reachable;
      forall t, e | Inv(c, t) && Conserved(t) && Step(c, t, e).Some?
        ensures Conserved(Step(c, t, e).value)
      {
        ConservedStep(c, t, e);
        LoneNeverLoses(c, t, e);
      }
      ReachableKeeps(c, s, t => Conserved(t));
    }
  }

  lemma RetireNeeds(c: Config, s: State, e: Event)
    requires Step(c, s, e).Some?
    ensures e.Retire? ==> c.mode == Cached && s.current > c.init
  {
    hide Taken, Spawned, Enqueued, Recheck, AllGone, MayChoose;
  }

  lemma HeardHereStep(c: Config, s: State, e: Event)
    requires (c.mode == Fixed || c.init == c.max || c.limit == 0) && Inv(c, s) && Heard(s) && Step(c, s, e).Some?
    requires c.limit == 0 ==> Barren(c, s)
    ensures Heard(Step(c, s, e).value)
  {
    HeardStep(c, s, e);
    RetireNeeds(c, s, e);
    hide Step, Heard, Locked, Ticketed, NoSleep, Total;
  }

  ghost predicate AlwaysHeard(c: Config) {
    forall s | Reachable(c, s) :: Heard(s)
  }

  /** The destructor never waits for workers that no longer exist, in any reachable state, exactly for fixed pools, pools
      that cannot grow and pools that admit no task. */
  lemma HeardIff(c: Config)
    requires c.init <= c.max
    ensures AlwaysHeard(c) <==> c.mode == Fixed || c.init == c.max || c.limit == 0
  {
    hide Reachable;
    if c.mode == Fixed || c.init == c.max || c.limit == 0 {
      forall s | Reachable(c, s)
        ensures Heard(s)
      {
        HeardHere(c, s);
      }
    } else {
      var s := CachedShutdownUnheard(c);
      assert Reachable(c, s) && !Heard(s);
    }
  }

  lemma HeardHere(c: Config, s: State)
    requires c.init <= c.max && Reachable(c, s) && (c.mode == Fixed || c.init == c.max || c.limit == 0)
    ensures Heard(s)
  {
    InvStarts(c);
    assert Barren(c, Started(c));
    hide Step, Locked, Counted, Ticketed, NoSleep, Heard, Barren, Reachable;
    forall t, e | Inv(c, t) && Heard(t) && (c.limit == 0 ==> Barren(c, t)) && Step(c, t, e).Some?
      ensures Heard(Step(c, t, e).value) && (c.limit == 0 ==> Barren(c, Step(c, t, e).value))
    {
      HeardHereStep(c, t, e);
      if c.limit == 0 {
        BarrenStep(c, t, e);
      }
    }
    ReachableKeeps(c, s, t => Heard(t) && (c.limit == 0 ==> Barren(c, t)));
  }

  ghost predicate AlwaysClosesDone(c: Config) {
    forall s | Reachable(c, s) && s.closing == Closed :: AllDone(s)
  }

  /** A destructor that returns has every accepted task done, in every reachable state, exactly for pools with initial
      workers and pools that admit no task, in either mode. */
  lemma ClosesDoneIff(c: Config)
    requires c.init <= c.max
    ensures AlwaysClosesDone(c) <==> c.init > 0 || c.limit == 0
  {
    hide Reachable, AllDone;
    if c.init > 0 || c.limit == 0 {
      forall s | Reachable(c, s) && s.closing == Closed
        ensures AllDone(s)
      {
        ClosesDoneHere(c, s);
      }
    } else {
      var s := NoWorkersDropTasks(c);
      assert Reachable(c, s) && s.closing == Closed && !AllDone(s);
    }
  }

  lemma ClosesDoneHere(c: Config, s: State)
    requires c.init <= c.max && Reachable(c, s) && s.closing == Closed && (c.init > 0 || c.limit == 0)
    ensures AllDone(s)
  {
    if c.limit == 0 {
      ReachableBarren(c, s);
    } else {
      ReachableInv(c, s);
      hide Reachable;
      EmptyMeansDone(c, s);
    }
  }

  // ---------------------------------------------------------------- shutdown

  /** In a fixed pool, and in a cached one that cannot grow: after notify_all nobody sleeps; the destructor never waits
      with threads_ empty; it returns only with every accepted task done; and a state no thread can leave is one where
      it has returned. */
  lemma SteadyPoolDrains(c: Config, s: State)
    requires Steady(c) && c.init <= c.max && Reachable(c, s) && Notified(s)
    ensures forall w | 0 <= w < |s.workers| :: s.workers[w] != Parked && s.workers[w] != SawRunning
    ensures AllGone(s.workers) ==> s.closing != Waiting && s.queue == [] && AllDone(s)
    ensures s.closing == Closed ==> AllGone(s.workers)
    ensures s.closing != Closed ==> exists e: Event :: (OfWorker(e) || e == Check) && Step(c, s, e).Some?
  {
    HeardHere(c, s);
    ReachableInv(c, s);
    hide Run, Step, Reachable;
    if AllGone(s.workers) {
      EmptyMeansDone(c, s);
      CheckIsOpen(c, s);
    } else {
      var e := SomeoneCanStep(c, s);
    }
  }

  lemma CheckIsOpen(c: Config, s: State)
    requires Locked(c, s) && AllGone(s.workers)
    ensures s.closing == Alerted ==> Step(c, s, Check).Some? && Step(c, s, Check).value.closing == Closed
  {
  }

  /** And it can always be reached: from any such state the threads can bring the destructor to its end. */
  lemma SteadyPoolCloses(c: Config, s: State) returns (es: seq<Event>)
    requires Steady(c) && c.init <= c.max && Reachable(c, s) && Notified(s)
    ensures Run(c, s, es).Some? && Run(c, s, es).value.closing == Closed && AllDone(Run(c, s, es).value)
  {
    HeardHere(c, s);
    ReachableInv(c, s);
    hide Run, Step, Inv, Heard, AllDone, Reachable;
    es := DrainsFrom(c, s);
  }

  lemma {:induction false} DrainsFrom(c: Config, s: State) returns (es: seq<Event>)
    requires Steady(c) && Inv(c, s) && Heard(s) && Notified(s)
    ensures Run(c, s, es).Some? && Run(c, s, es).value.closing == Closed && AllDone(Run(c, s, es).value)
    decreases WorkLeft(s)
  {
    hide Step, Locked, Counted, Ticketed, WorkLeft;
    if AllGone(s.workers) {
      EmptyMeansDone(c, s);
      if s.closing == Closed {
        es := [];
      } else {
        CheckIsOpen(c, s);
        CheckKeeps(c, s);
        es := [Check];
        assert es[1..] == [];
      }
    } else {
      var e := SomeoneCanStep(c, s);
      InvStep(c, s, e);
      SteadyHeardStep(c, s, e);
      WorkShrinks(c, s, e);
      var rest := DrainsFrom(c, Step(c, s, e).value);
      es := [e] + rest;
      assert es[1..] == rest;
    }
  }

  lemma SteadyHeardStep(c: Config, s: State, e: Event)
    requires Steady(c) && Inv(c, s) && Heard(s) && Step(c, s, e).Some?
    ensures Heard(Step(c, s, e).value)
  {
    HeardStep(c, s, e);
    RetireNeeds(c, s, e);
    hide Step, Heard, Locked, Ticketed, NoSleep, Total;
  }

  lemma CheckKeeps(c: Config, s: State)
    requires Step(c, s, Check).Some? && AllDone(s)
    ensures AllDone(Step(c, s, Check).value)
  {
  }
}
