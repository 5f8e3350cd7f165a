/** What every step of the thread pool keeps: who holds the mutex, the counters, and the bookkeeping of tasks. */
module ThreadPoolSafety {
  import opened Options
  import opened ThreadPoolSteps

  // ---------------------------------------------------------------- counting workers

  function Total(ws: seq<Phase>, f: Phase -> nat): nat {
    if ws == [] then 0 else Total(ws[..|ws| - 1], f) + f(ws[|ws| - 1])
  }

  function AliveOne(p: Phase): nat { if p == Gone then 0 else 1 }

  function BusyOne(p: Phase): nat { if p.Executing? || p == Returned then 1 else 0 }

  lemma {:induction false} TotalUpdate(ws: seq<Phase>, f: Phase -> nat, w: nat, p: Phase)
    requires w < |ws|
    ensures Total(ws[w := p], f) + f(ws[w]) == Total(ws, f) + f(p)
  {
    var ws', n := ws[w := p], |ws| - 1;
    if w == n {
      assert ws'[..n] == ws[..n];
    } else {
      assert ws'[..n] == ws[..n][w := p];
      TotalUpdate(ws[..n], f, w, p);
    }
  }

  lemma TotalPush(ws: seq<Phase>, f: Phase -> nat, p: Phase)
    ensures Total(ws + [p], f) == Total(ws, f) + f(p)
  {
    assert (ws + [p])[..|ws|] == ws;
  }

  lemma {:induction false} TotalNotified(ws: seq<Phase>, f: Phase -> nat)
    requires f(Parked) == f(Woken(false))
    ensures Total(NotifyAll(ws), f) == Total(ws, f)
  {
    if ws != [] {
      var n := |ws| - 1;
      assert NotifyAll(ws)[..n] == NotifyAll(ws[..n]);
      TotalNotified(ws[..n], f);
    }
  }

  lemma {:induction false} TotalSame(ws: seq<Phase>, f: Phase -> nat, each: nat)
    requires forall i | 0 <= i < |ws| :: f(ws[i]) == each
    requires each <= 1
    ensures Total(ws, f) == if each == 0 then 0 else |ws|
  {
    if ws != [] {
      TotalSame(ws[..|ws| - 1], f, each);
    }
  }

  lemma {:induction false} BusyIsAlive(ws: seq<Phase>)
    ensures Total(ws, BusyOne) <= Total(ws, AliveOne)
  {
    if ws != [] {
      BusyIsAlive(ws[..|ws| - 1]);
    }
  }

  lemma {:induction false} NoneAlive(ws: seq<Phase>)
    ensures AllGone(ws) <==> Total(ws, AliveOne) == 0
  {
    if ws != [] {
      var n := |ws| - 1;
      NoneAlive(ws[..n]);
      assert AllGone(ws) <==> AllGone(ws[..n]) && ws[n] == Gone;
    }
  }

  /** Number of entries of threads_. */
  function Alive(s: State): nat { Total(s.workers, AliveOne) }

  /** Workers between line 138 and line 155. */
  function Busy(s: State): nat { Total(s.workers, BusyOne) }

  // ---------------------------------------------------------------- the mutex

  predicate Holds(p: Phase) {
    p == Looking || p == SawRunning || p.Back?
  }

  /** The mutex is held by exactly the workers that are inside it; whoever is about to park saw no task; and only
      cached pools time out. */
  ghost predicate Locked(c: Config, s: State) {
    && (forall w | 0 <= w < |s.workers| :: Holds(s.workers[w]) <==> s.holder == Some(w))
    && (s.holder != None ==> s.holder.value < |s.workers|)
    && (forall w | 0 <= w < |s.workers| :: s.workers[w] == SawRunning ==> s.queue == [])
    && (c.mode == Fixed ==> forall w | 0 <= w < |s.workers| :: s.workers[w] != Woken(true) && s.workers[w] != Back(true))
  }

  /** One worker moves; the mutex changes hands accordingly. */
  lemma LockedMove(c: Config, s: State, s': State, w: nat, p: Phase)
    requires Locked(c, s) && w < |s.workers| && s'.workers == s.workers[w := p]
    requires s'.holder == if Holds(p) == Holds(s.workers[w]) then s.holder else if Holds(p) then Some(w) else None
    requires Holds(p) ==> s.holder == None || Holds(s.workers[w])
    requires s'.queue == s.queue && (p == SawRunning ==> s.queue == [])
    requires c.mode == Fixed ==> p != Woken(true) && p != Back(true)
    ensures Locked(c, s')
  {
    hide Holds;
  }

  lemma LockedNotified(c: Config, s: State, s': State)
    requires Locked(c, s) && s'.workers == NotifyAll(s.workers) && s'.holder == s.holder && s'.queue == s.queue
    ensures Locked(c, s')
  {
  }

  lemma LockedTake(c: Config, s: State, w: nat)
    requires Locked(c, s) && w < |s.workers| && s.workers[w] == Looking && s.queue != []
    ensures Locked(c, Taken(s, w))
  {
    var t := s.(workers := if s.queue[1..] != [] then NotifyAll(s.workers) else s.workers);
    if s.queue[1..] != [] {
      LockedNotified(c, s, t);
    }
    assert t.workers[w] == Looking;
    LockedMove(c, t, t.(workers := t.workers[w := Executing(s.taken)], holder := None), w, Executing(s.taken));
  }

  lemma LockedSubmit(c: Config, s: State, task: Task, chosen: nat)
    requires Locked(c, s) && s.holder == None
    ensures Locked(c, Spawned(c, Enqueued(s, task, chosen)))
  {
    if chosen < |s.workers| && s.workers[chosen] == Parked {
      LockedMove(c, s, s.(workers := s.workers[chosen := Woken(false)]), chosen, Woken(false));
    }
  }

  /** The phases a worker passes through on its own account, Take apart. */
  predicate Follows(p: Phase, q: Phase, cached: bool) {
    match p
    case AtLock => q == Looking
    case Looking => q == SawRunning || q == Gone
    case SawRunning => q == Parked
    case Parked => q == Woken(false) || (q == Woken(true) && cached)
    case Woken(timedOut) => q == Back(timedOut) || (q == Woken(true) && !timedOut && cached)
    case Back(timedOut) => q == Looking || (q == Gone && timedOut && cached)
    case Executing(_) => q == Returned
    case Returned => q == AtLock
    case Gone => false
  }

  /** What any worker event but Take leaves alone, and what it does to the counters. */
  ghost predicate Moved(c: Config, s: State, s': State, w: nat) {
    && w < |s.workers| && |s'.workers| == |s.workers| && s'.workers == s.workers[w := s'.workers[w]]
    && var (p, q) := (s.workers[w], s'.workers[w]);
    && Follows(p, q, c.mode == Cached)
    && s'.holder == (if Holds(p) == Holds(q) then s.holder else if Holds(q) then Some(w) else None)
    && (Holds(q) ==> s.holder == None || Holds(p))
    && s'.queue == s.queue && s'.running == s.running && s'.taskSize == s.taskSize
    && s'.accepted == s.accepted && s'.taken == s.taken
    && s'.done == (if p.Executing? then s.done + {p.ticket} else s.done)
    && s'.current == (if p.Back? && q == Gone then s.current - 1 else s.current)
    && s'.idle == (if p == Returned then s.idle + 1 else if p.Back? && q == Gone then s.idle - 1 else s.idle)
    && s'.closing == (if p == Looking && q == Gone then AfterExit(s.closing) else s.closing)
    && (p == Looking ==> s.queue == [] && (q == Gone <==> !s.running))
    && (p.Back? && q == Gone ==> s.current > c.init)
  }

  lemma WorkerMoves(c: Config, s: State, e: Event)
    requires OfWorker(e) && !e.Take? && Step(c, s, e).Some?
    ensures Moved(c, s, Step(c, s, e).value, e.w)
  {
  }

  /** When a task is accepted and what that does: it joins the queue at the end, exactly one parked worker is woken if
      there is one, and a worker joins if a cached pool has more tasks than idle workers and is not full. */
  lemma SubmitMeans(c: Config, s: State, task: Task, chosen: nat)
    ensures Step(c, s, Submit(task, chosen)).Some? <==>
              && s.running && s.holder == None && |s.queue| < c.limit
              && ((exists i | 0 <= i < |s.workers| :: s.workers[i] == Parked) ==> chosen < |s.workers| && s.workers[chosen] == Parked)
    ensures Step(c, s, Submit(task, chosen)).Some? ==>
              var s' := Step(c, s, Submit(task, chosen)).value;
              var joins := if c.mode == Cached && s.taskSize + 1 > s.idle && s.current < c.max then 1 else 0;
              && s'.queue == s.queue + [task] && s'.accepted == s.accepted + [task] && s'.taskSize == s.taskSize + 1
              && s'.current == s.current + joins && s'.idle == s.idle + joins && |s'.workers| == |s.workers| + joins
              && (forall i | 0 <= i < |s.workers| ::
                    s'.workers[i] == if i == chosen && s.workers[i] == Parked then Woken(false) else s.workers[i])
              && (joins == 1 ==> s'.workers[|s.workers|] == AtLock)
              && (s'.holder, s'.running, s'.closing, s'.taken, s'.done) == (s.holder, s.running, s.closing, s.taken, s.done)
  {
  }

  /** When a task is taken and what that does: the front one goes to the worker, which gives the mutex up and is idle no
      more, and every parked worker is woken if tasks remain, none otherwise. */
  lemma TakeMeans(c: Config, s: State, w: nat)
    ensures Step(c, s, Take(w)).Some? <==> w < |s.workers| && s.workers[w] == Looking && s.queue != []
    ensures Step(c, s, Take(w)).Some? ==>
              var s' := Step(c, s, Take(w)).value;
              && s.queue == [s.queue[0]] + s'.queue && s'.taken == s.taken + 1 && s'.taskSize == s.taskSize - 1
              && s'.idle == s.idle - 1 && s'.current == s.current && s'.holder == None && |s'.workers| == |s.workers|
              && s'.workers[w] == Executing(s.taken)
              && (forall i | 0 <= i < |s.workers| && i != w ::
                    s'.workers[i] == if s.workers[i] == Parked && |s.queue| > 1 then Woken(false) else s.workers[i])
              && (s'.running, s'.closing, s'.accepted, s'.done) == (s.running, s.closing, s.accepted, s.done)
  {
    if Step(c, s, Take(w)).Some? {
      assert s.queue == [s.queue[0]] + s.queue[1..];
    }
  }

  /** The destructor: it stops the pool, then under the mutex wakes every parked worker and looks at threads_, and looks
      again each time it is woken; it is through exactly when threads_ is empty. */
  lemma ClosingMeans(c: Config, s: State)
    ensures Step(c, s, Clear) == if s.closing == Open then Some(s.(running := false, closing := Cleared)) else None
    ensures Step(c, s, Lock).Some? <==> s.closing == Cleared && s.holder == None
    ensures Step(c, s, Check).Some? <==> s.closing == Alerted && s.holder == None
    ensures Step(c, s, Lock).Some? ==>
              var s' := Step(c, s, Lock).value;
              && s' == s.(workers := s'.workers, closing := s'.closing) && |s'.workers| == |s.workers|
              && (forall i | 0 <= i < |s.workers| :: s'.workers[i] == if s.workers[i] == Parked then Woken(false) else s.workers[i])
              && s'.closing == if forall i | 0 <= i < |s.workers| :: s.workers[i] == Gone then Closed else Waiting
    ensures Step(c, s, Check).Some? ==>
              Step(c, s, Check).value == s.(closing := if forall i | 0 <= i < |s.workers| :: s.workers[i] == Gone then Closed else Waiting)
  {
    var ws := NotifyAll(s.workers);
    if AllGone(s.workers) {
      assert AllGone(ws);
    }
    if AllGone(ws) {
      forall i | 0 <= i < |s.workers|
        ensures s.workers[i] == Gone
      {
        assert ws[i] == Gone;
      }
    }
  }

  predicate Quiet(e: Event) {
    e.Refuse? || e.Clear? || e.Stir? || e.Check?
  }

  /** What the other events leave alone. */
  lemma QuietStep(c: Config, s: State, e: Event)
    requires Quiet(e) && Step(c, s, e).Some?
    ensures var s' := Step(c, s, e).value;
            s' == s.(running := s'.running, closing := s'.closing)
  {
    hide AllGone;
  }

  lemma LockedStep(c: Config, s: State, e: Event)
    requires Locked(c, s) && Step(c, s, e).Some?
    ensures Locked(c, Step(c, s, e).value)
  {
    var s' := Step(c, s, e).value;
    if OfWorker(e) && !e.Take? {
      WorkerMoves(c, s, e);
      hide Step, Locked;
      LockedMove(c, s, s', e.w, s'.workers[e.w]);
    } else if Quiet(e) {
      QuietStep(c, s, e);
      hide Step, Holds;
    } else {
      hide Locked, Taken, Spawned, Enqueued, AllGone;
      match e
      case Submit(task, chosen) => LockedSubmit(c, s, task, chosen);
      case Lock => LockedNotified(c, s, s');
      case Take(w) => LockedTake(c, s, w);
    }
  }

  // ---------------------------------------------------------------- the counters

  /** current_thread_size_ counts the workers alive, plus those that left by line 111 without counting themselves out;
      idle_thread_size_ is that number less the workers executing; task_size_ is the queue's length. */
  ghost predicate Counted(c: Config, s: State) {
    && s.idle == s.current - Busy(s)
    && Alive(s) <= s.current && c.init <= s.current <= c.max
    && s.taskSize == |s.queue| <= c.limit
    && (s.running <==> s.closing == Open)
    && (Alive(s) < s.current ==> !s.running && s.queue == [])
  }

  lemma CountedMove(c: Config, s: State, s': State, w: nat)
    requires Counted(c, s) && Moved(c, s, s', w)
    ensures Counted(c, s')
  {
    TotalUpdate(s.workers, AliveOne, w, s'.workers[w]);
    TotalUpdate(s.workers, BusyOne, w, s'.workers[w]);
    hide Holds, Total;
  }

  lemma CountedTake(c: Config, s: State, w: nat)
    requires Counted(c, s) && w < |s.workers| && s.workers[w] == Looking && s.queue != []
    ensures Counted(c, Taken(s, w))
  {
    var ws := if s.queue[1..] != [] then NotifyAll(s.workers) else s.workers;
    TotalNotified(s.workers, AliveOne);
    TotalNotified(s.workers, BusyOne);
    TotalUpdate(ws, AliveOne, w, Executing(s.taken));
    TotalUpdate(ws, BusyOne, w, Executing(s.taken));
    hide Total;
  }

  lemma CountedSubmit(c: Config, s: State, task: Task, chosen: nat)
    requires Counted(c, s) && s.running && |s.queue| < c.limit
    ensures Counted(c, Spawned(c, Enqueued(s, task, chosen)))
  {
    var t := Enqueued(s, task, chosen);
    if chosen < |s.workers| && s.workers[chosen] == Parked {
      TotalUpdate(s.workers, AliveOne, chosen, Woken(false));
      TotalUpdate(s.workers, BusyOne, chosen, Woken(false));
    }
    TotalPush(t.workers, AliveOne, AtLock);
    TotalPush(t.workers, BusyOne, AtLock);
    hide Total;
  }

  lemma CountedLock(c: Config, s: State)
    requires Counted(c, s) && s.closing == Cleared
    ensures Counted(c, Recheck(s.(workers := NotifyAll(s.workers))))
  {
    TotalNotified(s.workers, AliveOne);
    TotalNotified(s.workers, BusyOne);
    hide Total, AllGone, NotifyAll;
  }

  lemma CountedQuiet(c: Config, s: State, e: Event)
    requires Counted(c, s) && Quiet(e) && Step(c, s, e).Some?
    ensures Counted(c, Step(c, s, e).value)
  {
    hide Total, AllGone;
  }

  lemma CountedStep(c: Config, s: State, e: Event)
    requires Counted(c, s) && Step(c, s, e).Some?
    ensures Counted(c, Step(c, s, e).value)
  {
    hide Counted;
    if OfWorker(e) && !e.Take? {
      WorkerMoves(c, s, e);
      hide Step, Moved;
      CountedMove(c, s, Step(c, s, e).value, e.w);
    } else if Quiet(e) {
      hide Step;
      CountedQuiet(c, s, e);
    } else {
      hide Recheck, Taken, Spawned, Enqueued;
      match e
      case Submit(task, chosen) => CountedSubmit(c, s, task, chosen);
      case Lock => CountedLock(c, s);
      case Take(w) => CountedTake(c, s, w);
    }
  }

  // ---------------------------------------------------------------- tasks

  predicate Held(ws: seq<Phase>, t: nat) {
    exists w | 0 <= w < |ws| :: ws[w] == Executing(t)
  }

  /** Tasks leave the queue in the order they came, and every one that left is being executed by one worker or done. */
  ghost predicate Ticketed(s: State) {
    && s.taken <= |s.accepted| && s.queue == s.accepted[s.taken..]
    && (forall w | 0 <= w < |s.workers| && s.workers[w].Executing? :: s.workers[w].ticket < s.taken && s.workers[w].ticket !in s.done)
    && (forall v, w | 0 <= v < w < |s.workers| && s.workers[v].Executing? :: s.workers[v] != s.workers[w])
    && (forall t | t in s.done :: t < s.taken)
    && (forall t | 0 <= t < s.taken :: t in s.done || Held(s.workers, t))
  }

  /** Workers that execute keep doing so. */
  ghost predicate SameExecuting(ws: seq<Phase>, ws': seq<Phase>) {
    && |ws| <= |ws'|
    && (forall i | 0 <= i < |ws| :: ws[i].Executing? || ws'[i].Executing? ==> ws'[i] == ws[i])
    && (forall i | |ws| <= i < |ws'| :: !ws'[i].Executing?)
  }

  lemma HeldStays(ws: seq<Phase>, ws': seq<Phase>, t: nat)
    requires SameExecuting(ws, ws') && Held(ws, t)
    ensures Held(ws', t)
  {
    var w :| 0 <= w < |ws| && ws[w] == Executing(t);
    assert ws'[w] == Executing(t);
  }

  lemma TicketedSame(s: State, s': State)
    requires Ticketed(s) && SameExecuting(s.workers, s'.workers)
    requires s'.taken == s.taken && s'.done == s.done && s.accepted <= s'.accepted && s'.queue == s'.accepted[s.taken..]
    ensures Ticketed(s')
  {
    forall t | 0 <= t < s.taken
      ensures t in s.done || Held(s'.workers, t)
    {
      if t !in s.done {
        HeldStays(s.workers, s'.workers, t);
      }
    }
  }

  lemma TicketedFinish(s: State, s': State, w: nat, t: nat)
    requires Ticketed(s) && w < |s.workers| && s.workers[w] == Executing(t) && s'.workers == s.workers[w := Returned]
    requires s'.done == s.done + {t} && s'.taken == s.taken && s'.accepted == s.accepted && s'.queue == s.queue
    ensures Ticketed(s')
  {
    forall u | 0 <= u < s.taken
      ensures u in s'.done || Held(s'.workers, u)
    {
      if u !in s'.done {
        var v :| 0 <= v < |s.workers| && s.workers[v] == Executing(u);
        assert s'.workers[v] == Executing(u);
      }
    }
  }

  lemma TicketedTake(s: State, w: nat)
    requires Ticketed(s) && w < |s.workers| && s.workers[w] == Looking && s.queue != []
    ensures Ticketed(Taken(s, w))
  {
    var s' := Taken(s, w);
    assert s'.queue == s.accepted[s.taken + 1..];
    forall u | 0 <= u < s'.taken
      ensures u in s'.done || Held(s'.workers, u)
    {
      if u == s.taken {
        assert s'.workers[w] == Executing(u);
      } else if u !in s.done {
        var v :| 0 <= v < |s.workers| && s.workers[v] == Executing(u);
        assert s'.workers[v] == Executing(u);
      }
    }
  }

  lemma TicketedSubmit(c: Config, s: State, task: Task, chosen: nat)
    requires Ticketed(s)
    ensures Ticketed(Spawned(c, Enqueued(s, task, chosen)))
  {
    var s' := Spawned(c, Enqueued(s, task, chosen));
    hide Ticketed, Held;
    assert SameExecuting(s.workers, s'.workers);
    assert s.taken <= |s.accepted| && s.queue == s.accepted[s.taken..] by { TicketedQueue(s); }
    assert s'.queue == s'.accepted[s.taken..];
    TicketedSame(s, s');
  }

  lemma TicketedQueue(s: State)
    requires Ticketed(s)
    ensures s.taken <= |s.accepted| && s.queue == s.accepted[s.taken..]
  {
  }

  lemma TicketedMove(c: Config, s: State, s': State, w: nat)
    requires Ticketed(s) && Moved(c, s, s', w)
    ensures Ticketed(s')
  {
    hide Ticketed, Held, Holds;
    if s.workers[w].Executing? {
      TicketedFinish(s, s', w, s.workers[w].ticket);
    } else {
      assert SameExecuting(s.workers, s'.workers);
      TicketedQueue(s);
      TicketedSame(s, s');
    }
  }

  lemma TicketedStep(c: Config, s: State, e: Event)
    requires Ticketed(s) && Step(c, s, e).Some?
    ensures Ticketed(Step(c, s, e).value)
  {
    hide Ticketed, Held;
    var s' := Step(c, s, e).value;
    TicketedQueue(s);
    if OfWorker(e) && !e.Take? {
      WorkerMoves(c, s, e);
      hide Step, Moved;
      TicketedMove(c, s, s', e.w);
    } else if Quiet(e) {
      QuietStep(c, s, e);
      hide Step;
      TicketedSame(s, s');
    } else {
      hide Taken, Spawned, Enqueued, AllGone;
      match e
      case Submit(task, chosen) => TicketedSubmit(c, s, task, chosen);
      case Take(w) => TicketedTake(s, w);
      case Lock => TicketedSame(s, s');
    }
  }
}
