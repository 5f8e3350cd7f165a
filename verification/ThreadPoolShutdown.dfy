/** The destructor: once it is past notify_all, nobody sleeps again, the work left shrinks at every worker step, and it
    finishes with every accepted task done. */
module ThreadPoolShutdown {
  import opened Options
  import opened ThreadPoolSteps
  import opened ThreadPoolSafety
  import opened ThreadPoolWork

  predicate Notified(s: State) {
    s.closing == Waiting || s.closing == Alerted || s.closing == Closed
  }

  /** After notify_all nobody sleeps or is about to; a destructor that returned left no worker behind. */
  ghost predicate NoSleep(s: State) {
    && (Notified(s) ==> forall w | 0 <= w < |s.workers| :: s.workers[w] != Parked && s.workers[w] != SawRunning)
    && (s.closing == Closed ==> AllGone(s.workers))
  }

  lemma NoSleepMove(c: Config, s: State, s': State, w: nat)
    requires Counted(c, s) && NoSleep(s) && Moved(c, s, s', w)
    ensures NoSleep(s')
  {
    hide Total, Holds;
  }

  lemma NoSleepLock(c: Config, s: State)
    requires Locked(c, s) && s.holder == None
    ensures NoSleep(Recheck(s.(workers := NotifyAll(s.workers))))
  {
  }

  /** is_running_ is cleared without the mutex, yet a worker that saw it set is parked before notify_all. */
  lemma NoSleepStep(c: Config, s: State, e: Event)
    requires Locked(c, s) && Counted(c, s) && NoSleep(s) && Step(c, s, e).Some?
    ensures NoSleep(Step(c, s, e).value)
  {
    if OfWorker(e) && !e.Take? {
      WorkerMoves(c, s, e);
      hide Step, Moved, Locked, Counted, NoSleep;
      NoSleepMove(c, s, Step(c, s, e).value, e.w);
    } else {
      hide Locked, Total;
      match e
      case Lock => NoSleepLock(c, s);
      case _ =>
    }
  }

  /** Everything a reachable state satisfies, in either mode. */
  ghost predicate Inv(c: Config, s: State) {
    Locked(c, s) && Counted(c, s) && Ticketed(s) && NoSleep(s)
  }

  lemma InvStarts(c: Config)
    requires c.init <= c.max
    ensures Inv(c, Started(c)) && Conserved(Started(c)) && Heard(Started(c))
  {
    var s := Started(c);
    TotalSame(s.workers, AliveOne, 1);
    TotalSame(s.workers, BusyOne, 0);
  }

  lemma InvStep(c: Config, s: State, e: Event)
    requires Inv(c, s) && Step(c, s, e).Some?
    ensures Inv(c, Step(c, s, e).value)
  {
    hide Step, Locked, Counted, Ticketed, NoSleep;
    LockedStep(c, s, e);
    CountedStep(c, s, e);
    TicketedStep(c, s, e);
    NoSleepStep(c, s, e);
  }

  // ---------------------------------------------------------------- the destructor is told

  /** The destructor does not wait for workers that no longer exist. */
  ghost predicate Heard(s: State) {
    s.closing == Waiting ==> !AllGone(s.workers)
  }

  /** The only step after which the destructor waits for nobody: the last worker alive retires as idle, which signals
      not even exit_cond_. */
  ghost predicate LeavesUnheard(s: State, e: Event) {
    e.Retire? && s.closing == Waiting && forall i | 0 <= i < |s.workers| && i != e.w :: s.workers[i] == Gone
  }

  lemma LastGoes(ws: seq<Phase>, w: nat)
    requires w < |ws|
    ensures AllGone(ws[w := Gone]) <==> forall i | 0 <= i < |ws| && i != w :: ws[i] == Gone
  {
    var ws' := ws[w := Gone];
    if AllGone(ws') {
      forall i | 0 <= i < |ws| && i != w
        ensures ws[i] == Gone
      {
        assert ws'[i] == Gone;
      }
    }
  }

  lemma HeardMove(c: Config, s: State, s': State, w: nat)
    requires Heard(s) && Moved(c, s, s', w)
    ensures Heard(s') <==> !(s.workers[w].Back? && s'.workers[w] == Gone && s.closing == Waiting
                             && forall i | 0 <= i < |s.workers| && i != w :: s.workers[i] == Gone)
  {
    LastGoes(s.workers, w);
    hide Holds;
    if s'.workers[w] != Gone {
      assert !AllGone(s'.workers);
    }
  }

  lemma HeardStep(c: Config, s: State, e: Event)
    requires Inv(c, s) && Heard(s) && Step(c, s, e).Some?
    ensures Heard(Step(c, s, e).value) <==> !LeavesUnheard(s, e)
  {
    var s' := Step(c, s, e).value;
    if OfWorker(e) && !e.Take? {
      WorkerMoves(c, s, e);
      RetireIs(c, s, e);
      hide Step, Inv, Moved, Heard;
      HeardMove(c, s, s', e.w);
    } else {
      hide Locked, Counted, Ticketed;
      match e
      case Take(w) => assert s'.workers[w] != Gone;
      case _ =>
    }
  }

  // ---------------------------------------------------------------- the work left shrinks

  function Weight(p: Phase): nat {
    match p
    case Looking => 1
    case SawRunning => 1
    case Parked => 1
    case AtLock => 2
    case Back(_) => 3
    case Returned => 3
    case Executing(_) => 4
    case Woken(timedOut) => if timedOut then 4 else 5
    case Gone => 0
  }

  function WorkLeft(s: State): nat {
    Total(s.workers, Weight) + 4 * |s.queue|
  }

  lemma WorkMove(c: Config, s: State, s': State, w: nat)
    requires Moved(c, s, s', w) && s.workers[w] != Parked && s.workers[w] != SawRunning && s'.workers[w] != SawRunning
    ensures WorkLeft(s') < WorkLeft(s)
  {
    TotalUpdate(s.workers, Weight, w, s'.workers[w]);
    hide Total, Holds;
  }

  lemma WorkTake(s: State, w: nat)
    requires w < |s.workers| && s.workers[w] == Looking && s.queue != []
    requires forall i | 0 <= i < |s.workers| :: s.workers[i] != Parked
    ensures WorkLeft(Taken(s, w)) < WorkLeft(s)
  {
    assert NotifyAll(s.workers) == s.workers;
    TotalUpdate(s.workers, Weight, w, Executing(s.taken));
    hide Total;
  }

  /** After notify_all every worker step takes some of the work left, and nothing adds to it. */
  lemma WorkShrinks(c: Config, s: State, e: Event)
    requires Inv(c, s) && Notified(s) && Step(c, s, e).Some?
    ensures Notified(Step(c, s, e).value)
    ensures if OfWorker(e) then WorkLeft(Step(c, s, e).value) < WorkLeft(s) else WorkLeft(Step(c, s, e).value) == WorkLeft(s)
  {
    var s' := Step(c, s, e).value;
    assert !s.running;
    if OfWorker(e) && !e.Take? {
      InvStep(c, s, e);
      WorkerMoves(c, s, e);
      hide Step, Locked, Counted, Ticketed, WorkLeft, Weight, Holds;
      WorkMove(c, s, s', e.w);
    } else if e.Take? {
      hide Locked, Ticketed, Total, Weight, Counted, WorkLeft;
      WorkTake(s, e.w);
    } else {
      hide Inv;
      WorkQuiet(c, s, e);
    }
  }

  lemma WorkQuiet(c: Config, s: State, e: Event)
    requires !s.running && Notified(s) && !OfWorker(e) && Step(c, s, e).Some?
    ensures Notified(Step(c, s, e).value) && WorkLeft(Step(c, s, e).value) == WorkLeft(s)
  {
    QuietStep(c, s, e);
    hide Total, Weight, AllGone;
  }

  function WorkerSteps(es: seq<Event>): nat {
    if es == [] then 0 else (if OfWorker(es[0]) then 1 else 0) + WorkerSteps(es[1..])
  }

  /** So no run after notify_all has more worker steps than the work left when it began. */
  lemma {:induction false} DrainBound(c: Config, s: State, es: seq<Event>)
    requires Inv(c, s) && Notified(s) && Run(c, s, es).Some?
    ensures Notified(Run(c, s, es).value) && WorkerSteps(es) + WorkLeft(Run(c, s, es).value) <= WorkLeft(s)
    decreases |es|
  {
    if es != [] {
      hide Step, Inv, WorkLeft;
      InvStep(c, s, es[0]);
      WorkShrinks(c, s, es[0]);
      DrainBound(c, Step(c, s, es[0]).value, es[1..]);
    }
  }

  /** As long as a worker lives, one can make a step: the drain never gets stuck. */
  lemma SomeoneCanStep(c: Config, s: State) returns (e: Event)
    requires Inv(c, s) && Notified(s) && !AllGone(s.workers)
    ensures OfWorker(e) && Step(c, s, e).Some?
  {
    hide Ticketed, Total;
    if s.holder != None {
      var w := s.holder.value;
      e := if s.workers[w].Back? then Resume(w) else if s.queue != [] then Take(w) else Exit(w);
    } else {
      var w :| 0 <= w < |s.workers| && s.workers[w] != Gone;
      var p := s.workers[w];
      assert !Holds(p);
      e := if p.Executing? then Finish(w) else if p == Returned then Rest(w) else Acquire(w);
    }
  }

  predicate AllDone(s: State) {
    forall t | 0 <= t < |s.accepted| :: t in s.done
  }

  /** threads_ is empty only when every accepted task has been executed. */
  lemma EmptyMeansDone(c: Config, s: State)
    requires Inv(c, s) && AllGone(s.workers) && c.init > 0
    ensures s.queue == [] && AllDone(s)
  {
    NoneAlive(s.workers);
    hide Total, Locked, NoSleep;
    assert s.queue == [];
    forall t | 0 <= t < |s.accepted|
      ensures t in s.done
    {
      assert !Held(s.workers, t);
    }
  }
}
