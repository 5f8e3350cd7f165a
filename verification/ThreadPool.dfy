/** The pool object: the fields the threads share and the sections of code that change them, each tied to a step of the
    state machine. */
module ThreadPool {
  import opened Options
  import opened ThreadPoolSteps
  import opened ThreadPoolSafety
  import opened ThreadPoolShutdown

  const QUEUE_MAX: nat := 1024
  const THREADS_MAX: nat := 300
  const IDLE_MAX: nat := 60          // seconds

  /** The keys of threads_. */
  ghost function AliveIds(ws: seq<Phase>): set<nat> {
    set w | 0 <= w < |ws| && ws[w] != Gone
  }

  lemma AliveIdsSame(ws: seq<Phase>, ws': seq<Phase>)
    requires |ws'| == |ws| && forall w | 0 <= w < |ws| :: ws'[w] == Gone <==> ws[w] == Gone
    ensures AliveIds(ws') == AliveIds(ws)
  {
  }

  lemma AliveIdsPush(ws: seq<Phase>)
    ensures AliveIds(ws + [AtLock]) == AliveIds(ws) + {|ws|}
  {
  }

  lemma NoneIsAllGone(ws: seq<Phase>)
    ensures AllGone(ws) <==> AliveIds(ws) == {}
  {
    if AliveIds(ws) == {} {
      forall w | 0 <= w < |ws|
        ensures ws[w] == Gone
      {
        assert w !in AliveIds(ws);
      }
    }
  }

  class Pool {
    var mode: Mode
    var initSize: nat
    var maxSize: nat
    var queueMax: nat
    var threads: set<nat>
    var currentSize: int
    var idleSize: int
    var taskSize: int
    var taskQue: seq<Task>
    var running: bool
    var nextId: nat                  // generate_thread_id_, shared by all pools of the process
    ghost var s: State

    ghost function Settings(): Config
      reads this
    {
      Config(mode, initSize, maxSize, queueMax)
    }

    /** Before Start. */
    ghost predicate Fresh()
      reads this
    {
      !running && threads == {} && currentSize == idleSize == taskSize == 0 && taskQue == []
    }

    /** From Start on, the shared fields are those of the state machine. */
    ghost predicate Valid()
      reads this
    {
      && initSize <= maxSize
      && threads == AliveIds(s.workers)
      && currentSize == s.current && idleSize == s.idle && taskSize == s.taskSize
      && taskQue == s.queue && running == s.running
      && nextId == |s.workers| && taskSize == |taskQue|
    }

    constructor (id: nat)
      ensures Fresh() && nextId == id && Settings() == Config(Fixed, 0, THREADS_MAX, QUEUE_MAX)
    {
      mode, initSize, maxSize, queueMax := Fixed, 0, THREADS_MAX, QUEUE_MAX;
      threads, currentSize, idleSize, taskSize, taskQue, running, nextId := {}, 0, 0, 0, [], false, id;
    }

    /** The setters do nothing once the pool runs. */
    method SetMode(m: Mode)
      modifies this`mode
      ensures mode == if running then old(mode) else m
    {
      if running {
        return;
      }
      mode := m;
    }

    method SetTaskQueMaxSize(size: nat)
      modifies this`queueMax
      ensures queueMax == if running then old(queueMax) else size
    {
      if running {
        return;
      }
      queueMax := size;
    }

    method SetThreadMaxSize(size: nat)
      modifies this`maxSize
      ensures maxSize == if running then old(maxSize) else size
    {
      if running {
        return;
      }
      maxSize := size;
    }

    /** The initial workers, all on their way to the mutex.  `ok` is false when line 92 looks up a thread id that was
        never given out and dereferences the null it finds: exactly when ids no longer start at 0. */
    method Start(size: nat) returns (ok: bool)
      requires Fresh()
      modifies this
      ensures Settings() == Configured(old(mode), size, old(maxSize), old(queueMax))
      ensures ok <==> old(nextId) == 0 || initSize == 0
      ensures old(nextId) == 0 ==> Valid() && s == Started(Settings())
      ensures running && nextId == old(nextId) + initSize && initSize == currentSize
      ensures initSize == (if size < maxSize then size else maxSize) && maxSize == old(maxSize)
      ensures mode == old(mode) && queueMax == old(queueMax)
      ensures forall w :: w in threads <==> old(nextId) <= w < nextId
      ensures ok ==> idleSize == initSize && taskSize == 0 && taskQue == []
      ensures old(nextId) == 0 ==> |s.workers| == initSize && forall w | 0 <= w < initSize :: s.workers[w] == AtLock
    {
      running := true;
      initSize := if size < maxSize then size else maxSize;
      currentSize := initSize;
      ghost var first := nextId;
      var i := 0;
      while i < initSize
        invariant 0 <= i <= initSize && nextId == first + i
        invariant forall w :: w in threads <==> first <= w < first + i
        modifies this`threads, this`nextId
      {
        threads := threads + {nextId};
        nextId := nextId + 1;
        i := i + 1;
      }
      i := 0;
      while i < initSize
        invariant 0 <= i <= initSize && idleSize == i && (i > 0 ==> first == 0)
        modifies this`idleSize
      {
        if i !in threads {
          return false;
        }
        idleSize := idleSize + 1;
        i := i + 1;
      }
      s := Started(Settings());
      ok := true;
    }

    /** SubmitTask from the moment it holds the mutex and its wait is over: `chosen` is whom notify_one picks. */
    method SubmitTask(task: Task, ghost chosen: nat) returns (accepted: bool)
      requires Valid() && s.holder == None && MayChoose(s.workers, chosen)
      modifies this
      ensures Valid() && Settings() == old(Settings())
      ensures accepted == old(running && |taskQue| < queueMax)
      ensures Step(Settings(), old(s), if accepted then Submit(task, chosen) else Refuse(task)) == Some(s)
      ensures taskQue == if accepted then old(taskQue) + [task] else old(taskQue)
      ensures if accepted && mode == Cached && old(|taskQue|) + 1 > old(idleSize) && old(currentSize) < maxSize
              then threads == old(threads) + {old(nextId)} && currentSize == old(currentSize) + 1
                   && idleSize == old(idleSize) + 1 && nextId == old(nextId) + 1
              else threads == old(threads) && currentSize == old(currentSize)
                   && idleSize == old(idleSize) && nextId == old(nextId)
      ensures taskSize == |taskQue| && running == old(running)
    {
      hide MayChoose, WorkerStep, AliveIds;
      if !running || |taskQue| >= queueMax {
        return false;
      }
      taskQue := taskQue + [task];
      taskSize := taskSize + 1;
      ghost var t := Enqueued(s, task, chosen);
      AliveIdsSame(s.workers, t.workers);
      if mode == Cached && taskSize > idleSize && currentSize < maxSize {
        AliveIdsPush(t.workers);
        threads := threads + {nextId};
        nextId := nextId + 1;
        currentSize := currentSize + 1;
        idleSize := idleSize + 1;
      }
      s := Spawned(Settings(), t);
      accepted := true;
    }

    /** Lines 106-148, from the look at the queue to the next point where the mutex is given up: a task is taken, or
        the thread ends, or it is about to wait.  `task` is what it took. */
    method LookForTask(w: nat) returns (task: Option<Task>, ghost e: Event)
      requires Valid() && w < |s.workers| && s.workers[w] == Looking
      modifies this
      ensures Valid() && Settings() == old(Settings())
      ensures e == if old(taskQue) != [] then Take(w) else if !old(running) then Exit(w) else Look(w)
      ensures Step(Settings(), old(s), e) == Some(s)
      ensures task == if old(taskQue) != [] then Some(old(taskQue)[0]) else None
      ensures taskQue == (if task.Some? then old(taskQue)[1..] else old(taskQue)) && taskSize == |taskQue|
      ensures idleSize == (if task.Some? then old(idleSize) - 1 else old(idleSize)) && currentSize == old(currentSize)
      ensures threads == if task.None? && !running then old(threads) - {w} else old(threads)
      ensures running == old(running) && nextId == old(nextId)
    {
      if taskQue == [] {
        task := None;
        if !running {
          e := Exit(w);
          assert AliveIds(s.workers[w := Gone]) == AliveIds(s.workers) - {w};
          threads := threads - {w};
        } else {
          e := Look(w);
          AliveIdsSame(s.workers, s.workers[w := SawRunning]);
        }
        s := Step(Settings(), s, e).value;
        return;
      }
      e := Take(w);
      AliveIdsSame(s.workers, Taken(s, w).workers);
      idleSize := idleSize - 1;
      task := Some(taskQue[0]);
      taskQue := taskQue[1..];
      taskSize := taskSize - 1;
      s := Taken(s, w);
    }

    /** Lines 117-132, after a wait: a cached pool may let the thread go once it has been idle for a minute. */
    method AfterWait(w: nat, timedOut: bool, idleSeconds: nat) returns (ends: bool)
      requires Valid() && w < |s.workers| && s.workers[w] == Back(timedOut) && (timedOut ==> mode == Cached)
      modifies this
      ensures Valid() && Settings() == old(Settings())
      ensures ends == old(timedOut && idleSeconds >= IDLE_MAX && currentSize > initSize)
      ensures Step(Settings(), old(s), if ends then Retire(w) else Resume(w)) == Some(s)
      ensures if ends then threads == old(threads) - {w} && currentSize == old(currentSize) - 1 && idleSize == old(idleSize) - 1
              else threads == old(threads) && currentSize == old(currentSize) && idleSize == old(idleSize)
      ensures taskQue == old(taskQue) && running == old(running) && nextId == old(nextId)
    {
      if timedOut {
        if idleSeconds >= IDLE_MAX && currentSize > initSize {
          assert AliveIds(s.workers[w := Gone]) == AliveIds(s.workers) - {w};
          threads := threads - {w};
          currentSize := currentSize - 1;
          idleSize := idleSize - 1;
          s := Step(Settings(), s, Retire(w)).value;
          return true;
        }
      }
      AliveIdsSame(s.workers, s.workers[w := Looking]);
      s := Step(Settings(), s, Resume(w)).value;
      ends := false;
    }

    /** Line 155. */
    method BackToIdle(w: nat)
      requires Valid() && w < |s.workers| && s.workers[w] == Returned
      modifies this`idleSize, this`s
      ensures Valid() && idleSize == old(idleSize) + 1 && Step(Settings(), old(s), Rest(w)) == Some(s)
    {
      AliveIdsSame(s.workers, s.workers[w := AtLock]);
      idleSize := idleSize + 1;
      s := Step(Settings(), s, Rest(w)).value;
    }

    /** The destructor's first line, outside the mutex. */
    method ClearRunning()
      requires Valid() && s.closing == Open
      modifies this`running, this`s
      ensures Valid() && !running && Step(Settings(), old(s), Clear) == Some(s)
    {
      running := false;
      s := Step(Settings(), s, Clear).value;
    }

    /** Its look at threads_, the first time right after notify_all. */
    method LookForThreads() returns (finished: bool)
      requires Valid() && s.holder == None && (s.closing == Cleared || s.closing == Alerted)
      modifies this`s
      ensures Valid() && finished == (threads == {})
      ensures Step(Settings(), old(s), if old(s).closing == Cleared then Lock else Check) == Some(s)
      ensures finished <==> s.closing == Closed
    {
      NoneIsAllGone(s.workers);
      NoneIsAllGone(NotifyAll(s.workers));
      AliveIdsSame(s.workers, NotifyAll(s.workers));
      s := Step(Settings(), s, if s.closing == Cleared then Lock else Check).value;
      finished := threads == {};
    }
  }

  /** Two pools of one process: the first starts, and the second faults as soon as it is to have a worker. */
  method SecondPool(size: nat) returns (first: bool, second: bool)
    requires size > 0
    ensures first && !second
  {
    var p := new Pool(0);
    first := p.Start(size);
    var q := new Pool(p.nextId);
    second := q.Start(size);
  }
}
