/** The thread pool as a state machine.  Every step is what one thread does between two points where another could
    come in: taking or releasing the mutex, parking on a condition variable, being woken, or touching an atomic
    outside the mutex. */
module ThreadPoolSteps {
  import opened Options

  datatype Mode = Fixed | Cached

  /** The settings of a started pool; `init` is already cut down to `max` by Start. */
  datatype Config = Config(mode: Mode, init: nat, max: nat, limit: nat)

  type Task = nat

  /** Where a worker stands in ThreadFunc. */
  datatype Phase =
    | AtLock                      // line 105, waiting for the mutex
    | Looking                     // line 106, holds the mutex
    | SawRunning                  // past line 108, holds the mutex, about to wait
    | Parked                      // waits on not_empty_
    | Woken(timedOut: bool)       // woken, waiting for the mutex; whether the wait will report a timeout
    | Back(timedOut: bool)        // lines 117-132, holds the mutex again
    | Executing(ticket: nat)      // line 153; the ticket is the task's place in the order of acceptance
    | Returned                    // before line 155
    | Gone                        // erased from threads_

  /** Where the destructor stands. */
  datatype Closing =
    | Open
    | Cleared                     // is_running_ is false, the mutex not taken yet
    | Waiting                     // waits on exit_cond_
    | Alerted                     // woken, waiting for the mutex
    | Closed                      // past line 49

  /** Workers are listed by thread id.  `accepted`, `taken` and `done` are history: the tasks in order of acceptance,
      how many were dequeued, and the tickets of those that finished. */
  datatype State = State(workers: seq<Phase>, holder: Option<nat>, queue: seq<Task>, running: bool,
                         current: int, idle: int, taskSize: int, closing: Closing,
                         accepted: seq<Task>, taken: nat, done: set<nat>)

  datatype Event =
    | Acquire(w: nat)
    | Look(w: nat)
    | Park(w: nat)
    | Spurious(w: nat)
    | Timeout(w: nat)
    | Late(w: nat)                // a notified wait_for that finds its deadline passed reports a timeout
    | Resume(w: nat)
    | Retire(w: nat)
    | Take(w: nat)
    | Finish(w: nat)
    | Rest(w: nat)
    | Exit(w: nat)
    | Submit(task: Task, chosen: nat)
    | Refuse(task: Task)
    | Clear
    | Lock
    | Stir
    | Check

  function Started(c: Config): State {
    State(seq(c.init, i => AtLock), None, [], true, c.init, c.init, 0, Open, [], 0, {})
  }

  function Min(a: nat, b: nat): nat {
    if a < b then a else b
  }

  function Configured(mode: Mode, requested: nat, max: nat, limit: nat): (c: Config)
    ensures c.init <= c.max
  {
    Config(mode, Min(requested, max), max, limit)
  }

  predicate SomeParked(ws: seq<Phase>) {
    exists i | 0 <= i < |ws| :: ws[i] == Parked
  }

  /** notify_all on not_empty_. */
  function NotifyAll(ws: seq<Phase>): (r: seq<Phase>)
    ensures |r| == |ws| && !SomeParked(r)
    ensures forall i | 0 <= i < |ws| :: if ws[i] == Parked then r[i] == Woken(false) else r[i] == ws[i]
  {
    seq(|ws|, i requires 0 <= i < |ws| => if ws[i] == Parked then Woken(false) else ws[i])
  }

  predicate AllGone(ws: seq<Phase>) {
    forall i | 0 <= i < |ws| :: ws[i] == Gone
  }

  /** notify_one picks any parked worker, and none if none is parked. */
  predicate MayChoose(ws: seq<Phase>, chosen: nat) {
    SomeParked(ws) ==> chosen < |ws| && ws[chosen] == Parked
  }

  function NotifyOne(ws: seq<Phase>, chosen: nat): (r: seq<Phase>)
    ensures |r| == |ws|
  {
    if chosen < |ws| && ws[chosen] == Parked then ws[chosen := Woken(false)] else ws
  }

  predicate Spawns(c: Config, s: State) {
    c.mode == Cached && s.taskSize > s.idle && s.current < c.max
  }

  /** Lines 99-110 of the header, the queue already grown. */
  function Spawned(c: Config, s: State): State {
    if Spawns(c, s) then s.(workers := s.workers + [AtLock], current := s.current + 1, idle := s.idle + 1) else s
  }

  /** Lines 93-97 of the header. */
  function Enqueued(s: State, task: Task, chosen: nat): State {
    s.(queue := s.queue + [task], taskSize := s.taskSize + 1, accepted := s.accepted + [task],
       workers := NotifyOne(s.workers, chosen))
  }

  /** Lines 138-148. */
  function Taken(s: State, w: nat): State
    requires w < |s.workers| && s.queue != []
  {
    var rest := s.queue[1..];
    s.(idle := s.idle - 1, queue := rest, taskSize := s.taskSize - 1, taken := s.taken + 1, holder := None,
       workers := (if rest != [] then NotifyAll(s.workers) else s.workers)[w := Executing(s.taken)])
  }

  function AfterExit(c: Closing): Closing {
    if c == Waiting then Alerted else c
  }

  function Move(s: State, w: nat, p: Phase): State
    requires w < |s.workers|
  {
    s.(workers := s.workers[w := p])
  }

  function WorkerStep(c: Config, s: State, e: Event, w: nat): Option<State>
    requires w < |s.workers|
  {
    var p := s.workers[w];
    match e
    case Acquire(_) =>
      if s.holder != None then None
      else if p == AtLock then Some(Move(s, w, Looking).(holder := Some(w)))
      else if p.Woken? then Some(Move(s, w, Back(p.timedOut)).(holder := Some(w)))
      else None
    case Look(_) => if p == Looking && s.queue == [] && s.running then Some(Move(s, w, SawRunning)) else None
    case Park(_) => if p == SawRunning then Some(Move(s, w, Parked).(holder := None)) else None
    case Spurious(_) => if p == Parked then Some(Move(s, w, Woken(false))) else None
    case Timeout(_) => if p == Parked && c.mode == Cached then Some(Move(s, w, Woken(true))) else None
    case Late(_) => if p == Woken(false) && c.mode == Cached then Some(Move(s, w, Woken(true))) else None
    case Resume(_) => if p.Back? then Some(Move(s, w, Looking)) else None
    case Retire(_) =>
      if p == Back(true) && c.mode == Cached && s.current > c.init
      then Some(Move(s, w, Gone).(holder := None, current := s.current - 1, idle := s.idle - 1)) else None
    case Take(_) => if p == Looking && s.queue != [] then Some(Taken(s, w)) else None
    case Finish(_) => if p.Executing? then Some(Move(s, w, Returned).(done := s.done + {p.ticket})) else None
    case Rest(_) => if p == Returned then Some(Move(s, w, AtLock).(idle := s.idle + 1)) else None
    case Exit(_) =>
      if p == Looking && s.queue == [] && !s.running
      then Some(Move(s, w, Gone).(holder := None, closing := AfterExit(s.closing))) else None
    case _ => None
  }

  function Recheck(s: State): State {
    s.(closing := if AllGone(s.workers) then Closed else Waiting)
  }

  predicate OfWorker(e: Event) {
    !(e.Submit? || e.Refuse? || e.Clear? || e.Lock? || e.Stir? || e.Check?)
  }

  /** What an event does, or None where it cannot happen. */
  function Step(c: Config, s: State, e: Event): Option<State> {
    match e
    case Submit(task, chosen) =>
      if s.running && s.holder == None && |s.queue| < c.limit && MayChoose(s.workers, chosen)
      then Some(Spawned(c, Enqueued(s, task, chosen))) else None
    case Refuse(_) => if !s.running || (s.holder == None && |s.queue| >= c.limit) then Some(s) else None
    case Clear => if s.closing == Open then Some(s.(running := false, closing := Cleared)) else None
    case Lock =>
      if s.closing == Cleared && s.holder == None then Some(Recheck(s.(workers := NotifyAll(s.workers)))) else None
    case Stir => if s.closing == Waiting then Some(s.(closing := Alerted)) else None
    case Check => if s.closing == Alerted && s.holder == None then Some(Recheck(s)) else None
    case _ => if e.w < |s.workers| then WorkerStep(c, s, e, e.w) else None
  }

  /** A whole run. */
  function Run(c: Config, s: State, es: seq<Event>): Option<State>
    decreases |es|
  {
    if es == [] then Some(s)
    else
      var r := Step(c, s, es[0]);
      if r.None? then None else Run(c, r.value, es[1..])
  }
}
