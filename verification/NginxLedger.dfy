/** The pool seen from outside: what it mallocs and frees, which list nodes it touches, which handlers it runs. */
module NginxLedger {
  import opened Options

  datatype Event =
    | Malloc(p: nat, len: nat)
    | Free(p: nat, len: nat)             // frees the region at p; nodes in its first len bytes die with it
    | Node(a: nat)                       // a LargeBlock or CleanupBlock is set up at a
    | Touch(a: nat)                      // a field of the node at a is read or written
    | Header(p: nat)                     // the block header at the start of the region at p is read
    | Run(handler: nat, data: nat)
    | Recycle                            // Reset hands all small memory out again: no node is left

  /** The regions held, with their lengths, and the list nodes inside them. */
  datatype Ledger = Ledger(held: map<nat, nat>, nodes: set<nat>)

  ghost predicate Covered(held: map<nat, nat>, a: nat) {
    exists p | p in held :: p <= a < p + held[p]
  }

  /** One event, or None for a double malloc, a bad free, a node outside the regions held, or a look at a header or
      node that is gone. */
  ghost function Step(l: Ledger, e: Event): Option<Ledger> {
    match e
    case Malloc(p, len) => if p == 0 || p in l.held then None else Some(l.(held := l.held[p := len]))
    case Free(p, len) =>
      if p !in l.held then None
      else Some(Ledger(l.held - {p}, set a | a in l.nodes && !(p <= a < p + len)))
    case Node(a) => if !Covered(l.held, a) then None else Some(l.(nodes := l.nodes + {a}))
    case Touch(a) => if a !in l.nodes then None else Some(l)
    case Header(p) => if p !in l.held then None else Some(l)
    case Run(_, _) => Some(l)
    case Recycle => Some(l.(nodes := {}))
  }

  ghost function Audit(log: seq<Event>): Option<Ledger> {
    if log == [] then Some(Ledger(map[], {}))
    else
      var r := Audit(log[..|log| - 1]);
      if r.None? then None else Step(r.value, log[|log| - 1])
  }

  lemma AuditNext(log: seq<Event>, e: Event)
    ensures Audit(log + [e]) == if Audit(log).None? then None else Step(Audit(log).value, e)
  {
    assert (log + [e])[..|log|] == log;
  }

  /** Handlers run so far, in order. */
  function Runs(log: seq<Event>): seq<(nat, nat)> {
    if log == [] then []
    else
      var e := log[|log| - 1];
      Runs(log[..|log| - 1]) + if e.Run? then [(e.handler, e.data)] else []
  }

  lemma RunsNext(log: seq<Event>, e: Event)
    ensures Runs(log + [e]) == Runs(log) + if e.Run? then [(e.handler, e.data)] else []
  {
    assert (log + [e])[..|log|] == log;
  }

  function Mallocs(log: seq<Event>, p: nat): nat {
    if log == [] then 0
    else
      var e := log[|log| - 1];
      Mallocs(log[..|log| - 1], p) + if e.Malloc? && e.p == p then 1 else 0
  }

  function Frees(log: seq<Event>, p: nat): nat {
    if log == [] then 0
    else
      var e := log[|log| - 1];
      Frees(log[..|log| - 1], p) + if e.Free? && e.p == p then 1 else 0
  }

  /** In an audited log the frees of an address never overtake its mallocs, lag by at most one, and lag exactly while
      the region is held. */
  lemma {:induction false} FreedOncePerMalloc(log: seq<Event>, p: nat)
    requires Audit(log).Some?
    ensures Mallocs(log, p) == Frees(log, p) + if p in Audit(log).value.held then 1 else 0
  {
    if log != [] {
      FreedOncePerMalloc(log[..|log| - 1], p);
    }
  }
}
