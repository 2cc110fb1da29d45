/** The whole pipeline: any number of handlers in progress over one store, interleaved step by step. */
module Machine {
  import opened Wrappers
  import opened Events
  import opened Store
  import opened Handlers

  /** `taken` holds the log positions of failure and DLQ messages that were delivered at least once. */
  datatype Machine = Machine(store: Store, taken: set<nat>, procs: seq<Proc>)

  const INITIAL := Machine(EMPTY_STORE, {}, [])

  /** A submission, the delivery of any message ever published (first or again), one micro step of a
      handler, the crash of a handler, or the expiry of a Redis key. */
  datatype Action =
    | Submission(request: SubmitRequest)
    | Delivery(at: nat, input: Input)
    | Progress(proc: nat)
    | Crash(proc: nat)
    | ExpireHold(url: Url)
    | ExpireReplays(event: EventId)

  function Started(procs: seq<Proc>, p: Proc): seq<Proc> {
    if p == Idle then procs else procs + [p]
  }

  function Apply(cfg: Config, m: Machine, a: Action): Machine {
    match a
    case Submission(r) =>
      var n := Submit(m.store, r);
      m.(store := n.store, procs := Started(m.procs, n.proc))
    case Delivery(i, input) =>
      if i >= |m.store.log| then m
      else
        var n := Deliver(m.store, m.store.log[i], input);
        Machine(n.store, if StageClaim(m.store.log[i]).None? then m.taken + {i} else m.taken,
                Started(m.procs, n.proc))
    case Progress(j) =>
      if j >= |m.procs| then m
      else
        var n := Advance(cfg, m.store, m.procs[j]);
        m.(store := n.store, procs := m.procs[j := n.proc])
    case Crash(j) =>
      if j >= |m.procs| then m else m.(procs := m.procs[j := Idle])
    case ExpireHold(u) =>
      m.(store := Release(m.store, u))
    case ExpireReplays(e) =>
      m.(store := m.store.(replays := m.store.replays - {e}))
  }

  function Run(cfg: Config, m: Machine, actions: seq<Action>): Machine {
    if actions == [] then m
    else Apply(cfg, Run(cfg, m, actions[..|actions| - 1]), actions[|actions| - 1])
  }
}
