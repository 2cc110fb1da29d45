/** The pipeline comes to rest: a state that is not drained can always go on, no run goes on for ever, and where a
    guarded run ends every row is settled. */
module Draining {
  import opened Wrappers
  import opened Events
  import opened Store
  import opened Handlers
  import opened Machine
  import opened Lineage
  import opened LineageSteps
  import opened Termination
  import opened NoSilentLoss

  /** A step of a handler, or the delivery of a message other than a dead letter, that is no redelivery of a failure. */
  predicate Works(m: Machine, a: Action) {
    || a.Progress?
    || (a.Delivery? && a.at < |m.store.log| && !m.store.log[a.at].OnDlq?
        && (m.store.log[a.at].OnFailed? ==> a.at !in m.taken))
  }

  /** No work changes anything any more. */
  ghost predicate AtRest(cfg: Config, m: Machine) {
    forall a :: Works(m, a) ==> Apply(cfg, m, a) == m
  }

  lemma WorkIsOrdinary(m: Machine, a: Action)
    requires Works(m, a)
    ensures Ordinary(m, a) && !a.Crash?
  {
  }

  // ---------------------------------------------------------------- at rest means drained

  lemma BusyMoves(cfg: Config, m: Machine, j: nat)
    requires cfg.maxAttempts >= 1 && Inv(cfg, m) && j < |m.procs| && m.procs[j] != Idle
    ensures Works(m, Progress(j)) && Apply(cfg, m, Progress(j)) != m
  {
    ProgressFalls(cfg, m, j);
  }

  const ANY_INPUT := Input(CrawlInput(true, FetchRaises(HttpStatus(500))), ParseRaises(HttpStatus(500)), CleanCommits)

  /** The message is waiting for its handler. */
  ghost predicate Waiting(m: Machine, i: nat) {
    && i < |m.store.log|
    && match StageClaim(m.store.log[i])
       case Some(c) => c !in m.store.ledger
       case None => m.store.log[i].OnFailed? && i !in m.taken
  }

  lemma WaitingMoves(cfg: Config, m: Machine, i: nat)
    requires Waiting(m, i)
    ensures Works(m, Delivery(i, ANY_INPUT)) && Apply(cfg, m, Delivery(i, ANY_INPUT)) != m
  {
    DeliveryFalls(cfg, m, i, ANY_INPUT);
  }

  lemma NothingWaits(m: Machine)
    ensures (forall j :: 0 <= j < |m.procs| ==> m.procs[j] == Idle) && (forall i: nat :: !Waiting(m, i)) ==> Drained(m)
  {
    assert forall i: nat :: i < |m.store.log| && !Waiting(m, i) ==>
      match StageClaim(m.store.log[i])
      case Some(c) => c in m.store.ledger
      case None => m.store.log[i].OnFailed? ==> i in m.taken;
  }

  /** A state that is not drained has a step to make: ordinary, without a crash, and it changes the state. */
  lemma UndrainedMoves(cfg: Config, m: Machine)
    requires cfg.maxAttempts >= 1 && Inv(cfg, m) && !Drained(m)
    ensures exists a :: Works(m, a) && Apply(cfg, m, a) != m
  {
    if j: nat :| j < |m.procs| && m.procs[j] != Idle {
      BusyMoves(cfg, m, j);
    } else {
      NothingWaits(m);
      var i: nat :| Waiting(m, i);
      WaitingMoves(cfg, m, i);
    }
  }

  lemma DrainedRests(cfg: Config, m: Machine, a: Action)
    requires Drained(m) && Works(m, a)
    ensures Apply(cfg, m, a) == m
  {
    if a.Progress? && a.proc < |m.procs| {
      IdleUnchanged(cfg, m, a.proc);
    }
  }

  /** Exactly the drained states are at rest. */
  lemma RestIffDrained(cfg: Config, m: Machine)
    requires cfg.maxAttempts >= 1 && Inv(cfg, m)
    ensures AtRest(cfg, m) <==> Drained(m)
  {
    if Drained(m) {
      forall a | Works(m, a)
        ensures Apply(cfg, m, a) == m
      {
        DrainedRests(cfg, m, a);
      }
    } else {
      UndrainedMoves(cfg, m);
    }
  }

  // ---------------------------------------------------------------- every run can be finished

  /** Every action of the run works and changes the state. */
  ghost predicate Working(cfg: Config, m: Machine, actions: seq<Action>) {
    actions != [] ==>
      var init, last := actions[..|actions| - 1], actions[|actions| - 1];
      && Working(cfg, m, init) && Works(Run(cfg, m, init), last)
      && Apply(cfg, Run(cfg, m, init), last) != Run(cfg, m, init)
  }

  lemma {:induction false} WorkingFalls(cfg: Config, m: Machine, actions: seq<Action>)
    requires cfg.maxAttempts >= 1 && Inv(cfg, m) && Working(cfg, m, actions)
    ensures |actions| + Measure(cfg, Run(cfg, m, actions)) <= Measure(cfg, m)
  {
    if actions != [] {
      var init, last := actions[..|actions| - 1], actions[|actions| - 1];
      WorkingFalls(cfg, m, init);
      RunInv(cfg, m, init);
      WorkIsOrdinary(Run(cfg, m, init), last);
      MeasureFalls(cfg, Run(cfg, m, init), last);
    }
  }

  lemma OneStepOn(cfg: Config, m: Machine, done: seq<Action>, a: Action)
    requires Working(cfg, m, done) && Works(Run(cfg, m, done), a)
    requires Apply(cfg, Run(cfg, m, done), a) != Run(cfg, m, done)
    ensures Working(cfg, m, done + [a])
  {
    assert (done + [a])[..|done|] == done;
  }

  lemma {:induction false} WorkDrainsFrom(cfg: Config, m: Machine, done: seq<Action>)
    requires cfg.maxAttempts >= 1 && Inv(cfg, m) && Working(cfg, m, done)
    ensures exists more :: Working(cfg, m, more) && Drained(Run(cfg, m, more))
    decreases Measure(cfg, m) - |done|
  {
    WorkingFalls(cfg, m, done);
    RunInv(cfg, m, done);
    if !Drained(Run(cfg, m, done)) {
      UndrainedMoves(cfg, Run(cfg, m, done));
      var a :| Works(Run(cfg, m, done), a) && Apply(cfg, Run(cfg, m, done), a) != Run(cfg, m, done);
      OneStepOn(cfg, m, done, a);
      WorkingFalls(cfg, m, done + [a]);
      WorkDrainsFrom(cfg, m, done + [a]);
    }
  }

  /** From any reachable state work leads to a drained one, in at most Measure steps, and work that cannot go on has
      got there. */
  lemma {:induction false} WorkDrains(cfg: Config, before: seq<Action>)
    requires cfg.maxAttempts >= 1
    ensures exists more :: Working(cfg, Run(cfg, INITIAL, before), more) &&
              Drained(Run(cfg, Run(cfg, INITIAL, before), more))
    ensures forall more :: Working(cfg, Run(cfg, INITIAL, before), more) ==>
              && |more| <= Measure(cfg, Run(cfg, INITIAL, before))
              && (AtRest(cfg, Run(cfg, Run(cfg, INITIAL, before), more)) <==>
                    Drained(Run(cfg, Run(cfg, INITIAL, before), more)))
  {
    var m := Run(cfg, INITIAL, before);
    RunInv(cfg, INITIAL, before);
    WorkDrainsFrom(cfg, m, []);
    forall more | Working(cfg, m, more)
      ensures |more| <= Measure(cfg, m) && (AtRest(cfg, Run(cfg, m, more)) <==> Drained(Run(cfg, m, more)))
    {
      WorkingFalls(cfg, m, more);
      RunInv(cfg, m, more);
      RestIffDrained(cfg, Run(cfg, m, more));
    }
  }

  /** Where a guarded run comes to rest, every row of every job is terminal, or fetched with its page in the DLQ
      history. */
  lemma {:induction false} RestingRowsAreSettled(cfg: Config, actions: seq<Action>, k: RowKey)
    requires cfg.maxAttempts >= 1 && GuardedRun(cfg, actions)
    requires AtRest(cfg, Run(cfg, INITIAL, actions)) && k in Run(cfg, INITIAL, actions).store.rows
    ensures var m := Run(cfg, INITIAL, actions);
            Terminal(m.store.rows[k].status) || (m.store.rows[k].status == Fetched && DeadPage(m.store, k))
  {
    RunInv(cfg, INITIAL, actions);
    RestIffDrained(cfg, Run(cfg, INITIAL, actions));
    DrainedRowsAreSettled(cfg, actions, k);
  }
}
