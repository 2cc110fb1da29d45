/** How often the DLQ replayer publishes a dead letter, over whole runs. */
module Replays {
  import opened Wrappers
  import opened Events
  import opened Store
  import opened Handlers
  import opened Machine
  import opened Lineage
  import opened StageOutcomes

  /** What can happen to the dead letters of one event: a delivery is counted, a counted delivery passes the cap, a
      replay is published, or a handler is cut off before it publishes. */
  datatype Happening = Counted | Passed | Republished | CutOff

  /** The handler is past the cap with a letter of event e, and has yet to publish it. */
  predicate Holds(p: Proc, e: EventId) {
    p.ReplayPublishing? && IdIn(p.letter) == e
  }

  predicate Counts(p: Proc, e: EventId) {
    p.ReplayCounting? && IdIn(p.letter) == e
  }

  predicate Happens(cfg: Config, m: Machine, a: Action, e: EventId, what: Happening) {
    match what
    case Counted => a.Progress? && a.proc < |m.procs| && Counts(m.procs[a.proc], e)
    case Passed =>
      && a.Progress? && a.proc < |m.procs| && Counts(m.procs[a.proc], e)
      && Holds(Apply(cfg, m, a).procs[a.proc], e)
    case Republished =>
      && a.Progress? && a.proc < |m.procs| && Holds(m.procs[a.proc], e)
      && Apply(cfg, m, a).store.log == m.store.log + [ExpectedReplay(m.procs[a.proc].letter)]
    case CutOff => a.Crash? && a.proc < |m.procs| && Holds(m.procs[a.proc], e)
  }

  /** How often it happens in a run. */
  function Times(cfg: Config, actions: seq<Action>, e: EventId, what: Happening): nat {
    if actions == [] then 0
    else
      var init, a := actions[..|actions| - 1], actions[|actions| - 1];
      Times(cfg, init, e, what) + if Happens(cfg, Run(cfg, INITIAL, init), a, e, what) then 1 else 0
  }

  function Holders(procs: seq<Proc>, e: EventId): set<nat> {
    set j: nat | j < |procs| && Holds(procs[j], e)
  }

  predicate NeverExpires(actions: seq<Action>, e: EventId) {
    ExpireReplays(e) !in actions
  }

  // ---------------------------------------------------------------- one step

  lemma HoldersStarted(procs: seq<Proc>, p: Proc, e: EventId)
    requires !Holds(p, e)
    ensures Holders(Started(procs, p), e) == Holders(procs, e)
  {
  }

  lemma HoldersChanged(procs: seq<Proc>, j: nat, p: Proc, e: EventId)
    requires j < |procs|
    ensures Holders(procs[j := p], e) ==
            if Holds(p, e) then Holders(procs, e) + {j} else Holders(procs, e) - {j}
  {
  }

  /** Only a counting handler changes the count of its event, or comes to hold a letter. */
  lemma OthersKeepCount(cfg: Config, s: Store, p: Proc, e: EventId)
    requires !Counts(p, e)
    ensures ReplayCount(Advance(cfg, s, p).store, e) == ReplayCount(s, e)
    ensures !Holds(Advance(cfg, s, p).proc, e)
  {
    if DutyOf(p).Crawls? {
      CrawlersKeepCount(cfg, s, p);
    }
  }

  lemma CrawlersKeepCount(cfg: Config, s: Store, p: Proc)
    requires DutyOf(p).Crawls?
    ensures Advance(cfg, s, p).store.replays == s.replays && !Advance(cfg, s, p).proc.ReplayPublishing?
  {
  }

  lemma CountingStep(cfg: Config, s: Store, p: Proc, e: EventId)
    requires Counts(p, e)
    ensures ReplayCount(Advance(cfg, s, p).store, e) == ReplayCount(s, e) + 1
    ensures Holds(Advance(cfg, s, p).proc, e) <==> ReplayCount(s, e) < cfg.maxReplays
  {
  }

  function Tick(b: bool): nat {
    if b then 1 else 0
  }

  /** One step of the run: the count goes up by what is counted; letters are held from passing the cap to their
      publication. */
  lemma StepCounts(cfg: Config, m: Machine, a: Action, e: EventId)
    requires a != ExpireReplays(e)
    ensures var m' := Apply(cfg, m, a);
            && ReplayCount(m'.store, e) == ReplayCount(m.store, e) + Tick(Happens(cfg, m, a, e, Counted))
            && (Happens(cfg, m, a, e, Passed) <==>
                 Happens(cfg, m, a, e, Counted) && ReplayCount(m.store, e) < cfg.maxReplays)
  {
    if a.Progress? && a.proc < |m.procs| {
      if Counts(m.procs[a.proc], e) {
        CountingStep(cfg, m.store, m.procs[a.proc], e);
      } else {
        OthersKeepCount(cfg, m.store, m.procs[a.proc], e);
      }
    }
  }

  lemma StepHolders(cfg: Config, m: Machine, a: Action, e: EventId)
    ensures |Holders(Apply(cfg, m, a).procs, e)| + Tick(Happens(cfg, m, a, e, Republished))
            + Tick(Happens(cfg, m, a, e, CutOff)) ==
            |Holders(m.procs, e)| + Tick(Happens(cfg, m, a, e, Passed))
  {
    match a
    case Submission(r) => HoldersStarted(m.procs, Submit(m.store, r).proc, e);
    case Delivery(i, input) =>
      if i < |m.store.log| {
        HoldersStarted(m.procs, Deliver(m.store, m.store.log[i], input).proc, e);
      }
    case Progress(j) =>
      if j < |m.procs| { ProgressHolders(cfg, m, j, e); }
    case Crash(j) =>
      if j < |m.procs| { HoldersChanged(m.procs, j, Idle, e); }
    case _ =>
  }

  lemma ProgressHolders(cfg: Config, m: Machine, j: nat, e: EventId)
    requires j < |m.procs|
    ensures |Holders(Apply(cfg, m, Progress(j)).procs, e)| + Tick(Happens(cfg, m, Progress(j), e, Republished)) ==
            |Holders(m.procs, e)| + Tick(Happens(cfg, m, Progress(j), e, Passed))
  {
    var p := m.procs[j];
    HoldersChanged(m.procs, j, Advance(cfg, m.store, p).proc, e);
    if Holds(p, e) {
      ReplayPublishes(cfg, m.store, p.letter);
    } else if !Counts(p, e) {
      OthersKeepCount(cfg, m.store, p, e);
    }
  }

  // ---------------------------------------------------------------- whole runs

  function Least(a: nat, b: int): nat {
    if b <= 0 then 0 else if a <= b then a else b
  }

  /** While the counter lives, it holds the number of deliveries counted, and those below the cap passed. */
  lemma {:induction false} PassedIsCapped(cfg: Config, actions: seq<Action>, e: EventId)
    requires NeverExpires(actions, e)
    ensures ReplayCount(Run(cfg, INITIAL, actions).store, e) == Times(cfg, actions, e, Counted)
    ensures Times(cfg, actions, e, Passed) == Least(Times(cfg, actions, e, Counted), cfg.maxReplays)
  {
    if actions != [] {
      var init, a := actions[..|actions| - 1], actions[|actions| - 1];
      assert a in actions && forall b :: b in init ==> b in actions;
      PassedIsCapped(cfg, init, e);
      StepCounts(cfg, Run(cfg, INITIAL, init), a, e);
    }
  }

  /** Whatever passed was published, or its handler was cut off, or still has it. */
  lemma {:induction false} PassedIsReplayed(cfg: Config, actions: seq<Action>, e: EventId)
    ensures Times(cfg, actions, e, Passed) ==
            Times(cfg, actions, e, Republished) + Times(cfg, actions, e, CutOff)
            + |Holders(Run(cfg, INITIAL, actions).procs, e)|
  {
    if actions != [] {
      var init, a := actions[..|actions| - 1], actions[|actions| - 1];
      PassedIsReplayed(cfg, init, e);
      StepHolders(cfg, Run(cfg, INITIAL, init), a, e);
    }
  }

  /** In every run without expiry of the counter: n counted deliveries of the dead letters of an event lead to at most
      min(n, max_replays) publications, and to exactly that many if no handler crashed between count and publication
      and none is still about to publish. */
  lemma {:induction false} ReplayedUpToCap(cfg: Config, actions: seq<Action>, e: EventId)
    requires NeverExpires(actions, e)
    ensures Times(cfg, actions, e, Republished) <= Least(Times(cfg, actions, e, Counted), cfg.maxReplays)
    ensures Times(cfg, actions, e, Republished) == Least(Times(cfg, actions, e, Counted), cfg.maxReplays) <==>
            Times(cfg, actions, e, CutOff) == 0 && Holders(Run(cfg, INITIAL, actions).procs, e) == {}
  {
    PassedIsCapped(cfg, actions, e);
    PassedIsReplayed(cfg, actions, e);
  }
}
