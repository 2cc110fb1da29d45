/** What becomes of a URL once it is marked as seen: it has its row, or a handler about to insert it, exactly unless
    that handler was cut off; and then it has neither a row nor a message in any continuation. */
module SeenKeys {
  import opened Wrappers
  import opened Events
  import opened Store
  import opened Handlers
  import opened Machine
  import opened Lineage
  import opened LineageSteps

  /** A handler is about to insert the row. */
  ghost predicate ToInsert(procs: seq<Proc>, k: RowKey) {
    exists j :: 0 <= j < |procs| && PendingOf(procs[j]) == Inserting(k)
  }

  /** The URL has its row, or a handler is about to insert it. */
  ghost predicate Backed(m: Machine, k: RowKey) {
    k in m.store.rows || ToInsert(m.procs, k)
  }

  /** The handler that is about to insert the row crashes, or its body raises instead. */
  predicate Drops(m: Machine, a: Action, k: RowKey) {
    && (a.Crash? || a.Progress?) && a.proc < |m.procs| && PendingOf(m.procs[a.proc]) == Inserting(k)
    && (a.Crash? || (m.procs[a.proc].CrawlQueue? && Strikes(m.procs[a.proc].luck)))
  }

  /** Some step of the run drops the URL. */
  ghost predicate Dropped(cfg: Config, actions: seq<Action>, k: RowKey) {
    actions != [] &&
    var init, last := actions[..|actions| - 1], actions[|actions| - 1];
    Dropped(cfg, init, k) || Drops(Run(cfg, INITIAL, init), last, k)
  }

  // ---------------------------------------------------------------- micro steps

  /** A step inserts only the row that was pending, and marks as seen only the one that becomes pending. */
  ghost predicate SeenStep(s: Store, p: Proc, n: Next, k: RowKey) {
    && s.seen <= n.store.seen
    && (k in s.rows ==> k in n.store.rows)
    && (k in n.store.rows && k !in s.rows ==> PendingOf(p) == Inserting(k))
    && (k in n.store.seen && k !in s.seen <==> PendingOf(n.proc) == Inserting(k))
    && (PendingOf(p) == Inserting(k) && !(p.CrawlQueue? && Strikes(p.luck)) ==> k in n.store.rows)
    && (p.CrawlQueue? && Strikes(p.luck) ==> n.store == s)
  }

  lemma FollowerSees(cfg: Config, s: Store, p: Proc, k: RowKey)
    requires ProcOk(cfg, s, p) && (p.CrawlLinks? || p.CrawlQueue? || p.CrawlEmit?)
    ensures SeenStep(s, p, Advance(cfg, s, p), k)
  {
  }

  lemma CrawlerSees(cfg: Config, s: Store, p: Proc, k: RowKey)
    requires ProcOk(cfg, s, p) && DutyOf(p).Crawls?
    ensures SeenStep(s, p, Advance(cfg, s, p), k)
  {
    if p.CrawlLinks? || p.CrawlQueue? || p.CrawlEmit? {
      FollowerSees(cfg, s, p, k);
    }
  }

  lemma SubmissionSees(cfg: Config, s: Store, p: Proc, k: RowKey)
    requires ProcOk(cfg, s, p) && DutyOf(p).Submits?
    ensures SeenStep(s, p, Advance(cfg, s, p), k)
  {
  }

  lemma OthersSee(cfg: Config, s: Store, p: Proc, k: RowKey)
    requires ProcOk(cfg, s, p) && (DutyOf(p).NoDuty? || DutyOf(p).Parses? || DutyOf(p).Cleans? || DutyOf(p).Retries?)
    ensures SeenStep(s, p, Advance(cfg, s, p), k)
  {
  }

  lemma ReplaysSee(cfg: Config, s: Store, p: Proc, k: RowKey)
    requires DutyOf(p).Replays?
    ensures SeenStep(s, p, Advance(cfg, s, p), k)
  {
  }

  lemma AdvanceSeenStep(cfg: Config, s: Store, p: Proc, k: RowKey)
    requires ProcOk(cfg, s, p)
    ensures SeenStep(s, p, Advance(cfg, s, p), k)
  {
    match DutyOf(p)
    case Crawls(_) => CrawlerSees(cfg, s, p, k);
    case Submits(_) => SubmissionSees(cfg, s, p, k);
    case Replays(_) => ReplaysSee(cfg, s, p, k);
    case _ => OthersSee(cfg, s, p, k);
  }

  // ---------------------------------------------------------------- steps of the machine

  /** Other handlers keep what they have pending. */
  lemma OthersKeep(procs: seq<Proc>, j: nat, p': Proc, k: RowKey)
    requires j < |procs|
    ensures ToInsert(procs[j := p'], k) <==>
            PendingOf(p') == Inserting(k) ||
            exists i :: 0 <= i < |procs| && i != j && PendingOf(procs[i]) == Inserting(k)
  {
    var procs' := procs[j := p'];
    if PendingOf(p') == Inserting(k) {
      assert PendingOf(procs'[j]) == Inserting(k);
    }
    if i :| 0 <= i < |procs| && i != j && PendingOf(procs[i]) == Inserting(k) {
      assert PendingOf(procs'[i]) == Inserting(k);
    }
  }

  lemma ProgressBacks(cfg: Config, m: Machine, j: nat, k: RowKey)
    requires Inv(cfg, m) && j < |m.procs| && k in Apply(cfg, m, Progress(j)).store.seen
    requires (k in m.store.seen ==> Backed(m, k)) && !Drops(m, Progress(j), k)
    ensures Backed(Apply(cfg, m, Progress(j)), k)
  {
    var n := Advance(cfg, m.store, m.procs[j]);
    assert ProcOk(cfg, m.store, m.procs[j]);
    AdvanceSeenStep(cfg, m.store, m.procs[j], k);
    OthersKeep(m.procs, j, n.proc, k);
  }

  lemma CrashBacks(cfg: Config, m: Machine, j: nat, k: RowKey)
    requires Backed(m, k) && !Drops(m, Crash(j), k)
    ensures Backed(Apply(cfg, m, Crash(j)), k)
  {
    if j < |m.procs| {
      OthersKeep(m.procs, j, Idle, k);
    }
  }

  /** A handler that a delivery or a submission starts has nothing pending, and the step inserts no row. */
  lemma StartBacks(m: Machine, s': Store, taken': set<nat>, p: Proc, k: RowKey)
    requires PendingOf(p) == Nothing && (k in s'.rows <==> k in m.store.rows)
    ensures Backed(Machine(s', taken', Started(m.procs, p)), k) <==> Backed(m, k)
  {
    var procs' := Started(m.procs, p);
    assert forall j :: 0 <= j < |m.procs| ==> procs'[j] == m.procs[j];
  }

  lemma DeliverInsertsNone(cfg: Config, s: Store, m: Message, input: Input, k: RowKey)
    requires MessageOk(cfg, s, m)
    ensures var n := Deliver(s, m, input);
            PendingOf(n.proc) == Nothing && n.store.seen == s.seen && (k in n.store.rows <==> k in s.rows)
  {
  }

  lemma OtherStepsBack(cfg: Config, m: Machine, a: Action, k: RowKey)
    requires Inv(cfg, m) && !a.Progress? && !a.Crash?
    ensures Backed(Apply(cfg, m, a), k) <==> Backed(m, k)
    ensures Apply(cfg, m, a).store.seen == m.store.seen
    ensures k in Apply(cfg, m, a).store.rows <==> k in m.store.rows
  {
    match a
    case Submission(r) =>
      StartBacks(m, Submit(m.store, r).store, m.taken, Submit(m.store, r).proc, k);
    case Delivery(i, input) =>
      if i < |m.store.log| {
        var n := Deliver(m.store, m.store.log[i], input);
        assert MessageOk(cfg, m.store, m.store.log[i]);
        DeliverInsertsNone(cfg, m.store, m.store.log[i], input, k);
        StartBacks(m, n.store, Apply(cfg, m, a).taken, n.proc, k);
      }
    case _ =>
  }

  lemma StepBacks(cfg: Config, m: Machine, a: Action, k: RowKey)
    requires Inv(cfg, m) && k in Apply(cfg, m, a).store.seen
    requires (k in m.store.seen ==> Backed(m, k)) && !Drops(m, a, k)
    ensures Backed(Apply(cfg, m, a), k)
  {
    if a.Progress? {
      if a.proc < |m.procs| { ProgressBacks(cfg, m, a.proc, k); }
    } else if a.Crash? {
      CrashBacks(cfg, m, a.proc, k);
    } else {
      OtherStepsBack(cfg, m, a, k);
    }
  }

  // ---------------------------------------------------------------- a dropped URL

  /** The URL is seen, and nobody will insert its row. */
  ghost predicate Gone(m: Machine, k: RowKey) {
    k in m.store.seen && !Backed(m, k)
  }

  lemma DropLoses(cfg: Config, m: Machine, a: Action, k: RowKey)
    requires Inv(cfg, m) && Drops(m, a, k)
    ensures Gone(Apply(cfg, m, a), k)
  {
    var j, p := a.proc, m.procs[a.proc];
    assert ProcOk(cfg, m.store, p);
    forall i | 0 <= i < |m.procs| && i != j
      ensures PendingOf(m.procs[i]) != Inserting(k)
    {
      if i < j { assert Apart(m.procs[i], p); } else { assert Apart(p, m.procs[i]); }
    }
    if a.Crash? {
      OthersKeep(m.procs, j, Idle, k);
    } else {
      AdvanceSeenStep(cfg, m.store, p, k);
      OthersKeep(m.procs, j, Advance(cfg, m.store, p).proc, k);
    }
  }

  lemma GoneStep(cfg: Config, m: Machine, a: Action, k: RowKey)
    requires Inv(cfg, m) && Gone(m, k)
    ensures Gone(Apply(cfg, m, a), k)
  {
    if a.Progress? {
      if a.proc < |m.procs| {
        var p := m.procs[a.proc];
        assert ProcOk(cfg, m.store, p);
        AdvanceSeenStep(cfg, m.store, p, k);
        OthersKeep(m.procs, a.proc, Advance(cfg, m.store, p).proc, k);
      }
    } else if a.Crash? {
      if a.proc < |m.procs| {
        OthersKeep(m.procs, a.proc, Idle, k);
      }
    } else {
      OtherStepsBack(cfg, m, a, k);
    }
  }

  lemma {:induction false} GoneForever(cfg: Config, m: Machine, actions: seq<Action>, k: RowKey)
    requires cfg.maxAttempts >= 1 && Inv(cfg, m) && Gone(m, k)
    ensures Gone(Run(cfg, m, actions), k)
  {
    if actions != [] {
      var init := actions[..|actions| - 1];
      GoneForever(cfg, m, init, k);
      RunInv(cfg, m, init);
      GoneStep(cfg, Run(cfg, m, init), actions[|actions| - 1], k);
    }
  }

  /** A URL whose handler is cut off between its seen mark and its row gets no row and no message on any topic,
      however the run goes on. */
  lemma {:induction false} DroppedForGood(
      cfg: Config, before: seq<Action>, a: Action, after: seq<Action>, k: RowKey)
    requires cfg.maxAttempts >= 1 && Drops(Run(cfg, INITIAL, before), a, k)
    ensures var s := Run(cfg, Apply(cfg, Run(cfg, INITIAL, before), a), after).store;
            k in s.seen && k !in s.rows && forall i :: 0 <= i < |s.log| ==> MessageKey(s.log[i]) != k
  {
    var m := Run(cfg, INITIAL, before);
    RunInv(cfg, INITIAL, before);
    DropLoses(cfg, m, a, k);
    ApplyInv(cfg, m, a);
    GoneForever(cfg, Apply(cfg, m, a), after, k);
    RunInv(cfg, Apply(cfg, m, a), after);
    NoMessageWithoutRow(cfg, Run(cfg, Apply(cfg, m, a), after).store, k);
  }

  lemma NoMessageWithoutRow(cfg: Config, s: Store, k: RowKey)
    requires StoreOk(cfg, s) && k !in s.rows
    ensures forall i :: 0 <= i < |s.log| ==> MessageKey(s.log[i]) != k
  {
    forall i | 0 <= i < |s.log|
      ensures MessageKey(s.log[i]) != k
    {
      assert MessageOk(cfg, s, s.log[i]);
    }
  }

  // ---------------------------------------------------------------- whole runs

  /** In every run a URL marked as seen has its row, or a handler about to insert it, if and only if no such handler
      was ever cut off. */
  lemma {:induction false} SeenIsBackedIff(cfg: Config, actions: seq<Action>, k: RowKey)
    requires cfg.maxAttempts >= 1 && k in Run(cfg, INITIAL, actions).store.seen
    ensures Backed(Run(cfg, INITIAL, actions), k) <==> !Dropped(cfg, actions, k)
  {
    if actions != [] {
      var init, a := actions[..|actions| - 1], actions[|actions| - 1];
      var m := Run(cfg, INITIAL, init);
      RunInv(cfg, INITIAL, init);
      if Drops(m, a, k) {
        DropLoses(cfg, m, a, k);
      } else if k in m.store.seen {
        SeenIsBackedIff(cfg, init, k);
        if Backed(m, k) { StepBacks(cfg, m, a, k); } else { GoneStep(cfg, m, a, k); }
      } else {
        NeverDropped(cfg, init, k);
        StepBacks(cfg, m, a, k);
      }
    }
  }

  /** What was dropped is seen. */
  lemma {:induction false} NeverDropped(cfg: Config, actions: seq<Action>, k: RowKey)
    requires cfg.maxAttempts >= 1 && k !in Run(cfg, INITIAL, actions).store.seen
    ensures !Dropped(cfg, actions, k)
  {
    if actions != [] {
      var init, a := actions[..|actions| - 1], actions[|actions| - 1];
      var m := Run(cfg, INITIAL, init);
      RunInv(cfg, INITIAL, init);
      if Drops(m, a, k) {
        DropLoses(cfg, m, a, k);
      }
      if k in m.store.seen {
        SeenKept(cfg, m, a, k);
      }
      NeverDropped(cfg, init, k);
    }
  }

  lemma SeenKept(cfg: Config, m: Machine, a: Action, k: RowKey)
    requires k in m.store.seen
    ensures k in Apply(cfg, m, a).store.seen
  {
    if a.Progress? && a.proc < |m.procs| {
      AdvanceSees(cfg, m.store, m.procs[a.proc]);
    }
  }
}
