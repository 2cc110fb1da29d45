/** What the lineage invariant means for every run of the pipeline, whatever the interleaving, the
    redeliveries, the crashes and the results of fetches, extractions and transactions. */
module Guarantees {
  import opened Wrappers
  import opened Events
  import opened Links
  import opened Store
  import opened Handlers
  import opened Machine
  import opened Lineage
  import opened LineageSteps

  lemma {:induction false} RunsKeepInv(cfg: Config, actions: seq<Action>)
    requires cfg.maxAttempts >= 1
    ensures Inv(cfg, Run(cfg, INITIAL, actions))
  {
    RunInv(cfg, INITIAL, actions);
  }

  // ---------------------------------------------------------------- lineage

  /** Every UrlDiscovered ever published carries its own job's depth limit and domains and its row's
      depth. In a job made of seeds, a URL below the seeds is within the limit and in an allowed domain. */
  lemma {:induction false} LineagePreserved(cfg: Config, actions: seq<Action>, i: nat)
    requires cfg.maxAttempts >= 1
    requires i < |Run(cfg, INITIAL, actions).store.log| && Run(cfg, INITIAL, actions).store.log[i].OnDiscovered?
    ensures var s := Run(cfg, INITIAL, actions).store; var d := s.log[i].discovered;
            && d.jobId in s.jobs && KeyOf(d) in s.rows
            && d.maxDepth == s.jobs[d.jobId].maxDepth
            && d.domains == s.jobs[d.jobId].domains
            && d.depth == s.rows[KeyOf(d)].depth
            && (!s.jobs[d.jobId].incremental ==> 0 <= d.depth <= d.maxDepth)
            && (!s.jobs[d.jobId].incremental && d.depth > 0 ==> DomainAllowed(HostOf(d.url), d.domains))
  {
    RunsKeepInv(cfg, actions);
    var s := Run(cfg, INITIAL, actions).store;
    assert MessageOk(cfg, s, s.log[i]);
  }

  function MessageDepth(m: Message): int {
    match m
    case OnDiscovered(e, _) => e.depth
    case OnFetched(e) => e.depth
    case OnParsed(e) => e.depth
    case OnFailed(e) => e.depth
    case OnDlq(letter) =>
      match letter
      case DeadDiscovered(e) => e.depth
      case DeadFetched(e) => e.depth
      case DeadParsed(e) => e.depth
      case DeadFailed(e) => e.depth
  }

  function MessageAttempt(m: Message): int {
    match m
    case OnDiscovered(e, _) => e.attempt
    case OnFetched(e) => e.attempt
    case OnParsed(e) => e.attempt
    case OnFailed(e) => e.attempt
    case OnDlq(letter) =>
      match letter
      case DeadDiscovered(e) => e.attempt
      case DeadFetched(e) => e.attempt
      case DeadParsed(e) => e.attempt
      case DeadFailed(e) => e.attempt
  }

  /** On all five topics: the row of a message exists, and the message has that row's depth. */
  lemma {:induction false} DepthPreserved(cfg: Config, actions: seq<Action>, i: nat)
    requires cfg.maxAttempts >= 1 && i < |Run(cfg, INITIAL, actions).store.log|
    ensures var s := Run(cfg, INITIAL, actions).store;
            MessageKey(s.log[i]) in s.rows && s.rows[MessageKey(s.log[i])].depth == MessageDepth(s.log[i])
  {
    RunsKeepInv(cfg, actions);
    var s := Run(cfg, INITIAL, actions).store;
    assert MessageOk(cfg, s, s.log[i]);
  }

  // ---------------------------------------------------------------- attempts

  /** Attempts run from 1 to the maximum; a failure event leaves one more, a dead letter none. */
  lemma {:induction false} AttemptsBounded(cfg: Config, actions: seq<Action>, i: nat)
    requires cfg.maxAttempts >= 1 && i < |Run(cfg, INITIAL, actions).store.log|
    ensures var m := Run(cfg, INITIAL, actions).store.log[i];
            && 1 <= MessageAttempt(m) <= cfg.maxAttempts
            && (m.OnFailed? ==> MessageAttempt(m) < cfg.maxAttempts)
            && (m.OnDlq? ==> MessageAttempt(m) == cfg.maxAttempts)
  {
    RunsKeepInv(cfg, actions);
    var s := Run(cfg, INITIAL, actions).store;
    assert MessageOk(cfg, s, s.log[i]);
  }

  /** So the retry worker never dead-letters: no dead UrlFailed, whose parameters a replay would trust,
      is ever published, and every failure it reads is retried. */
  lemma {:induction false} RetryNeverDeadLetters(cfg: Config, actions: seq<Action>, i: nat)
    requires cfg.maxAttempts >= 1 && i < |Run(cfg, INITIAL, actions).store.log|
    ensures var m := Run(cfg, INITIAL, actions).store.log[i];
            && (m.OnFailed? ==> ShouldRetry(cfg, m.failed.attempt))
            && (m.OnDlq? ==> !m.letter.DeadFailed?)
  {
    RunsKeepInv(cfg, actions);
    var s := Run(cfg, INITIAL, actions).store;
    assert MessageOk(cfg, s, s.log[i]);
  }

  // ---------------------------------------------------------------- ledger

  lemma LedgerGrows(cfg: Config, m: Machine, a: Action)
    ensures m.store.ledger <= Apply(cfg, m, a).store.ledger
  {
    if a.Progress? && a.proc < |m.procs| {
      AdvanceKeepsLedger(cfg, m.store, m.procs[a.proc]);
    }
  }

  lemma {:induction false} RunLedgerGrows(cfg: Config, m: Machine, actions: seq<Action>)
    ensures m.store.ledger <= Run(cfg, m, actions).store.ledger
  {
    if actions != [] {
      var init := actions[..|actions| - 1];
      RunLedgerGrows(cfg, m, init);
      LedgerGrows(cfg, Run(cfg, m, init), actions[|actions| - 1]);
    }
  }

  /** A cleaner claim implies a parser claim, which implies a crawler claim. */
  lemma {:induction false} ClaimsInOrder(cfg: Config, actions: seq<Action>, e: EventId)
    requires cfg.maxAttempts >= 1
    ensures var ledger := Run(cfg, INITIAL, actions).store.ledger;
            && (Claim(e, Cleaner) in ledger ==> Claim(e, Parser) in ledger)
            && (Claim(e, Parser) in ledger ==> Claim(e, Crawler) in ledger)
  {
    RunsKeepInv(cfg, actions);
  }

  /** Once a message was delivered, no delivery of it, or of another message with the same id and stage,
      ever starts a handler again or changes anything, in any continuation of the run. */
  lemma {:induction false} AtMostOnce(
      cfg: Config, m: Machine, i: nat, input: Input, more: seq<Action>, j: nat, again: Input)
    requires i < |m.store.log| && StageClaim(m.store.log[i]).Some?
    requires j < |Run(cfg, Apply(cfg, m, Delivery(i, input)), more).store.log|
    requires StageClaim(Run(cfg, Apply(cfg, m, Delivery(i, input)), more).store.log[j]) == StageClaim(m.store.log[i])
    ensures var m' := Run(cfg, Apply(cfg, m, Delivery(i, input)), more);
            Apply(cfg, m', Delivery(j, again)) == m'
  {
    var m1 := Apply(cfg, m, Delivery(i, input));
    assert StageClaim(m.store.log[i]).value in m1.store.ledger;
    RunLedgerGrows(cfg, m1, more);
  }

  // ---------------------------------------------------------------- repairs that cannot repair

  /** Whatever the DLQ replayer publishes for a dead letter is dropped at its topic's ledger: a worker
      dead-letters an event it has claimed, and the replay keeps the event's id. */
  lemma {:induction false} ReplaysAreDropped(cfg: Config, actions: seq<Action>, i: nat, newId: EventId, input: Input)
    requires cfg.maxAttempts >= 1
    requires i < |Run(cfg, INITIAL, actions).store.log| && Run(cfg, INITIAL, actions).store.log[i].OnDlq?
    ensures var s := Run(cfg, INITIAL, actions).store; var replay := ReplayOf(s.log[i].letter, newId);
            replay.Some? && Deliver(s, replay.value, input) == Next(s, Idle)
  {
    RunsKeepInv(cfg, actions);
    var s := Run(cfg, INITIAL, actions).store;
    assert MessageOk(cfg, s, s.log[i]);
    ReplayShapes(s.log[i].letter, newId);
  }

  /** The same holds of the page the retry worker republishes for a cleaner failure. */
  lemma {:induction false} CleanerRetriesAreDropped(cfg: Config, actions: seq<Action>, i: nat, input: Input)
    requires cfg.maxAttempts >= 1
    requires i < |Run(cfg, INITIAL, actions).store.log| && Run(cfg, INITIAL, actions).store.log[i].OnFailed?
    requires Run(cfg, INITIAL, actions).store.log[i].failed.stage == Cleaner
    ensures var s := Run(cfg, INITIAL, actions).store; var s' := RetryStep(cfg, s, s.log[i].failed);
            |s'.log| == |s.log| + 1 && Deliver(s', s'.log[|s.log|], input) == Next(s', Idle)
  {
    RunsKeepInv(cfg, actions);
    var s := Run(cfg, INITIAL, actions).store;
    assert MessageOk(cfg, s, s.log[i]);
  }

  // ---------------------------------------------------------------- discovery

  /** A step that publishes a row for the first time finds it in the table. */
  lemma PublishesExisting(cfg: Config, s: Store, p: Proc)
    requires cfg.maxAttempts >= 1 && StoreOk(cfg, s) && ProcOk(cfg, s, p)
    ensures var s' := Advance(cfg, s, p).store;
            |s'.log| > |s.log| && FirstKey(s'.log[|s.log|]).Some? ==> FirstKey(s'.log[|s.log|]).value in s.rows
  {
    if PendingOf(p).Inserting? {
      ToInsertUndrawn(cfg, s, PendingOf(p).key);
    }
    AdvanceGood(cfg, s, p);
  }

  /** At some point of the run the row was in the table and message i was yet to be published. */
  ghost predicate RowCameFirst(cfg: Config, actions: seq<Action>, i: nat, k: RowKey) {
    exists n :: 0 <= n < |actions| && |Run(cfg, INITIAL, actions[..n]).store.log| <= i &&
      k in Run(cfg, INITIAL, actions[..n]).store.rows
  }

  lemma RowCameFirstLonger(cfg: Config, actions: seq<Action>, i: nat, k: RowKey)
    requires actions != [] && RowCameFirst(cfg, actions[..|actions| - 1], i, k)
    ensures RowCameFirst(cfg, actions, i, k)
  {
    var init := actions[..|actions| - 1];
    var n :| 0 <= n < |init| && |Run(cfg, INITIAL, init[..n]).store.log| <= i &&
      k in Run(cfg, INITIAL, init[..n]).store.rows;
    assert init[..n] == actions[..n];
  }

  lemma LogStep(cfg: Config, m: Machine, a: Action)
    ensures m.store.log <= Apply(cfg, m, a).store.log
    ensures (a.Progress? && a.proc < |m.procs|) || Apply(cfg, m, a).store.log == m.store.log
  {
    if a.Progress? && a.proc < |m.procs| {
      AdvanceAppends(cfg, m.store, m.procs[a.proc]);
    }
  }

  lemma {:induction false} RowComesFirst(cfg: Config, actions: seq<Action>, i: nat)
    requires cfg.maxAttempts >= 1 && i < |Run(cfg, INITIAL, actions).store.log|
    requires FirstKey(Run(cfg, INITIAL, actions).store.log[i]).Some?
    ensures RowCameFirst(cfg, actions, i, FirstKey(Run(cfg, INITIAL, actions).store.log[i]).value)
  {
    var n := |actions| - 1;
    var m, a := Run(cfg, INITIAL, actions[..n]), actions[n];
    LogStep(cfg, m, a);
    if i < |m.store.log| {
      RowComesFirst(cfg, actions[..n], i);
      RowCameFirstLonger(cfg, actions, i, FirstKey(m.store.log[i]).value);
    } else {
      RunsKeepInv(cfg, actions[..n]);
      assert ProcOk(cfg, m.store, m.procs[a.proc]);
      AdvanceAppends(cfg, m.store, m.procs[a.proc]);
      PublishesExisting(cfg, m.store, m.procs[a.proc]);
      assert |Run(cfg, INITIAL, actions[..n]).store.log| <= i;
    }
  }

  /** The scheduler and all crawlers together publish a row for the first time at most once, and the row was in the
      table before that message was on the log. */
  lemma {:induction false} DiscoveredOnce(cfg: Config, actions: seq<Action>, i: nat, j: nat)
    requires cfg.maxAttempts >= 1 && i < |Run(cfg, INITIAL, actions).store.log|
    requires FirstKey(Run(cfg, INITIAL, actions).store.log[i]).Some?
    ensures var log := Run(cfg, INITIAL, actions).store.log;
            i != j && j < |log| ==> FirstKey(log[i]) != FirstKey(log[j])
    ensures RowCameFirst(cfg, actions, i, FirstKey(Run(cfg, INITIAL, actions).store.log[i]).value)
  {
    RunsKeepInv(cfg, actions);
    RowComesFirst(cfg, actions, i);
  }

  /** A row only ever appears as the pending row of a handler between its seen mark and its publication:
      `transition` never takes the branch that inserts a missing row at depth 0. */
  lemma {:induction false} RowsComeFromQueueing(cfg: Config, actions: seq<Action>, a: Action, k: RowKey)
    requires cfg.maxAttempts >= 1
    requires k in Apply(cfg, Run(cfg, INITIAL, actions), a).store.rows && k !in Run(cfg, INITIAL, actions).store.rows
    ensures var m := Run(cfg, INITIAL, actions);
            a.Progress? && a.proc < |m.procs| && PendingOf(m.procs[a.proc]) == Inserting(k)
  {
    RunsKeepInv(cfg, actions);
    var m := Run(cfg, INITIAL, actions);
    match a
    case Submission(r) => SubmissionGood(cfg, m.store, r);
    case Delivery(i, input) =>
      if i < |m.store.log| {
        DeliverGood(cfg, m.store, m.store.log[i], input);
      }
    case Progress(j) =>
      if j < |m.procs| {
        var p := m.procs[j];
        if PendingOf(p).Inserting? {
          ToInsertUndrawn(cfg, m.store, PendingOf(p).key);
        }
        AdvanceGood(cfg, m.store, p);
        assert PendingKey(p) == Some(k);
      }
    case _ =>
  }
}
