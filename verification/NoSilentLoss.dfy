/** No row is lost silently: with any number of handlers interleaved, every row is settled or something in
    flight will settle it, exactly as long as no step takes the last such thing away. */
module NoSilentLoss {
  import opened Wrappers
  import opened Events
  import opened Store
  import opened Handlers
  import opened Machine
  import opened Lineage
  import opened LineageSteps
  import opened PageFlow

  // ---------------------------------------------------------------- who will settle a row

  /** The row whose status, first publication or page the handler has yet to take care of. */
  function Owes(p: Proc): Option<RowKey> {
    match p
    case CrawlGate(ev, _) => Some(KeyOf(ev))
    case CrawlSkip(ev, _) => Some(KeyOf(ev))
    case CrawlFetch(ev, _) => Some(KeyOf(ev))
    case CrawlUnchanged(ev, _, _) => Some(KeyOf(ev))
    case CrawlPublish(ev, _, _, _, _) => Some(KeyOf(ev))
    case CrawlFail(ev, _) => Some(KeyOf(ev))
    case CrawlEmit(ev, link, _, _) => Some(LinkKey(ev, link))
    case ParseBody(page, _) => Some(PageKey(page))
    case ParseReport(page, _) => Some(PageKey(page))
    case CleanBody(parsed, _) => Some(ParsedKey(parsed))
    case CleanFail(parsed, _) => Some(ParsedKey(parsed))
    case RetryBody(f) => if f.stage == Cleaner then None else Some(FailedKey(f))
    case SubmitEmit(o, seed, _, _) => Some(SeedKey(o, seed))
    case _ => None
  }

  ghost predicate Owed(procs: seq<Proc>, k: RowKey) {
    exists j :: 0 <= j < |procs| && Owes(procs[j]) == Some(k)
  }

  /** A message about row k that will still start a handler able to settle it. */
  ghost predicate LiveAt(s: Store, taken: set<nat>, i: int, k: RowKey) {
    && 0 <= i < |s.log| && MessageKey(s.log[i]) == k
    && match StageClaim(s.log[i])
       case Some(c) => c !in s.ledger
       case None => s.log[i].OnFailed? && s.log[i].failed.stage != Cleaner && i !in taken
  }

  ghost predicate Live(s: Store, taken: set<nat>, k: RowKey) {
    exists i :: LiveAt(s, taken, i, k)
  }

  /** The DLQ history holds the page the parser gave up on. */
  ghost predicate DeadPage(s: Store, k: RowKey) {
    exists i :: 0 <= i < |s.log| && s.log[i].OnDlq? && s.log[i].letter.DeadFetched? && LetterKey(s.log[i].letter) == k
  }

  ghost predicate Witnessed(m: Machine, k: RowKey) {
    Owed(m.procs, k) || Live(m.store, m.taken, k) || DeadPage(m.store, k)
  }

  ghost predicate RowSafe(m: Machine, k: RowKey)
    requires k in m.store.rows
  {
    Terminal(m.store.rows[k].status) || Witnessed(m, k)
  }

  ghost predicate AllSafe(m: Machine) {
    forall k :: k in m.store.rows ==> RowSafe(m, k)
  }

  // ---------------------------------------------------------------- how a row is lost

  /** Something other than handler j will settle the row. */
  ghost predicate WitnessedBut(m: Machine, j: nat, k: RowKey) {
    || (exists i :: 0 <= i < |m.procs| && i != j && Owes(m.procs[i]) == Some(k))
    || Live(m.store, m.taken, k) || DeadPage(m.store, k)
  }

  /** Handler j is cut off: it crashes, or the publication of the link it has queued raises. */
  predicate CutsOff(m: Machine, a: Action, j: nat) {
    && j < |m.procs|
    && (a == Crash(j) || (a == Progress(j) && m.procs[j].CrawlEmit? && Strikes(m.procs[j].luck)))
  }

  /** Crawler j marks its page as fetched. */
  predicate Marks(m: Machine, a: Action, j: nat) {
    j < |m.procs| && a == Progress(j) && m.procs[j].CrawlMark? && !Strikes(m.procs[j].luck)
  }

  /** The last handler that was to take care of an unsettled row is cut off. */
  ghost predicate LosesByCut(m: Machine, a: Action, j: nat, k: RowKey)
    requires k in m.store.rows
  {
    && CutsOff(m, a, j) && Owes(m.procs[j]) == Some(k)
    && !Terminal(m.store.rows[k].status) && !WitnessedBut(m, j, k)
  }

  /** A late mark hits a row that is settled and has nothing left in flight. */
  ghost predicate LosesByMark(m: Machine, a: Action, j: nat, k: RowKey)
    requires k in m.store.rows
  {
    Marks(m, a, j) && KeyOf(m.procs[j].ev) == k && Terminal(m.store.rows[k].status) && !Witnessed(m, k)
  }

  ghost predicate Loses(m: Machine, a: Action, k: RowKey)
    requires k in m.store.rows
  {
    exists j: nat :: LosesByCut(m, a, j, k) || LosesByMark(m, a, j, k)
  }

  // ---------------------------------------------------------------- micro steps

  /** The ledger stands and the log only grows. */
  ghost predicate Quietly(s: Store, s': Store) {
    s'.ledger == s.ledger && s.log <= s'.log
  }

  lemma WitnessKept(s: Store, s': Store, taken: set<nat>, k: RowKey)
    requires Quietly(s, s')
    ensures Live(s, taken, k) ==> Live(s', taken, k)
    ensures DeadPage(s, k) ==> DeadPage(s', k)
  {
    if Live(s, taken, k) {
      var i :| LiveAt(s, taken, i, k);
      assert LiveAt(s', taken, i, k);
    }
    if DeadPage(s, k) {
      var i :| 0 <= i < |s.log| && s.log[i].OnDlq? && s.log[i].letter.DeadFetched? && LetterKey(s.log[i].letter) == k;
      assert s'.log[i] == s.log[i];
    }
  }

  /** Rows a step leaves alone. */
  ghost predicate RowKept(s: Store, s': Store, k: RowKey) {
    k in s.rows && k in s'.rows && s'.rows[k].status == s.rows[k].status
  }

  /** A step changes the status of a row only if the handler owed it something, or owes it something now, or
      marks it. */
  ghost predicate Confined(s: Store, p: Proc, n: Next) {
    forall k :: k in n.store.rows ==>
      RowKept(s, n.store, k) || Owes(p) == Some(k) || Owes(n.proc) == Some(k) || (p.CrawlMark? && k == KeyOf(p.ev))
  }

  lemma CrawlerConfined(cfg: Config, s: Store, p: Proc)
    requires ProcOk(cfg, s, p) && DutyOf(p).Crawls?
    ensures Confined(s, p, Advance(cfg, s, p))
  {
  }

  lemma CleanerConfined(cfg: Config, s: Store, p: Proc)
    requires ProcOk(cfg, s, p) && DutyOf(p).Cleans?
    ensures Confined(s, p, Advance(cfg, s, p))
  {
  }

  lemma OthersConfined(cfg: Config, s: Store, p: Proc)
    requires ProcOk(cfg, s, p) && !DutyOf(p).Crawls?
    ensures Confined(s, p, Advance(cfg, s, p))
  {
    if DutyOf(p).Cleans? {
      CleanerConfined(cfg, s, p);
    }
  }

  /** What a handler does about the row it owes: it settles it, or still owes it, or has published a message that
      will lead on, or its page is dead. */
  ghost predicate Discharged(s: Store, taken: set<nat>, n: Next, k: RowKey) {
    || (k in n.store.rows && Terminal(n.store.rows[k].status))
    || Owes(n.proc) == Some(k)
    || LiveAt(n.store, taken, |s.log|, k)
    || DeadPage(n.store, k)
  }

  lemma CrawlerDischarges(cfg: Config, s: Store, taken: set<nat>, p: Proc)
    requires ProcOk(cfg, s, p) && DutyOf(p).Crawls? && Owes(p).Some? && !p.CrawlEmit?
    requires p.CrawlPublish? ==> Claim(p.ev.eventId, Parser) !in s.ledger
    ensures Discharged(s, taken, Advance(cfg, s, p), Owes(p).value)
  {
    var n := Advance(cfg, s, p);
    if p.CrawlPublish? && !Strikes(p.luck) {
      assert n == StepPublish(s, p.ev, p.storageKey, p.checksum, p.links, p.luck);
      assert n.store.log[|s.log|] == OnFetched(FetchedEvent(p.ev, p.storageKey, p.checksum));
    }
  }

  lemma EmitDischarges(cfg: Config, s: Store, taken: set<nat>, p: Proc)
    requires ProcOk(cfg, s, p) && LedgerOk(s) && p.CrawlEmit? && !Strikes(p.luck)
    ensures Discharged(s, taken, Advance(cfg, s, p), Owes(p).value)
  {
    assert Advance(cfg, s, p) == StepEmit(s, p.ev, p.link, p.links, p.luck);
  }

  lemma ParserDischarges(cfg: Config, s: Store, taken: set<nat>, p: Proc)
    requires ProcOk(cfg, s, p) && DutyOf(p).Parses? && forall i :: i in taken ==> i < |s.log|
    requires p.ParseBody? ==> Claim(p.page.eventId, Cleaner) !in s.ledger
    ensures Discharged(s, taken, Advance(cfg, s, p), Owes(p).value)
  {
    var n := Advance(cfg, s, p);
    if p.ParseReport? {
      assert n.store == ReportParse(cfg, s, p.page, p.error);
      assert |n.store.log| == |s.log| + 1;
      if !ShouldRetry(cfg, p.page.attempt) {
        assert n.store.log[|s.log|] == OnDlq(DeadFetched(p.page));
      }
    }
  }

  lemma CleanerDischarges(cfg: Config, s: Store, taken: set<nat>, p: Proc)
    requires ProcOk(cfg, s, p) && DutyOf(p).Cleans? && Owes(p).Some?
    ensures Discharged(s, taken, Advance(cfg, s, p), Owes(p).value)
  {
  }

  lemma RetryDischarges(cfg: Config, s: Store, taken: set<nat>, f: UrlFailed)
    requires FailedOk(cfg, s, f) && LedgerOk(s) && f.stage != Cleaner
    ensures Discharged(s, taken, Next(RetryStep(cfg, s, f), Idle), FailedKey(f))
  {
  }

  lemma SubmitDischarges(cfg: Config, s: Store, taken: set<nat>, p: Proc)
    requires LedgerOk(s) && p.SubmitEmit?
    ensures Discharged(s, taken, Advance(cfg, s, p), Owes(p).value)
  {
  }

  lemma AdvanceDischarges(cfg: Config, s: Store, taken: set<nat>, p: Proc)
    requires ProcOk(cfg, s, p) && LedgerOk(s) && ClaimFlow(s) && ProcFlow(s.log, p) && Owes(p).Some?
    requires forall i :: i in taken ==> i < |s.log|
    requires p.CrawlEmit? ==> !Strikes(p.luck)
    ensures Discharged(s, taken, Advance(cfg, s, p), Owes(p).value)
  {
    match DutyOf(p)
    case Crawls(_) =>
      if p.CrawlEmit? { EmitDischarges(cfg, s, taken, p); } else { CrawlerDischarges(cfg, s, taken, p); }
    case Parses(_) => ParserDischarges(cfg, s, taken, p);
    case Cleans(_) => CleanerDischarges(cfg, s, taken, p);
    case Retries(f) => RetryDischarges(cfg, s, taken, f);
    case _ => SubmitDischarges(cfg, s, taken, p);
  }

  // ---------------------------------------------------------------- steps of the machine

  /** After handler j stepped, the other handlers owe what they owed, and j what its new state owes. */
  lemma OwedAfter(procs: seq<Proc>, j: nat, p': Proc, k: RowKey)
    requires j < |procs|
    ensures Owed(procs[j := p'], k) <==>
            Owes(p') == Some(k) || exists i :: 0 <= i < |procs| && i != j && Owes(procs[i]) == Some(k)
  {
    var procs' := procs[j := p'];
    if Owes(p') == Some(k) {
      assert Owes(procs'[j]) == Some(k);
    }
    if i :| 0 <= i < |procs| && i != j && Owes(procs[i]) == Some(k) {
      assert Owes(procs'[i]) == Some(k);
    }
  }

  /** A row the stepping handler owed nothing keeps its witnesses. */
  lemma OthersWitnessed(cfg: Config, m: Machine, j: nat, k: RowKey)
    requires Inv(cfg, m) && j < |m.procs| && WitnessedBut(m, j, k)
    ensures Witnessed(Apply(cfg, m, Progress(j)), k)
  {
    var n := Advance(cfg, m.store, m.procs[j]);
    AdvanceAppends(cfg, m.store, m.procs[j]);
    WitnessKept(m.store, n.store, m.taken, k);
    OwedAfter(m.procs, j, n.proc, k);
  }

  lemma StepDischarges(cfg: Config, m: Machine, j: nat, k: RowKey)
    requires Inv(cfg, m) && Flow(m) && j < |m.procs| && Owes(m.procs[j]) == Some(k)
    requires m.procs[j].CrawlEmit? ==> !Strikes(m.procs[j].luck)
    requires k in Apply(cfg, m, Progress(j)).store.rows
    ensures RowSafe(Apply(cfg, m, Progress(j)), k)
  {
    var n := Advance(cfg, m.store, m.procs[j]);
    assert ProcOk(cfg, m.store, m.procs[j]);
    AdvanceDischarges(cfg, m.store, m.taken, m.procs[j]);
    OwedAfter(m.procs, j, n.proc, k);
  }

  /** The step of handler j keeps every row safe that it does not lose. */
  lemma ProgressSafe(cfg: Config, m: Machine, j: nat, k: RowKey)
    requires Inv(cfg, m) && Flow(m) && j < |m.procs| && k in Apply(cfg, m, Progress(j)).store.rows
    requires k in m.store.rows ==> RowSafe(m, k) && !Loses(m, Progress(j), k)
    ensures RowSafe(Apply(cfg, m, Progress(j)), k)
  {
    var s, p := m.store, m.procs[j];
    var n := Advance(cfg, s, p);
    assert ProcOk(cfg, s, p);
    if DutyOf(p).Crawls? { CrawlerConfined(cfg, s, p); } else { OthersConfined(cfg, s, p); }
    OwedAfter(m.procs, j, n.proc, k);
    if Owes(p) == Some(k) && !(p.CrawlEmit? && Strikes(p.luck)) {
      StepDischarges(cfg, m, j, k);
    } else if Owes(n.proc) != Some(k) {
      assert k in s.rows;
      assert !LosesByCut(m, Progress(j), j, k) && !LosesByMark(m, Progress(j), j, k);
      if WitnessedBut(m, j, k) {
        OthersWitnessed(cfg, m, j, k);
      }
    }
  }

  lemma CrashSafe(cfg: Config, m: Machine, j: nat, k: RowKey)
    requires k in m.store.rows && RowSafe(m, k) && !Loses(m, Crash(j), k)
    ensures RowSafe(Apply(cfg, m, Crash(j)), k)
  {
    if j < |m.procs| {
      assert !LosesByCut(m, Crash(j), j, k);
      OwedAfter(m.procs, j, Idle, k);
    }
  }

  // ---------------------------------------------------------------- deliveries

  /** Two messages that compete for one ledger claim are about the same row. */
  lemma ClaimNamesRow(cfg: Config, s: Store, i: int, j: int)
    requires StoreOk(cfg, s) && 0 <= i < |s.log| && 0 <= j < |s.log|
    requires StageClaim(s.log[i]).Some? && StageClaim(s.log[i]) == StageClaim(s.log[j])
    ensures MessageKey(s.log[i]) == MessageKey(s.log[j]) && s.log[i].OnDiscovered? == s.log[j].OnDiscovered?
  {
    assert MessageOk(cfg, s, s.log[i]) && MessageOk(cfg, s, s.log[j]);
  }

  function TakenAfter(s: Store, taken: set<nat>, i: nat): set<nat>
    requires i < |s.log|
  {
    if StageClaim(s.log[i]).None? then taken + {i} else taken
  }

  /** A delivery takes away no live message but those competing for its own claim. */
  lemma LiveAfterDelivery(cfg: Config, s: Store, taken: set<nat>, i: nat, j: int, k: RowKey)
    requires StoreOk(cfg, s) && i < |s.log| && LiveAt(s, taken, j, k)
    requires MessageKey(s.log[i]) != k || s.log[i].OnDiscovered? != s.log[j].OnDiscovered?
             || (s.log[i].OnFailed? && s.log[i].failed.stage == Cleaner) || s.log[i].OnDlq?
    ensures LiveAt(ClaimTransaction(s, s.log[i]), TakenAfter(s, taken, i), j, k)
  {
    if StageClaim(s.log[i]).Some? && StageClaim(s.log[i]) == StageClaim(s.log[j]) {
      ClaimNamesRow(cfg, s, i, j);
    }
  }

  /** The row of the message is owed by the handler that the delivery starts; a page or letter of the cleaner's
      failures needs none. */
  lemma BeginOwes(m: Message, input: Input)
    ensures Owes(Begin(m, input)) == Some(MessageKey(m)) || (m.OnFailed? && m.failed.stage == Cleaner) || m.OnDlq?
  {
  }

  lemma StartedOwes(procs: seq<Proc>, p: Proc, k: RowKey)
    ensures Owed(Started(procs, p), k) <==> Owed(procs, k) || Owes(p) == Some(k)
  {
    if p != Idle {
      assert Owes(p) == Some(k) ==> Owes((procs + [p])[|procs|]) == Some(k);
      assert forall j :: 0 <= j < |procs| ==> (procs + [p])[j] == procs[j];
    }
  }

  lemma LiveOrOwed(cfg: Config, s: Store, taken: set<nat>, i: nat, input: Input, k: RowKey)
    requires StoreOk(cfg, s) && i < |s.log| && Live(s, taken, k)
    requires Owes(Begin(s.log[i], input)) != Some(k)
    ensures Live(ClaimTransaction(s, s.log[i]), TakenAfter(s, taken, i), k)
  {
    BeginOwes(s.log[i], input);
    var j :| LiveAt(s, taken, j, k);
    LiveAfterDelivery(cfg, s, taken, i, j, k);
    assert LiveAt(ClaimTransaction(s, s.log[i]), TakenAfter(s, taken, i), j, k);
  }

  /** A delivery that starts a handler keeps the row's status, or the handler owes it. */
  lemma DeliveryRow(cfg: Config, s: Store, m: Message, input: Input, k: RowKey)
    requires MessageOk(cfg, s, m) && k in s.rows
    ensures k in ClaimTransaction(s, m).rows && ClaimTransaction(s, m).log == s.log
    ensures RowKept(s, ClaimTransaction(s, m), k) || Owes(Begin(m, input)) == Some(k)
  {
  }

  lemma DeliverySafe(cfg: Config, m: Machine, i: nat, input: Input, k: RowKey)
    requires Inv(cfg, m) && i < |m.store.log| && k in m.store.rows && RowSafe(m, k)
    ensures k in Apply(cfg, m, Delivery(i, input)).store.rows
    ensures RowSafe(Apply(cfg, m, Delivery(i, input)), k)
  {
    var s, msg := m.store, m.store.log[i];
    var n := Deliver(s, msg, input);
    assert MessageOk(cfg, s, msg);
    DeliveryRow(cfg, s, msg, input, k);
    StartedOwes(m.procs, n.proc, k);
    if n.proc != Idle && Owes(n.proc) != Some(k) {
      if Live(s, m.taken, k) {
        LiveOrOwed(cfg, s, m.taken, i, input, k);
      }
      assert DeadPage(s, k) ==> DeadPage(n.store, k);
    }
  }

  lemma SubmissionSafe(cfg: Config, m: Machine, r: SubmitRequest, k: RowKey)
    requires k in m.store.rows && RowSafe(m, k)
    ensures RowSafe(Apply(cfg, m, Submission(r)), k)
  {
    var n := Submit(m.store, r);
    WitnessKept(m.store, n.store, m.taken, k);
    StartedOwes(m.procs, n.proc, k);
  }

  lemma ExpirySafe(m: Machine, s': Store, k: RowKey)
    requires k in m.store.rows && RowSafe(m, k)
    requires s'.rows == m.store.rows && s'.ledger == m.store.ledger && s'.log == m.store.log
    ensures RowSafe(m.(store := s'), k)
  {
    WitnessKept(m.store, s', m.taken, k);
  }

  /** Rows other than those queued by a step were there before. */
  lemma RowWasThere(cfg: Config, m: Machine, a: Action, k: RowKey)
    requires Inv(cfg, m) && !a.Progress? && k in Apply(cfg, m, a).store.rows
    ensures k in m.store.rows
  {
    if a.Delivery? && a.at < |m.store.log| {
      assert MessageOk(cfg, m.store, m.store.log[a.at]);
    }
  }

  /** Any step keeps safe every row that it does not lose, and every row it creates. */
  lemma ApplySafe(cfg: Config, m: Machine, a: Action, k: RowKey)
    requires Inv(cfg, m) && Flow(m) && k in Apply(cfg, m, a).store.rows
    requires k in m.store.rows ==> RowSafe(m, k) && !Loses(m, a, k)
    ensures RowSafe(Apply(cfg, m, a), k)
  {
    if !a.Progress? {
      RowWasThere(cfg, m, a, k);
    }
    match a
    case Submission(r) => SubmissionSafe(cfg, m, r, k);
    case Delivery(i, input) =>
      if i < |m.store.log| { DeliverySafe(cfg, m, i, input, k); }
    case Progress(j) =>
      if j < |m.procs| { ProgressSafe(cfg, m, j, k); }
    case Crash(j) => CrashSafe(cfg, m, j, k);
    case ExpireHold(u) => ExpirySafe(m, Release(m.store, u), k);
    case ExpireReplays(e) => ExpirySafe(m, m.store.(replays := m.store.replays - {e}), k);
  }

  // ---------------------------------------------------------------- the other half

  /** A handler that is cut off leaves its row without a witness if it was the last one. */
  lemma CutOffLoses(cfg: Config, m: Machine, a: Action, j: nat, k: RowKey)
    requires Inv(cfg, m) && k in m.store.rows && CutsOff(m, a, j) && Owes(m.procs[j]) == Some(k)
    requires !Terminal(m.store.rows[k].status) && !WitnessedBut(m, j, k)
    ensures k in Apply(cfg, m, a).store.rows && !RowSafe(Apply(cfg, m, a), k)
  {
    var p := m.procs[j];
    assert ProcOk(cfg, m.store, p);
    if a.Crash? {
      OwedAfter(m.procs, j, Idle, k);
    } else {
      assert Advance(cfg, m.store, p) == Next(m.store, CrawlFail(p.ev, p.luck.error));
      OwedAfter(m.procs, j, CrawlFail(p.ev, p.luck.error), k);
    }
  }

  lemma MarkLoses(cfg: Config, m: Machine, j: nat, k: RowKey)
    requires k in m.store.rows && Marks(m, Progress(j), j) && KeyOf(m.procs[j].ev) == k && !Witnessed(m, k)
    ensures k in Apply(cfg, m, Progress(j)).store.rows && !RowSafe(Apply(cfg, m, Progress(j)), k)
  {
    var p := m.procs[j];
    var n := Advance(cfg, m.store, p);
    assert n == StepMark(m.store, p.ev, p.storageKey, p.checksum, p.links, p.luck);
    OwedAfter(m.procs, j, n.proc, k);
    forall i
      ensures LiveAt(n.store, m.taken, i, k) ==> LiveAt(m.store, m.taken, i, k)
    {
    }
  }

  lemma LosesIsUnsafe(cfg: Config, m: Machine, a: Action, k: RowKey)
    requires Inv(cfg, m) && k in m.store.rows && Loses(m, a, k)
    ensures k in Apply(cfg, m, a).store.rows && !RowSafe(Apply(cfg, m, a), k)
  {
    var j: nat :| LosesByCut(m, a, j, k) || LosesByMark(m, a, j, k);
    if LosesByCut(m, a, j, k) {
      CutOffLoses(cfg, m, a, j, k);
    } else {
      MarkLoses(cfg, m, j, k);
    }
  }

  // ---------------------------------------------------------------- whole runs

  ghost predicate SafeThroughout(cfg: Config, actions: seq<Action>) {
    forall n :: 0 <= n <= |actions| ==> AllSafe(Run(cfg, INITIAL, actions[..n]))
  }

  /** Some step of the run loses a row. */
  ghost predicate LosesSomewhere(cfg: Config, actions: seq<Action>) {
    exists n, k :: 0 <= n < |actions| && k in Run(cfg, INITIAL, actions[..n]).store.rows &&
      Loses(Run(cfg, INITIAL, actions[..n]), actions[n], k)
  }

  lemma {:induction false} SafeUnlessLost(cfg: Config, actions: seq<Action>)
    requires cfg.maxAttempts >= 1 && !LosesSomewhere(cfg, actions)
    ensures AllSafe(Run(cfg, INITIAL, actions))
  {
    if actions != [] {
      var n := |actions| - 1;
      var init, m := actions[..n], Run(cfg, INITIAL, actions[..n]);
      assert !LosesSomewhere(cfg, init) by {
        assert forall i :: 0 <= i < n ==> init[..i] == actions[..i] && init[i] == actions[i];
      }
      SafeUnlessLost(cfg, init);
      RunFlow(cfg, init);
      forall k | k in Apply(cfg, m, actions[n]).store.rows
        ensures RowSafe(Apply(cfg, m, actions[n]), k)
      {
        ApplySafe(cfg, m, actions[n], k);
      }
    }
  }

  /** Over any interleaving, crash and redelivery: at every point of the run every row is terminal, or owed by a
      handler, or has a live message, or its page is in the DLQ history, exactly if no step of the run loses a row. */
  lemma {:induction false} NoRowIsLostIff(cfg: Config, actions: seq<Action>)
    requires cfg.maxAttempts >= 1
    ensures SafeThroughout(cfg, actions) <==> !LosesSomewhere(cfg, actions)
  {
    if LosesSomewhere(cfg, actions) {
      var n, k :| 0 <= n < |actions| && k in Run(cfg, INITIAL, actions[..n]).store.rows &&
        Loses(Run(cfg, INITIAL, actions[..n]), actions[n], k);
      RunInv(cfg, INITIAL, actions[..n]);
      LosesIsUnsafe(cfg, Run(cfg, INITIAL, actions[..n]), actions[n], k);
      assert actions[..n + 1][..n] == actions[..n];
      assert !AllSafe(Run(cfg, INITIAL, actions[..n + 1]));
    } else {
      forall n | 0 <= n <= |actions|
        ensures AllSafe(Run(cfg, INITIAL, actions[..n]))
      {
        assert forall i :: 0 <= i < n ==> actions[..n][..i] == actions[..i] && actions[..n][i] == actions[i];
        SafeUnlessLost(cfg, actions[..n]);
      }
    }
  }

  // ---------------------------------------------------------------- guards that suffice

  predicate Settled(s: Store, k: RowKey) {
    k in s.rows && Terminal(s.rows[k].status)
  }

  /** No handler crashes that still owes a row something or is about to mark it, no publication of a queued link
      raises, and a crawler marks a page only while its row is not settled or the parser has not claimed the page. */
  predicate Guarded(m: Machine, a: Action) {
    && (a.Crash? && a.proc < |m.procs| ==> Owes(m.procs[a.proc]) == None && !m.procs[a.proc].CrawlMark?)
    && (a.Progress? && a.proc < |m.procs| ==>
          var p := m.procs[a.proc];
          && (p.CrawlEmit? ==> !Strikes(p.luck))
          && (p.CrawlMark? && !Strikes(p.luck) && Settled(m.store, KeyOf(p.ev)) ==>
                Claim(p.ev.eventId, Parser) !in m.store.ledger))
  }

  lemma GuardedLosesNothing(m: Machine, a: Action, k: RowKey)
    requires Flow(m) && Guarded(m, a) && k in m.store.rows
    ensures !Loses(m, a, k)
  {
    forall j: nat | Marks(m, a, j) && KeyOf(m.procs[j].ev) == k && Terminal(m.store.rows[k].status)
      ensures Live(m.store, m.taken, k)
    {
      var p := m.procs[j];
      assert MarkBacked(m.store.log, p);
      var i :| 0 <= i < |m.store.log| && IsFetch(m.store.log[i], p.ev.eventId) && MessageKey(m.store.log[i]) == k;
      assert LiveAt(m.store, m.taken, i, k);
    }
  }

  ghost predicate GuardedRun(cfg: Config, actions: seq<Action>) {
    forall n :: 0 <= n < |actions| ==> Guarded(Run(cfg, INITIAL, actions[..n]), actions[n])
  }

  lemma {:induction false} GuardedRunSafe(cfg: Config, actions: seq<Action>)
    requires cfg.maxAttempts >= 1 && GuardedRun(cfg, actions)
    ensures AllSafe(Run(cfg, INITIAL, actions))
  {
    forall n, k | 0 <= n < |actions| && k in Run(cfg, INITIAL, actions[..n]).store.rows
      ensures !Loses(Run(cfg, INITIAL, actions[..n]), actions[n], k)
    {
      RunFlow(cfg, actions[..n]);
      GuardedLosesNothing(Run(cfg, INITIAL, actions[..n]), actions[n], k);
    }
    SafeUnlessLost(cfg, actions);
  }

  /** With any number of handlers interleaved under the guards: whenever no handler owes the row anything, it is
      terminal, or a live message is about it, or the DLQ history holds its page. */
  lemma {:induction false} NoRowIsLost(cfg: Config, actions: seq<Action>, k: RowKey)
    requires cfg.maxAttempts >= 1 && GuardedRun(cfg, actions)
    requires k in Run(cfg, INITIAL, actions).store.rows && !Owed(Run(cfg, INITIAL, actions).procs, k)
    ensures var m := Run(cfg, INITIAL, actions);
            Terminal(m.store.rows[k].status) || Live(m.store, m.taken, k) || DeadPage(m.store, k)
  {
    GuardedRunSafe(cfg, actions);
    assert RowSafe(Run(cfg, INITIAL, actions), k);
  }

  // ---------------------------------------------------------------- drained pipelines

  /** The row whose status the crawler has yet to move on from `claimed`. */
  function Claimer(p: Proc): Option<RowKey> {
    match p
    case CrawlGate(ev, _) => Some(KeyOf(ev))
    case CrawlSkip(ev, _) => Some(KeyOf(ev))
    case CrawlFetch(ev, _) => Some(KeyOf(ev))
    case CrawlUnchanged(ev, _, _) => Some(KeyOf(ev))
    case CrawlPublish(ev, _, _, _, _) => Some(KeyOf(ev))
    case CrawlMark(ev, _, _, _, _) => Some(KeyOf(ev))
    case CrawlFail(ev, _) => Some(KeyOf(ev))
    case _ => None
  }

  /** The row whose first message the handler has yet to publish. */
  function Publisher(p: Proc): Option<RowKey> {
    if PendingOf(p).Publishing? then Some(PendingOf(p).key) else None
  }

  ghost predicate LiveDiscovery(s: Store, taken: set<nat>, k: RowKey) {
    exists i :: LiveAt(s, taken, i, k) && s.log[i].OnDiscovered?
  }

  /** A queued row is about to be discovered, a claimed one is being crawled. */
  ghost predicate StatusBacked(m: Machine, k: RowKey)
    requires k in m.store.rows
  {
    && (m.store.rows[k].status == Queued ==>
          LiveDiscovery(m.store, m.taken, k) || exists j :: 0 <= j < |m.procs| && Publisher(m.procs[j]) == Some(k))
    && (m.store.rows[k].status == Claimed ==>
          exists j :: 0 <= j < |m.procs| && Claimer(m.procs[j]) == Some(k))
  }

  /** What one step means for a claimed or queued row. */
  ghost predicate MovesOn(s: Store, p: Proc, n: Next, k: RowKey) {
    k in n.store.rows ==>
      && (n.store.rows[k].status == Claimed ==>
            RowKept(s, n.store, k) && (Claimer(p) == Some(k) ==> Claimer(n.proc) == Some(k)))
      && (n.store.rows[k].status == Queued ==> RowKept(s, n.store, k) || Publisher(n.proc) == Some(k))
  }

  /** What the step means for the row whose first message it was to publish. */
  ghost predicate Announces(s: Store, taken: set<nat>, p: Proc, n: Next) {
    Publisher(p).Some? ==>
      LiveAt(n.store, taken, |s.log|, Publisher(p).value) && n.store.log[|s.log|].OnDiscovered?
  }

  predicate FollowsLinks(p: Proc) {
    p.CrawlLinks? || p.CrawlQueue? || p.CrawlEmit?
  }

  lemma FollowerMovesOn(cfg: Config, s: Store, p: Proc, k: RowKey)
    requires ProcOk(cfg, s, p) && FollowsLinks(p)
    ensures MovesOn(s, p, Advance(cfg, s, p), k)
  {
  }

  lemma CrawlerMovesOn(cfg: Config, s: Store, p: Proc, k: RowKey)
    requires ProcOk(cfg, s, p) && DutyOf(p).Crawls?
    ensures MovesOn(s, p, Advance(cfg, s, p), k)
  {
    if FollowsLinks(p) {
      FollowerMovesOn(cfg, s, p, k);
    }
  }

  lemma CleanerMovesOn(cfg: Config, s: Store, p: Proc, k: RowKey)
    requires ProcOk(cfg, s, p) && DutyOf(p).Cleans?
    ensures MovesOn(s, p, Advance(cfg, s, p), k)
  {
  }

  lemma SubmissionMovesOn(cfg: Config, s: Store, p: Proc, k: RowKey)
    requires ProcOk(cfg, s, p) && DutyOf(p).Submits?
    ensures MovesOn(s, p, Advance(cfg, s, p), k)
  {
  }

  lemma OthersMoveOn(cfg: Config, s: Store, p: Proc, k: RowKey)
    requires ProcOk(cfg, s, p) && !DutyOf(p).Crawls?
    ensures MovesOn(s, p, Advance(cfg, s, p), k)
  {
    if DutyOf(p).Cleans? {
      CleanerMovesOn(cfg, s, p, k);
    } else if DutyOf(p).Submits? {
      SubmissionMovesOn(cfg, s, p, k);
    }
  }

  lemma PublisherAnnounces(cfg: Config, s: Store, taken: set<nat>, p: Proc)
    requires ProcOk(cfg, s, p) && LedgerOk(s) && (p.CrawlEmit? ==> !Strikes(p.luck))
    ensures Announces(s, taken, p, Advance(cfg, s, p))
  {
    if p.CrawlEmit? {
      assert Advance(cfg, s, p) == StepEmit(s, p.ev, p.link, p.links, p.luck);
    }
  }

  lemma DiscoveryKept(s: Store, s': Store, taken: set<nat>, k: RowKey)
    requires Quietly(s, s') && LiveDiscovery(s, taken, k)
    ensures LiveDiscovery(s', taken, k)
  {
    var i :| LiveAt(s, taken, i, k) && s.log[i].OnDiscovered?;
    assert LiveAt(s', taken, i, k) && s'.log[i].OnDiscovered?;
  }

  lemma ProgressBacked(cfg: Config, m: Machine, j: nat, k: RowKey)
    requires Inv(cfg, m) && j < |m.procs| && Guarded(m, Progress(j))
    requires k in Apply(cfg, m, Progress(j)).store.rows && (k in m.store.rows ==> StatusBacked(m, k))
    ensures StatusBacked(Apply(cfg, m, Progress(j)), k)
  {
    var s, p := m.store, m.procs[j];
    var n := Advance(cfg, s, p);
    var procs' := m.procs[j := n.proc];
    assert ProcOk(cfg, s, p);
    if DutyOf(p).Crawls? { CrawlerMovesOn(cfg, s, p, k); } else { OthersMoveOn(cfg, s, p, k); }
    PublisherAnnounces(cfg, s, m.taken, p);
    AdvanceAppends(cfg, s, p);
    assert procs'[j] == n.proc && forall i :: 0 <= i < |m.procs| && i != j ==> procs'[i] == m.procs[i];
    if k in s.rows && LiveDiscovery(s, m.taken, k) {
      DiscoveryKept(s, n.store, m.taken, k);
    }
  }

  lemma DeliveryBacked(cfg: Config, m: Machine, i: nat, input: Input, k: RowKey)
    requires Inv(cfg, m) && i < |m.store.log| && k in m.store.rows && StatusBacked(m, k)
    ensures k in Apply(cfg, m, Delivery(i, input)).store.rows
    ensures StatusBacked(Apply(cfg, m, Delivery(i, input)), k)
  {
    var s, msg := m.store, m.store.log[i];
    var n, m' := Deliver(s, msg, input), Apply(cfg, m, Delivery(i, input));
    assert MessageOk(cfg, s, msg);
    assert forall j :: 0 <= j < |m.procs| ==> m'.procs[j] == m.procs[j];
    if n.proc != Idle && msg.OnDiscovered? && KeyOf(msg.discovered) == k {
      assert Claimer(m'.procs[|m.procs|]) == Some(k);
    } else if LiveDiscovery(s, m.taken, k) && n.proc != Idle {
      var j :| LiveAt(s, m.taken, j, k) && s.log[j].OnDiscovered?;
      LiveAfterDelivery(cfg, s, m.taken, i, j, k);
      assert LiveAt(n.store, TakenAfter(s, m.taken, i), j, k);
    }
  }

  lemma ApplyBacked(cfg: Config, m: Machine, a: Action, k: RowKey)
    requires Inv(cfg, m) && Guarded(m, a) && k in Apply(cfg, m, a).store.rows
    requires k in m.store.rows ==> StatusBacked(m, k)
    ensures StatusBacked(Apply(cfg, m, a), k)
  {
    var m' := Apply(cfg, m, a);
    if !a.Progress? {
      RowWasThere(cfg, m, a, k);
    }
    match a
    case Delivery(i, input) =>
      if i < |m.store.log| { DeliveryBacked(cfg, m, i, input, k); }
    case Progress(j) =>
      if j < |m.procs| { ProgressBacked(cfg, m, j, k); }
    case Crash(j) => CrashBacked(cfg, m, j, k);
    case _ =>
      assert forall j :: 0 <= j < |m.procs| ==> m'.procs[j] == m.procs[j];
      if LiveDiscovery(m.store, m.taken, k) {
        DiscoveryKept(m.store, m'.store, m.taken, k);
      }
  }

  lemma CrashBacked(cfg: Config, m: Machine, j: nat, k: RowKey)
    requires Guarded(m, Crash(j)) && k in m.store.rows && StatusBacked(m, k)
    ensures StatusBacked(Apply(cfg, m, Crash(j)), k)
  {
    var m' := Apply(cfg, m, Crash(j));
    if j < |m.procs| {
      assert Publisher(m.procs[j]) == None && Claimer(m.procs[j]) == None;
      assert forall i :: 0 <= i < |m.procs| && i != j ==> m'.procs[i] == m.procs[i];
    }
  }

  lemma GuardedPrefix(cfg: Config, actions: seq<Action>)
    requires actions != [] && GuardedRun(cfg, actions)
    ensures GuardedRun(cfg, actions[..|actions| - 1])
    ensures Guarded(Run(cfg, INITIAL, actions[..|actions| - 1]), actions[|actions| - 1])
  {
    var n := |actions| - 1;
    var init := actions[..n];
    forall i | 0 <= i < n
      ensures Guarded(Run(cfg, INITIAL, init[..i]), init[i])
    {
      assert init[..i] == actions[..i] && init[i] == actions[i];
    }
  }

  lemma {:induction false} RunBacked(cfg: Config, actions: seq<Action>, k: RowKey)
    requires cfg.maxAttempts >= 1 && GuardedRun(cfg, actions) && k in Run(cfg, INITIAL, actions).store.rows
    ensures StatusBacked(Run(cfg, INITIAL, actions), k)
  {
    if actions != [] {
      var n := |actions| - 1;
      var init := actions[..n];
      RunInv(cfg, INITIAL, init);
      GuardedPrefix(cfg, actions);
      if k in Run(cfg, INITIAL, init).store.rows {
        RunBacked(cfg, init, k);
      }
      ApplyBacked(cfg, Run(cfg, INITIAL, init), actions[n], k);
    }
  }

  /** Nothing is in flight: no handler is in progress, every claimable event is claimed, every failure taken. */
  ghost predicate Drained(m: Machine) {
    && (forall j :: 0 <= j < |m.procs| ==> m.procs[j] == Idle)
    && forall i :: 0 <= i < |m.store.log| ==>
         match StageClaim(m.store.log[i])
         case Some(c) => c in m.store.ledger
         case None => m.store.log[i].OnFailed? ==> i in m.taken
  }

  /** So a drained pipeline leaves no row queued or claimed: a row that is not settled was fetched, and its page is
      in the DLQ history. */
  lemma {:induction false} DrainedRowsAreSettled(cfg: Config, actions: seq<Action>, k: RowKey)
    requires cfg.maxAttempts >= 1 && GuardedRun(cfg, actions)
    requires Drained(Run(cfg, INITIAL, actions)) && k in Run(cfg, INITIAL, actions).store.rows
    ensures var m := Run(cfg, INITIAL, actions);
            Terminal(m.store.rows[k].status) || (m.store.rows[k].status == Fetched && DeadPage(m.store, k))
  {
    NoRowIsLost(cfg, actions, k);
    RunBacked(cfg, actions, k);
  }
}
