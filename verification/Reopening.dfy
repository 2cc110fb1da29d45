/** When the rows of a job that is done stay terminal: exactly if neither a message on the log nor a handler in
    progress can start a crawl of the job again. */
module Reopening {
  import opened Wrappers
  import opened Events
  import opened Links
  import opened Store
  import opened Handlers
  import opened Machine
  import opened Lineage
  import opened LineageSteps
  import opened PageFlow
  import Jobs

  // ---------------------------------------------------------------- messages that cannot reopen a row

  /** A message that cannot lead to another crawl of job j: its discovery is claimed; its page is claimed or on its
      last attempt; a failure is the cleaner's, or was handled and will not be again. */
  predicate Quiet(cfg: Config, ledger: set<Claim>, m: Message, j: JobId, handled: bool) {
    MessageKey(m).job == j ==>
      match m
      case OnDiscovered(d, _) => Claim(d.eventId, Crawler) in ledger
      case OnFetched(h) => Claim(h.eventId, Parser) in ledger || h.attempt >= cfg.maxAttempts
      case OnFailed(f) => f.stage == Cleaner || handled
      case _ => true
  }

  /** `again`: failures that the retry worker has handled may be delivered to it once more. */
  ghost predicate LogQuiet(cfg: Config, m: Machine, j: JobId, again: bool) {
    forall i :: 0 <= i < |m.store.log| ==> Quiet(cfg, m.store.ledger, m.store.log[i], j, !again && i in m.taken)
  }

  // ---------------------------------------------------------------- handlers that cannot reopen a row

  predicate LastTry(cfg: Config, ev: UrlDiscovered) {
    ev.attempt >= cfg.maxAttempts
  }

  /** The body raises at its next effect, and the failure goes to the DLQ. */
  predicate EndsDead(cfg: Config, ev: UrlDiscovered, luck: Luck) {
    Strikes(luck) && LastTry(cfg, ev)
  }

  /** The page is published on the last attempt, and the body raises before the row is marked. */
  predicate PublishCalm(cfg: Config, ev: UrlDiscovered, luck: Luck) {
    LastTry(cfg, ev) && (Strikes(luck) || Strikes(Spend(luck)))
  }

  predicate FetchCalm(cfg: Config, ev: UrlDiscovered, f: Fetch) {
    if f.FetchRaises? || f.status >= 400 then LastTry(cfg, ev)
    else if IsUnchanged(f) then !Strikes(f.luck) || LastTry(cfg, ev)
    else PublishCalm(cfg, ev, f.luck)
  }

  /** Every link before the body raises, or before the end, has been seen. */
  predicate LinksCalm(cfg: Config, seen: set<RowKey>, ev: UrlDiscovered, links: seq<Link>, luck: Luck) {
    if Strikes(luck) then LastTry(cfg, ev)
    else if links == [] then true
    else if LinkKey(ev, links[0]) in seen then LinksCalm(cfg, seen, ev, links[1..], Spend(luck))
    else EndsDead(cfg, ev, Spend(luck))
  }

  predicate CrawlerCalm(cfg: Config, seen: set<RowKey>, p: Proc) {
    match p
    case CrawlGate(ev, input) => !input.robotsAllow || FetchCalm(cfg, ev, input.fetch)
    case CrawlFetch(ev, input) => !input.robotsAllow || FetchCalm(cfg, ev, input.fetch)
    case CrawlUnchanged(ev, _, luck) => !Strikes(luck) || LastTry(cfg, ev)
    case CrawlPublish(ev, _, _, _, luck) => PublishCalm(cfg, ev, luck)
    case CrawlMark(ev, _, _, _, luck) => EndsDead(cfg, ev, luck)
    case CrawlLinks(ev, links, luck) => LinksCalm(cfg, seen, ev, links, luck)
    case CrawlQueue(ev, _, _, luck) => EndsDead(cfg, ev, luck)
    case CrawlEmit(ev, _, _, luck) => EndsDead(cfg, ev, luck)
    case CrawlFail(ev, _) => LastTry(cfg, ev)
    case CrawlReport(ev, _) => LastTry(cfg, ev)
    case _ => true
  }

  predicate ParserCalm(cfg: Config, p: Proc) {
    match p
    case ParseBody(page, input) => input.ParseReturns? || page.attempt >= cfg.maxAttempts
    case ParseReport(page, _) => page.attempt >= cfg.maxAttempts
    case _ => true
  }

  predicate SubmitCalm(seen: set<RowKey>, p: Proc) {
    match p
    case SubmitLoop(o, seeds, _) => forall seed :: seed in seeds ==> SeedKey(o, seed) in seen
    case _ => false
  }

  /** A handler whose remaining steps, whatever happens in between, leave the rows of job j terminal and start no
      other crawl of it. */
  predicate Calm(cfg: Config, seen: set<RowKey>, p: Proc, j: JobId) {
    match DutyOf(p)
    case Crawls(ev) => ev.jobId != j || CrawlerCalm(cfg, seen, p)
    case Parses(page) => page.jobId != j || ParserCalm(cfg, p)
    case Retries(f) => f.jobId != j || f.stage == Cleaner
    case Submits(o) => o.job != j || SubmitCalm(seen, p)
    case _ => true
  }

  ghost predicate AllCalm(cfg: Config, m: Machine, j: JobId) {
    forall i :: 0 <= i < |m.procs| ==> Calm(cfg, m.store.seen, m.procs[i], j)
  }

  /** The job is done and nothing is left that could reopen it. */
  ghost predicate Closed(cfg: Config, m: Machine, j: JobId, again: bool) {
    && j in m.store.jobs && AllTerminal(m.store.rows, j)
    && AllCalm(cfg, m, j) && LogQuiet(cfg, m, j, again)
  }

  // ---------------------------------------------------------------- a closed job stays closed

  /** A step leaves the job's rows terminal, publishes nothing that could reopen them, and its handler stays calm. */
  ghost predicate ClosedStep(cfg: Config, s: Store, n: Next, j: JobId) {
    && AllTerminal(n.store.rows, j)
    && Calm(cfg, n.store.seen, n.proc, j)
    && (|n.store.log| > |s.log| ==> Quiet(cfg, n.store.ledger, n.store.log[|s.log|], j, false))
  }

  lemma OtherFollowerCloses(cfg: Config, s: Store, p: Proc, j: JobId)
    requires (p.CrawlLinks? || p.CrawlQueue? || p.CrawlEmit?) && p.ev.jobId != j && AllTerminal(s.rows, j)
    ensures ClosedStep(cfg, s, Advance(cfg, s, p), j)
  {
  }

  lemma OtherCrawlerCloses(cfg: Config, s: Store, p: Proc, j: JobId)
    requires DutyOf(p).Crawls? && DutyOf(p).ev.jobId != j && AllTerminal(s.rows, j)
    ensures ClosedStep(cfg, s, Advance(cfg, s, p), j)
  {
    if p.CrawlLinks? || p.CrawlQueue? || p.CrawlEmit? {
      OtherFollowerCloses(cfg, s, p, j);
    } else if p.CrawlGate? || p.CrawlFetch? || p.CrawlReport? {
      OtherFetcherCloses(cfg, s, p, j);
    }
  }

  lemma OtherFetcherCloses(cfg: Config, s: Store, p: Proc, j: JobId)
    requires (p.CrawlGate? || p.CrawlFetch? || p.CrawlReport?) && p.ev.jobId != j && AllTerminal(s.rows, j)
    ensures ClosedStep(cfg, s, Advance(cfg, s, p), j)
  {
  }

  lemma CalmFollowerCloses(cfg: Config, s: Store, p: Proc, j: JobId)
    requires (p.CrawlLinks? || p.CrawlQueue? || p.CrawlEmit?) && CrawlerCalm(cfg, s.seen, p) && AllTerminal(s.rows, j)
    ensures ClosedStep(cfg, s, Advance(cfg, s, p), j)
  {
  }

  lemma CalmFetcherCloses(cfg: Config, s: Store, p: Proc, j: JobId)
    requires (p.CrawlGate? || p.CrawlFetch?) && CrawlerCalm(cfg, s.seen, p) && AllTerminal(s.rows, j)
    ensures ClosedStep(cfg, s, Advance(cfg, s, p), j)
  {
  }

  lemma CalmMarkerCloses(cfg: Config, s: Store, p: Proc, j: JobId)
    requires p.CrawlSkip? || p.CrawlUnchanged? || p.CrawlPublish? || p.CrawlMark? || p.CrawlFail? || p.CrawlReport?
    requires CrawlerCalm(cfg, s.seen, p) && AllTerminal(s.rows, j)
    ensures ClosedStep(cfg, s, Advance(cfg, s, p), j)
  {
  }

  lemma CalmCrawlerCloses(cfg: Config, s: Store, p: Proc, j: JobId)
    requires DutyOf(p).Crawls? && CrawlerCalm(cfg, s.seen, p) && AllTerminal(s.rows, j)
    ensures ClosedStep(cfg, s, Advance(cfg, s, p), j)
  {
    if p.CrawlLinks? || p.CrawlQueue? || p.CrawlEmit? {
      CalmFollowerCloses(cfg, s, p, j);
    } else if p.CrawlGate? || p.CrawlFetch? {
      CalmFetcherCloses(cfg, s, p, j);
    } else {
      CalmMarkerCloses(cfg, s, p, j);
    }
  }

  lemma ParserCloses(cfg: Config, s: Store, p: Proc, j: JobId)
    requires DutyOf(p).Parses? && Calm(cfg, s.seen, p, j) && AllTerminal(s.rows, j)
    ensures ClosedStep(cfg, s, Advance(cfg, s, p), j)
  {
  }

  lemma CommitCloses(cfg: Config, s: Store, ev: PageParsed, input: CleanInput, j: JobId)
    requires AllTerminal(s.rows, j)
    ensures ClosedStep(cfg, s, StepClean(s, ev, input), j)
  {
  }

  lemma CleanerCloses(cfg: Config, s: Store, p: Proc, j: JobId)
    requires DutyOf(p).Cleans? && AllTerminal(s.rows, j)
    ensures ClosedStep(cfg, s, Advance(cfg, s, p), j)
  {
    if p.CleanBody? {
      CommitCloses(cfg, s, p.parsed, p.clean, j);
    }
  }

  lemma RetryCloses(cfg: Config, s: Store, f: UrlFailed, j: JobId)
    requires FailedOk(cfg, s, f) && Calm(cfg, s.seen, RetryBody(f), j) && AllTerminal(s.rows, j)
    ensures ClosedStep(cfg, s, Next(RetryStep(cfg, s, f), Idle), j)
  {
  }

  lemma ReplayCloses(cfg: Config, s: Store, letter: DeadLetter, j: JobId)
    requires LetterOk(cfg, s, letter) && AllTerminal(s.rows, j)
    ensures ClosedStep(cfg, s, Next(ReplayStep(s, letter), Idle), j)
  {
    ReplayShapes(letter, s.nextId);
  }

  lemma SubmitCloses(cfg: Config, s: Store, p: Proc, j: JobId)
    requires DutyOf(p).Submits? && Calm(cfg, s.seen, p, j) && AllTerminal(s.rows, j)
    ensures ClosedStep(cfg, s, Advance(cfg, s, p), j)
  {
  }

  lemma AdvanceCloses(cfg: Config, s: Store, p: Proc, j: JobId)
    requires ProcOk(cfg, s, p) && Calm(cfg, s.seen, p, j) && AllTerminal(s.rows, j)
    ensures ClosedStep(cfg, s, Advance(cfg, s, p), j)
  {
    match DutyOf(p)
    case NoDuty =>
    case Crawls(ev) =>
      if ev.jobId == j { CalmCrawlerCloses(cfg, s, p, j); } else { OtherCrawlerCloses(cfg, s, p, j); }
    case Parses(_) => ParserCloses(cfg, s, p, j);
    case Cleans(_) => CleanerCloses(cfg, s, p, j);
    case Retries(f) => RetryCloses(cfg, s, f, j);
    case Replays(letter) =>
      if p.ReplayPublishing? { ReplayCloses(cfg, s, letter, j); }
    case Submits(_) => SubmitCloses(cfg, s, p, j);
  }

  lemma {:induction false} LinksCalmGrows(
      cfg: Config, seen: set<RowKey>, seen': set<RowKey>, ev: UrlDiscovered, links: seq<Link>, luck: Luck)
    requires seen <= seen' && LinksCalm(cfg, seen, ev, links, luck)
    ensures LinksCalm(cfg, seen', ev, links, luck)
  {
    if !Strikes(luck) && links != [] && LinkKey(ev, links[0]) in seen {
      LinksCalmGrows(cfg, seen, seen', ev, links[1..], Spend(luck));
    }
  }

  /** A calm handler stays calm when others mark URLs as seen. */
  lemma CalmGrows(cfg: Config, seen: set<RowKey>, seen': set<RowKey>, p: Proc, j: JobId)
    requires seen <= seen' && Calm(cfg, seen, p, j)
    ensures Calm(cfg, seen', p, j)
  {
    if p.CrawlLinks? && p.ev.jobId == j {
      LinksCalmGrows(cfg, seen, seen', p.ev, p.links, p.luck);
    }
  }

  lemma ProgressCloses(cfg: Config, m: Machine, i: nat, j: JobId, again: bool)
    requires Inv(cfg, m) && Closed(cfg, m, j, again) && i < |m.procs|
    ensures Closed(cfg, Apply(cfg, m, Progress(i)), j, again)
  {
    var s, p := m.store, m.procs[i];
    assert ProcOk(cfg, s, p) && Calm(cfg, s.seen, p, j);
    var n := Advance(cfg, s, p);
    AdvanceCloses(cfg, s, p, j);
    AdvanceAppends(cfg, s, p);
    AdvanceSees(cfg, s, p);
    Jobs.AdvanceJob(cfg, s, p, j);
    forall k | 0 <= k < |m.procs|
      ensures Calm(cfg, n.store.seen, m.procs[k], j)
    {
      CalmGrows(cfg, s.seen, n.store.seen, m.procs[k], j);
    }
    QuietAppended(cfg, m, n.store, j, again);
  }

  lemma QuietAppended(cfg: Config, m: Machine, s': Store, j: JobId, again: bool)
    requires LogQuiet(cfg, m, j, again) && s'.ledger == m.store.ledger
    requires s'.log == m.store.log || (|s'.log| == |m.store.log| + 1 && s'.log == m.store.log + [s'.log[|m.store.log|]])
    requires |s'.log| > |m.store.log| ==> Quiet(cfg, s'.ledger, s'.log[|m.store.log|], j, false)
    ensures LogQuiet(cfg, m.(store := s'), j, again)
  {
    forall i | 0 <= i < |s'.log|
      ensures Quiet(cfg, s'.ledger, s'.log[i], j, !again && i in m.taken)
    {
      if i < |m.store.log| {
        assert Quiet(cfg, m.store.ledger, m.store.log[i], j, !again && i in m.taken);
      }
    }
  }

  // ---------------------------------------------------------------- runs

  /** Unless failures may come again, none is delivered that was before. */
  predicate Allowed(m: Machine, a: Action, again: bool) {
    !again && a.Delivery? && a.at < |m.store.log| && m.store.log[a.at].OnFailed? ==> a.at !in m.taken
  }

  ghost predicate AllowedRun(cfg: Config, m: Machine, actions: seq<Action>, again: bool) {
    actions != [] ==>
      var init, last := actions[..|actions| - 1], actions[|actions| - 1];
      AllowedRun(cfg, m, init, again) && Allowed(Run(cfg, m, init), last, again)
  }

  lemma DeliverCloses(cfg: Config, m: Machine, i: nat, input: Input, j: JobId, again: bool)
    requires Inv(cfg, m) && i < |m.store.log| && Closed(cfg, m, j, again) && Allowed(m, Delivery(i, input), again)
    ensures var s, n := m.store, Deliver(m.store, m.store.log[i], input);
            && AllTerminal(n.store.rows, j) && Calm(cfg, n.store.seen, n.proc, j)
            && s.ledger <= n.store.ledger && n.store.log == s.log && n.store.jobs == s.jobs && n.store.seen == s.seen
  {
    assert MessageOk(cfg, m.store, m.store.log[i]);
    assert Quiet(cfg, m.store.ledger, m.store.log[i], j, !again && i in m.taken);
  }

  lemma DeliveryCloses(cfg: Config, m: Machine, i: nat, input: Input, j: JobId, again: bool)
    requires Inv(cfg, m) && i < |m.store.log| && Closed(cfg, m, j, again) && Allowed(m, Delivery(i, input), again)
    ensures Closed(cfg, Apply(cfg, m, Delivery(i, input)), j, again)
  {
    var m' := Apply(cfg, m, Delivery(i, input));
    DeliverCloses(cfg, m, i, input, j, again);
    assert m.taken <= m'.taken;
    forall k | 0 <= k < |m'.store.log|
      ensures Quiet(cfg, m'.store.ledger, m'.store.log[k], j, !again && k in m'.taken)
    {
      assert Quiet(cfg, m.store.ledger, m.store.log[k], j, !again && k in m.taken);
    }
  }

  lemma ApplyCloses(cfg: Config, m: Machine, a: Action, j: JobId, again: bool)
    requires Inv(cfg, m) && Closed(cfg, m, j, again) && Allowed(m, a, again)
    ensures Closed(cfg, Apply(cfg, m, a), j, again)
  {
    match a
    case Delivery(i, input) =>
      if i < |m.store.log| { DeliveryCloses(cfg, m, i, input, j, again); }
    case Progress(i) =>
      if i < |m.procs| { ProgressCloses(cfg, m, i, j, again); }
    case _ =>
  }

  lemma {:induction false} RunCloses(cfg: Config, m: Machine, more: seq<Action>, j: JobId, again: bool)
    requires cfg.maxAttempts >= 1 && Inv(cfg, m) && Closed(cfg, m, j, again) && AllowedRun(cfg, m, more, again)
    ensures Closed(cfg, Run(cfg, m, more), j, again)
  {
    if more != [] {
      var init := more[..|more| - 1];
      RunCloses(cfg, m, init, j, again);
      RunInv(cfg, m, init);
      ApplyCloses(cfg, Run(cfg, m, init), more[|more| - 1], j, again);
    }
  }

  // ---------------------------------------------------------------- anything else reopens it

  /** Some allowed continuation leaves a row of the job that is not terminal. */
  ghost predicate CanReopen(cfg: Config, m: Machine, j: JobId, again: bool) {
    exists more :: AllowedRun(cfg, m, more, again) && !AllTerminal(Run(cfg, m, more).store.rows, j)
  }

  lemma {:induction false} RunAfter(cfg: Config, m: Machine, a: Action, more: seq<Action>, again: bool)
    ensures Run(cfg, m, [a] + more) == Run(cfg, Apply(cfg, m, a), more)
    ensures AllowedRun(cfg, m, [a] + more, again) <==>
            Allowed(m, a, again) && AllowedRun(cfg, Apply(cfg, m, a), more, again)
  {
    if more == [] {
      assert [a] + more == [a] && [a][..0] == [];
    } else {
      var init := more[..|more| - 1];
      RunAfter(cfg, m, a, init, again);
      assert ([a] + more)[..|[a] + more| - 1] == [a] + init;
    }
  }

  lemma StepThenOpen(cfg: Config, m: Machine, a: Action, more: seq<Action>, j: JobId, again: bool)
    requires Allowed(m, a, again) && AllowedRun(cfg, Apply(cfg, m, a), more, again)
    requires !AllTerminal(Run(cfg, Apply(cfg, m, a), more).store.rows, j)
    ensures CanReopen(cfg, m, j, again)
  {
    RunAfter(cfg, m, a, more, again);
  }

  lemma StepThenReopen(cfg: Config, m: Machine, a: Action, j: JobId, again: bool)
    requires Allowed(m, a, again) && CanReopen(cfg, Apply(cfg, m, a), j, again)
    ensures CanReopen(cfg, m, j, again)
  {
    var more :| AllowedRun(cfg, Apply(cfg, m, a), more, again) &&
      !AllTerminal(Run(cfg, Apply(cfg, m, a), more).store.rows, j);
    StepThenOpen(cfg, m, a, more, j, again);
  }

  lemma OpenNow(cfg: Config, m: Machine, k: RowKey, again: bool)
    requires k in m.store.rows && !Terminal(m.store.rows[k].status)
    ensures CanReopen(cfg, m, k.job, again)
  {
    assert AllowedRun(cfg, m, [], again) && !AllTerminal(Run(cfg, m, []).store.rows, k.job);
  }

  /** The state after handler p has made its step. */
  function After(m: Machine, p: nat, n: Next): Machine
    requires p < |m.procs|
  {
    m.(store := n.store, procs := m.procs[p := n.proc])
  }

  lemma ProgressThenReopen(cfg: Config, m: Machine, p: nat, n: Next, j: JobId, again: bool)
    requires p < |m.procs| && Advance(cfg, m.store, m.procs[p]) == n && CanReopen(cfg, After(m, p, n), j, again)
    ensures CanReopen(cfg, m, j, again)
  {
    StepThenReopen(cfg, m, Progress(p), j, again);
  }

  /** A page that cannot be fetched, parsed or cleaned. */
  const BROKEN := Input(CrawlInput(true, FetchRaises(HttpStatus(500))), ParseRaises(HttpStatus(500)),
                        CleanRaises(HttpStatus(500)))

  lemma DiscoveryReopens(cfg: Config, m: Machine, i: nat, again: bool)
    requires i < |m.store.log| && m.store.log[i].OnDiscovered?
    requires Claim(m.store.log[i].discovered.eventId, Crawler) !in m.store.ledger
    ensures CanReopen(cfg, m, m.store.log[i].discovered.jobId, again)
  {
    var k := KeyOf(m.store.log[i].discovered);
    var m' := Apply(cfg, m, Delivery(i, BROKEN));
    assert k in m'.store.rows && m'.store.rows[k].status == Claimed;
    OpenNow(cfg, m', k, again);
    StepThenReopen(cfg, m, Delivery(i, BROKEN), k.job, again);
  }

  /** A discovery with a new id is unclaimed. */
  lemma NewDiscoveryReopens(cfg: Config, m: Machine, p: nat, d: UrlDiscovered, via: Via, q: Proc, again: bool)
    requires LedgerOk(m.store) && p < |m.procs| && d.eventId == m.store.nextId
    requires Advance(cfg, m.store, m.procs[p]) == Next(PublishFresh(m.store, OnDiscovered(d, via)), q)
    ensures CanReopen(cfg, m, d.jobId, again)
  {
    var n := Next(PublishFresh(m.store, OnDiscovered(d, via)), q);
    DiscoveryReopens(cfg, After(m, p, n), |m.store.log|, again);
    ProgressThenReopen(cfg, m, p, n, d.jobId, again);
  }

  /** The failure of a crawler or parser with attempts left. */
  predicate Retryable(cfg: Config, f: UrlFailed) {
    f.stage != Cleaner && f.attempt < cfg.maxAttempts
  }

  lemma RetryReopens(cfg: Config, m: Machine, p: nat, again: bool)
    requires LedgerOk(m.store) && p < |m.procs| && m.procs[p].RetryBody? && Retryable(cfg, m.procs[p].failed)
    ensures CanReopen(cfg, m, m.procs[p].failed.jobId, again)
  {
    NewDiscoveryReopens(cfg, m, p, RetriedEvent(m.procs[p].failed, m.store.nextId), Retried, Idle, again);
  }

  lemma FailureReopens(cfg: Config, m: Machine, i: nat, again: bool)
    requires LedgerOk(m.store) && i < |m.store.log| && m.store.log[i].OnFailed? && (again || i !in m.taken)
    requires Retryable(cfg, m.store.log[i].failed)
    ensures CanReopen(cfg, m, m.store.log[i].failed.jobId, again)
  {
    var m' := Apply(cfg, m, Delivery(i, BROKEN));
    assert m'.store == m.store && m'.procs == m.procs + [RetryBody(m.store.log[i].failed)];
    RetryReopens(cfg, m', |m.procs|, again);
    StepThenReopen(cfg, m, Delivery(i, BROKEN), m.store.log[i].failed.jobId, again);
  }

  ghost predicate TakenBounded(m: Machine) {
    forall i :: i in m.taken ==> i < |m.store.log|
  }

  /** A new failure was not handled before. */
  lemma NewFailureReopens(cfg: Config, m: Machine, p: nat, f: UrlFailed, again: bool)
    requires LedgerOk(m.store) && TakenBounded(m) && p < |m.procs| && Retryable(cfg, f)
    requires Advance(cfg, m.store, m.procs[p]) == Next(PublishFresh(m.store, OnFailed(f)), Idle)
    ensures CanReopen(cfg, m, f.jobId, again)
  {
    var n := Next(PublishFresh(m.store, OnFailed(f)), Idle);
    FailureReopens(cfg, After(m, p, n), |m.store.log|, again);
    ProgressThenReopen(cfg, m, p, n, f.jobId, again);
  }

  lemma ParserReopens(cfg: Config, m: Machine, p: nat, again: bool)
    requires LedgerOk(m.store) && TakenBounded(m) && p < |m.procs| && DutyOf(m.procs[p]).Parses?
    requires !ParserCalm(cfg, m.procs[p])
    ensures CanReopen(cfg, m, m.procs[p].page.jobId, again)
  {
    var q := m.procs[p];
    if q.ParseReport? {
      NewFailureReopens(cfg, m, p, ParseFailure(q.page, q.error, m.store.nextId), again);
    } else {
      var n := Next(m.store, ParseReport(q.page, q.parse.error));
      ReportReopens(cfg, After(m, p, n), p, again);
      ProgressThenReopen(cfg, m, p, n, q.page.jobId, again);
    }
  }

  lemma ReportReopens(cfg: Config, m: Machine, p: nat, again: bool)
    requires LedgerOk(m.store) && TakenBounded(m) && p < |m.procs| && m.procs[p].ParseReport?
    requires m.procs[p].page.attempt < cfg.maxAttempts
    ensures CanReopen(cfg, m, m.procs[p].page.jobId, again)
  {
    NewFailureReopens(cfg, m, p, ParseFailure(m.procs[p].page, m.procs[p].error, m.store.nextId), again);
  }

  lemma PageReopens(cfg: Config, m: Machine, i: nat, again: bool)
    requires LedgerOk(m.store) && TakenBounded(m) && i < |m.store.log| && m.store.log[i].OnFetched?
    requires Claim(m.store.log[i].fetched.eventId, Parser) !in m.store.ledger
    requires Claim(m.store.log[i].fetched.eventId, Crawler) in m.store.ledger
    requires m.store.log[i].fetched.eventId < m.store.nextId && m.store.log[i].fetched.attempt < cfg.maxAttempts
    ensures CanReopen(cfg, m, m.store.log[i].fetched.jobId, again)
  {
    var h := m.store.log[i].fetched;
    var m' := Apply(cfg, m, Delivery(i, BROKEN));
    assert m'.store == AddClaim(m.store, Claim(h.eventId, Parser));
    assert m'.procs == m.procs + [ParseBody(h, BROKEN.parse)];
    ParserReopens(cfg, m', |m.procs|, again);
    StepThenReopen(cfg, m, Delivery(i, BROKEN), h.jobId, again);
  }

  // ---------------------------------------------------------------- crawlers that reopen a row

  lemma CrawlReportReopens(cfg: Config, m: Machine, p: nat, again: bool)
    requires LedgerOk(m.store) && TakenBounded(m) && p < |m.procs| && m.procs[p].CrawlReport?
    requires !LastTry(cfg, m.procs[p].ev)
    ensures CanReopen(cfg, m, m.procs[p].ev.jobId, again)
  {
    var q := m.procs[p];
    NewFailureReopens(cfg, m, p, CrawlFailure(q.ev, q.error, m.store.nextId), again);
  }

  lemma CrawlFailReopens(cfg: Config, m: Machine, p: nat, again: bool)
    requires LedgerOk(m.store) && TakenBounded(m) && p < |m.procs| && m.procs[p].CrawlFail?
    requires !LastTry(cfg, m.procs[p].ev)
    ensures CanReopen(cfg, m, m.procs[p].ev.jobId, again)
  {
    var q := m.procs[p];
    var n := Next(Mark(m.store, KeyOf(q.ev), Failed, Some(q.error), None), CrawlReport(q.ev, q.error));
    CrawlReportReopens(cfg, After(m, p, n), p, again);
    ProgressThenReopen(cfg, m, p, n, q.ev.jobId, again);
  }

  /** The handler fails before the last attempt. */
  lemma FailingReopens(cfg: Config, m: Machine, p: nat, ev: UrlDiscovered, error: Error, again: bool)
    requires LedgerOk(m.store) && TakenBounded(m) && p < |m.procs| && !LastTry(cfg, ev)
    requires Advance(cfg, m.store, m.procs[p]) == Next(m.store, CrawlFail(ev, error))
    ensures CanReopen(cfg, m, ev.jobId, again)
  {
    var n := Next(m.store, CrawlFail(ev, error));
    CrawlFailReopens(cfg, After(m, p, n), p, again);
    ProgressThenReopen(cfg, m, p, n, ev.jobId, again);
  }

  lemma CrawlMarkReopens(cfg: Config, m: Machine, p: nat, again: bool)
    requires LedgerOk(m.store) && TakenBounded(m) && p < |m.procs| && m.procs[p].CrawlMark?
    requires !EndsDead(cfg, m.procs[p].ev, m.procs[p].luck)
    ensures CanReopen(cfg, m, m.procs[p].ev.jobId, again)
  {
    var q := m.procs[p];
    var n := StepMark(m.store, q.ev, q.storageKey, q.checksum, q.links, q.luck);
    if Strikes(q.luck) {
      FailingReopens(cfg, m, p, q.ev, q.luck.error, again);
    } else {
      OpenNow(cfg, After(m, p, n), KeyOf(q.ev), again);
      ProgressThenReopen(cfg, m, p, n, q.ev.jobId, again);
    }
  }

  lemma CrawlQueueReopens(cfg: Config, m: Machine, p: nat, again: bool)
    requires LedgerOk(m.store) && TakenBounded(m) && p < |m.procs| && m.procs[p].CrawlQueue?
    requires LinkKey(m.procs[p].ev, m.procs[p].link) !in m.store.rows
    requires !EndsDead(cfg, m.procs[p].ev, m.procs[p].luck)
    ensures CanReopen(cfg, m, m.procs[p].ev.jobId, again)
  {
    var q := m.procs[p];
    var n := StepQueue(m.store, q.ev, q.link, q.links, q.luck);
    if Strikes(q.luck) {
      FailingReopens(cfg, m, p, q.ev, q.luck.error, again);
    } else {
      OpenNow(cfg, After(m, p, n), LinkKey(q.ev, q.link), again);
      ProgressThenReopen(cfg, m, p, n, q.ev.jobId, again);
    }
  }

  lemma CrawlEmitReopens(cfg: Config, m: Machine, p: nat, again: bool)
    requires LedgerOk(m.store) && TakenBounded(m) && p < |m.procs| && m.procs[p].CrawlEmit?
    requires !EndsDead(cfg, m.procs[p].ev, m.procs[p].luck)
    ensures CanReopen(cfg, m, m.procs[p].ev.jobId, again)
  {
    var q := m.procs[p];
    if Strikes(q.luck) {
      FailingReopens(cfg, m, p, q.ev, q.luck.error, again);
    } else {
      NewDiscoveryReopens(cfg, m, p, ChildEvent(q.ev, q.link, m.store.nextId), Linked,
                          CrawlLinks(q.ev, q.links, Spend(q.luck)), again);
    }
  }

  /** The rows are seen, so a link that is not seen has none. */
  ghost predicate RowsSeen(s: Store) {
    forall k :: k in s.rows ==> k in s.seen
  }

  lemma {:induction false} CrawlLinksReopens(cfg: Config, m: Machine, p: nat, again: bool)
    requires LedgerOk(m.store) && TakenBounded(m) && RowsSeen(m.store) && p < |m.procs| && m.procs[p].CrawlLinks?
    requires !LinksCalm(cfg, m.store.seen, m.procs[p].ev, m.procs[p].links, m.procs[p].luck)
    ensures CanReopen(cfg, m, m.procs[p].ev.jobId, again)
    decreases |m.procs[p].links|
  {
    var q := m.procs[p];
    var n := StepLinks(m.store, q.ev, q.links, q.luck);
    if Strikes(q.luck) {
      FailingReopens(cfg, m, p, q.ev, q.luck.error, again);
    } else {
      if LinkKey(q.ev, q.links[0]) in m.store.seen {
        CrawlLinksReopens(cfg, After(m, p, n), p, again);
      } else {
        CrawlQueueReopens(cfg, After(m, p, n), p, again);
      }
      ProgressThenReopen(cfg, m, p, n, q.ev.jobId, again);
    }
  }

  lemma CrawlPublishReopens(cfg: Config, m: Machine, p: nat, again: bool)
    requires LedgerOk(m.store) && TakenBounded(m) && p < |m.procs| && m.procs[p].CrawlPublish?
    requires Claim(m.procs[p].ev.eventId, Crawler) in m.store.ledger && m.procs[p].ev.eventId < m.store.nextId
    requires Claim(m.procs[p].ev.eventId, Parser) !in m.store.ledger
    requires !PublishCalm(cfg, m.procs[p].ev, m.procs[p].luck)
    ensures CanReopen(cfg, m, m.procs[p].ev.jobId, again)
  {
    var q := m.procs[p];
    var n := StepPublish(m.store, q.ev, q.storageKey, q.checksum, q.links, q.luck);
    if Strikes(q.luck) {
      FailingReopens(cfg, m, p, q.ev, q.luck.error, again);
    } else {
      if LastTry(cfg, q.ev) {
        CrawlMarkReopens(cfg, After(m, p, n), p, again);
      } else {
        PageReopens(cfg, After(m, p, n), |m.store.log|, again);
      }
      ProgressThenReopen(cfg, m, p, n, q.ev.jobId, again);
    }
  }

  /** What the fetch of a reachable crawler needs. */
  ghost predicate MayFetch(m: Machine, ev: UrlDiscovered) {
    && LedgerOk(m.store) && TakenBounded(m) && ev.eventId < m.store.nextId
    && Claim(ev.eventId, Crawler) in m.store.ledger && Claim(ev.eventId, Parser) !in m.store.ledger
  }

  lemma UnchangedReopens(cfg: Config, m: Machine, p: nat, again: bool)
    requires LedgerOk(m.store) && TakenBounded(m) && p < |m.procs| && m.procs[p].CrawlUnchanged?
    requires Strikes(m.procs[p].luck) && !LastTry(cfg, m.procs[p].ev)
    ensures CanReopen(cfg, m, m.procs[p].ev.jobId, again)
  {
    FailingReopens(cfg, m, p, m.procs[p].ev, m.procs[p].luck.error, again);
  }

  lemma CrawlFetchReopens(cfg: Config, m: Machine, p: nat, again: bool)
    requires p < |m.procs| && m.procs[p].CrawlFetch? && MayFetch(m, m.procs[p].ev)
    requires m.procs[p].input.robotsAllow && !FetchCalm(cfg, m.procs[p].ev, m.procs[p].input.fetch)
    ensures CanReopen(cfg, m, m.procs[p].ev.jobId, again)
  {
    var ev, f := m.procs[p].ev, m.procs[p].input.fetch;
    var n := Next(m.store, AfterFetch(ev, f));
    if f.FetchRaises? || f.status >= 400 {
      CrawlFailReopens(cfg, After(m, p, n), p, again);
    } else if IsUnchanged(f) {
      UnchangedReopens(cfg, After(m, p, n), p, again);
    } else {
      CrawlPublishReopens(cfg, After(m, p, n), p, again);
    }
    ProgressThenReopen(cfg, m, p, n, ev.jobId, again);
  }

  lemma OpenGateReopens(cfg: Config, m: Machine, p: nat, again: bool)
    requires p < |m.procs| && m.procs[p].CrawlGate? && MayFetch(m, m.procs[p].ev)
    requires m.procs[p].ev.force || m.procs[p].ev.normalized !in m.store.held
    requires m.procs[p].input.robotsAllow && !FetchCalm(cfg, m.procs[p].ev, m.procs[p].input.fetch)
    ensures CanReopen(cfg, m, m.procs[p].ev.jobId, again)
  {
    var ev := m.procs[p].ev;
    var n := StepGate(m.store, ev, m.procs[p].input);
    CrawlFetchReopens(cfg, After(m, p, n), p, again);
    ProgressThenReopen(cfg, m, p, n, ev.jobId, again);
  }

  /** A held URL is let go when its key expires. */
  lemma CrawlGateReopens(cfg: Config, m: Machine, p: nat, again: bool)
    requires p < |m.procs| && m.procs[p].CrawlGate? && MayFetch(m, m.procs[p].ev)
    requires m.procs[p].input.robotsAllow && !FetchCalm(cfg, m.procs[p].ev, m.procs[p].input.fetch)
    ensures CanReopen(cfg, m, m.procs[p].ev.jobId, again)
  {
    var u := m.procs[p].ev.normalized;
    OpenGateReopens(cfg, Apply(cfg, m, ExpireHold(u)), p, again);
    StepThenReopen(cfg, m, ExpireHold(u), m.procs[p].ev.jobId, again);
  }

  lemma CrawlerReopens(cfg: Config, m: Machine, p: nat, again: bool)
    requires Inv(cfg, m) && Flow(m) && p < |m.procs| && DutyOf(m.procs[p]).Crawls?
    requires !CrawlerCalm(cfg, m.store.seen, m.procs[p])
    ensures CanReopen(cfg, m, DutyOf(m.procs[p]).ev.jobId, again)
  {
    var q := m.procs[p];
    assert ProcOk(cfg, m.store, q) && ProcFlow(m.store.log, q);
    match q
    case CrawlGate(_, _) => CrawlGateReopens(cfg, m, p, again);
    case CrawlFetch(_, _) => CrawlFetchReopens(cfg, m, p, again);
    case CrawlUnchanged(_, _, _) => UnchangedReopens(cfg, m, p, again);
    case CrawlPublish(_, _, _, _, _) => CrawlPublishReopens(cfg, m, p, again);
    case CrawlMark(_, _, _, _, _) => CrawlMarkReopens(cfg, m, p, again);
    case CrawlLinks(_, _, _) => CrawlLinksReopens(cfg, m, p, again);
    case CrawlQueue(_, _, _, _) => CrawlQueueReopens(cfg, m, p, again);
    case CrawlEmit(_, _, _, _) => CrawlEmitReopens(cfg, m, p, again);
    case CrawlFail(_, _) => CrawlFailReopens(cfg, m, p, again);
    case CrawlReport(_, _) => CrawlReportReopens(cfg, m, p, again);
    case CrawlSkip(_, _) =>
  }

  // ---------------------------------------------------------------- submissions that reopen a row

  lemma SubmitQueueReopens(cfg: Config, m: Machine, p: nat, again: bool)
    requires p < |m.procs| && m.procs[p].SubmitQueue? && SeedKey(m.procs[p].order, m.procs[p].seed) !in m.store.rows
    ensures CanReopen(cfg, m, m.procs[p].order.job, again)
  {
    var q := m.procs[p];
    var n := Next(EnsureQueued(m.store, SeedKey(q.order, q.seed), SeedDepth(q.order, q.seed)),
                  SubmitEmit(q.order, q.seed, q.seeds, q.queued));
    OpenNow(cfg, After(m, p, n), SeedKey(q.order, q.seed), again);
    ProgressThenReopen(cfg, m, p, n, q.order.job, again);
  }

  lemma SubmitEmitReopens(cfg: Config, m: Machine, p: nat, again: bool)
    requires LedgerOk(m.store) && p < |m.procs| && m.procs[p].SubmitEmit?
    ensures CanReopen(cfg, m, m.procs[p].order.job, again)
  {
    var q := m.procs[p];
    NewDiscoveryReopens(cfg, m, p, SeedEvent(q.order, q.seed, m.store.nextId), Seeded,
                        SubmitLoop(q.order, q.seeds, q.queued + 1), again);
  }

  lemma {:induction false} SubmitLoopReopens(cfg: Config, m: Machine, p: nat, again: bool)
    requires RowsSeen(m.store) && p < |m.procs| && m.procs[p].SubmitLoop? && !SubmitCalm(m.store.seen, m.procs[p])
    ensures CanReopen(cfg, m, m.procs[p].order.job, again)
    decreases |m.procs[p].seeds|
  {
    var q := m.procs[p];
    var n := StepSeeds(m.store, q.order, q.seeds, q.queued);
    if SeedKey(q.order, q.seeds[0]) in m.store.seen {
      assert q.seeds == [q.seeds[0]] + q.seeds[1..];
      SubmitLoopReopens(cfg, After(m, p, n), p, again);
    } else {
      SubmitQueueReopens(cfg, After(m, p, n), p, again);
    }
    ProgressThenReopen(cfg, m, p, n, q.order.job, again);
  }

  lemma SubmissionReopens(cfg: Config, m: Machine, p: nat, again: bool)
    requires Inv(cfg, m) && p < |m.procs| && DutyOf(m.procs[p]).Submits? && !SubmitCalm(m.store.seen, m.procs[p])
    ensures CanReopen(cfg, m, DutyOf(m.procs[p]).order.job, again)
  {
    var q := m.procs[p];
    assert ProcOk(cfg, m.store, q);
    if q.SubmitLoop? {
      SubmitLoopReopens(cfg, m, p, again);
    } else if q.SubmitQueue? {
      SubmitQueueReopens(cfg, m, p, again);
    } else {
      SubmitEmitReopens(cfg, m, p, again);
    }
  }

  lemma UncalmReopens(cfg: Config, m: Machine, j: JobId, again: bool)
    requires Inv(cfg, m) && Flow(m) && !AllCalm(cfg, m, j)
    ensures CanReopen(cfg, m, j, again)
  {
    var p :| 0 <= p < |m.procs| && !Calm(cfg, m.store.seen, m.procs[p], j);
    assert ProcOk(cfg, m.store, m.procs[p]);
    match DutyOf(m.procs[p])
    case Crawls(_) => CrawlerReopens(cfg, m, p, again);
    case Parses(_) => ParserReopens(cfg, m, p, again);
    case Retries(_) => RetryReopens(cfg, m, p, again);
    case Submits(_) => SubmissionReopens(cfg, m, p, again);
    case _ =>
  }

  lemma LoudReopens(cfg: Config, m: Machine, j: JobId, again: bool)
    requires Inv(cfg, m) && TakenBounded(m) && !LogQuiet(cfg, m, j, again)
    ensures CanReopen(cfg, m, j, again)
  {
    var i :| 0 <= i < |m.store.log| &&
      !Quiet(cfg, m.store.ledger, m.store.log[i], j, !again && i in m.taken);
    assert MessageOk(cfg, m.store, m.store.log[i]);
    match m.store.log[i]
    case OnDiscovered(_, _) => DiscoveryReopens(cfg, m, i, again);
    case OnFetched(_) => PageReopens(cfg, m, i, again);
    case OnFailed(_) => FailureReopens(cfg, m, i, again);
    case _ =>
  }

  // ---------------------------------------------------------------- whole runs

  /** The rows of job j are terminal in every allowed continuation. */
  ghost predicate StaysTerminal(cfg: Config, m: Machine, j: JobId, again: bool) {
    forall more :: AllowedRun(cfg, m, more, again) ==> AllTerminal(Run(cfg, m, more).store.rows, j)
  }

  lemma ClosedStays(cfg: Config, m: Machine, j: JobId, again: bool)
    requires cfg.maxAttempts >= 1 && Inv(cfg, m) && Closed(cfg, m, j, again)
    ensures StaysTerminal(cfg, m, j, again)
  {
    forall more | AllowedRun(cfg, m, more, again)
      ensures AllTerminal(Run(cfg, m, more).store.rows, j)
    {
      RunCloses(cfg, m, more, j, again);
    }
  }

  lemma OpenReopens(cfg: Config, m: Machine, j: JobId, again: bool)
    requires Inv(cfg, m) && Flow(m) && j in m.store.jobs && !Closed(cfg, m, j, again)
    ensures CanReopen(cfg, m, j, again)
  {
    if !AllTerminal(m.store.rows, j) {
      var k :| k in m.store.rows && k.job == j && !Terminal(m.store.rows[k].status);
      OpenNow(cfg, m, k, again);
    } else if !AllCalm(cfg, m, j) {
      UncalmReopens(cfg, m, j, again);
    } else {
      LoudReopens(cfg, m, j, again);
    }
  }

  /** In any reachable state, for any job: its rows are terminal in every continuation, one that delivers no handled
      failure once more or one that may, exactly if they are now, every handler in progress is calm, and the log holds
      no unclaimed discovery of the job, no unclaimed page with attempts left, and no failure of its crawlers or
      parsers that is to be handled. */
  lemma {:induction false} RowsStayTerminalIff(cfg: Config, actions: seq<Action>, j: JobId, again: bool)
    requires cfg.maxAttempts >= 1 && j in Run(cfg, INITIAL, actions).store.jobs
    ensures var m := Run(cfg, INITIAL, actions);
            StaysTerminal(cfg, m, j, again) <==>
            AllTerminal(m.store.rows, j) && AllCalm(cfg, m, j) && LogQuiet(cfg, m, j, again)
  {
    var m := Run(cfg, INITIAL, actions);
    RunFlow(cfg, actions);
    if Closed(cfg, m, j, again) {
      ClosedStays(cfg, m, j, again);
    } else {
      OpenReopens(cfg, m, j, again);
    }
  }
}
