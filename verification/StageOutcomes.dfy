/** What the handlers of the other stages leave behind when nothing disturbs them, told field by field. */
module StageOutcomes {
  import opened Wrappers
  import opened Events
  import opened Store
  import opened Handlers
  import opened Unrolling

  /** A failure or a dead letter starts its handler on every delivery: their topics have no claim. */
  lemma UnclaimedTopics(s: Store, f: UrlFailed, letter: DeadLetter, input: Input)
    ensures Deliver(s, OnFailed(f), input) == Next(s, RetryBody(f))
    ensures Deliver(s, OnDlq(letter), input) == Next(s, ReplayCounting(letter))
  {
  }

  /** Exactly m was published. */
  ghost predicate Published(s: Store, s': Store, m: Message) {
    s' == s.(log := s.log + [m])
  }

  /** Exactly m was published, an event that draws a new id. */
  ghost predicate PublishedFresh(s: Store, s': Store, m: Message) {
    s' == s.(log := s.log + [m], nextId := s.nextId + 1, origin := s'.origin)
  }

  // ---------------------------------------------------------------- parser

  /** The page as the cleaner gets it: what extraction returned, with this event's id and lineage. */
  function PageFor(ev: HtmlFetched, content: PageContent): Message {
    OnParsed(PageParsed(
      eventId := ev.eventId, jobId := ev.jobId, url := ev.url, normalized := ev.normalized, attempt := ev.attempt,
      storageKey := ev.storageKey, checksum := ev.checksum, page := content, depth := ev.depth))
  }

  /** The parser's failure keeps the lineage; it is not forced and has no page. */
  function ParserGivesUp(ev: HtmlFetched, error: Error, newId: EventId): Message {
    OnFailed(UrlFailed(
      eventId := newId, jobId := ev.jobId, url := ev.url, normalized := ev.normalized, attempt := ev.attempt,
      error := error, stage := Parser, depth := ev.depth, maxDepth := ev.maxDepth, domains := ev.domains,
      force := false, storageKey := None, checksum := None, pagePayload := None))
  }

  ghost predicate ParseOutcome(cfg: Config, s: Store, s': Store, ev: HtmlFetched, input: ParseInput) {
    match input
    case ParseReturns(content) => Published(s, s', PageFor(ev, content))
    case ParseRaises(error) =>
      if ev.attempt < cfg.maxAttempts then PublishedFresh(s, s', ParserGivesUp(ev, error, s.nextId))
      else Published(s, s', OnDlq(DeadFetched(ev)))
  }

  lemma ParseRuns(cfg: Config, s: Store, s': Store, ev: HtmlFetched, input: ParseInput)
    requires s' == RunAlone(cfg, s, ParseBody(ev, input))
    ensures ParseOutcome(cfg, s, s', ev, input)
  {
    UnrollTo(cfg, s, ParseBody(ev, input), StepParse(s, ev, input));
    if input.ParseRaises? {
      UnrollTo(cfg, s, ParseReport(ev, input.error), Next(ReportParse(cfg, s, ev, input.error), Idle));
    }
  }

  // ---------------------------------------------------------------- cleaner

  /** The cleaner's failure holds the page, and its object key and checksum; the depth limit is 1 and there are no
      domains, whatever the job's are. */
  function CleanerGivesUp(ev: PageParsed, error: Error, newId: EventId): Message {
    OnFailed(UrlFailed(
      eventId := newId, jobId := ev.jobId, url := ev.url, normalized := ev.normalized, attempt := ev.attempt,
      error := error, stage := Cleaner, depth := ev.depth, maxDepth := 1, domains := [],
      force := false, storageKey := Some(ev.storageKey), checksum := Some(ev.checksum), pagePayload := Some(ev)))
  }

  /** The transaction committed: the row is parsed, and a running job with all rows done is completed. */
  ghost predicate PageCleaned(s: Store, s': Store, ev: PageParsed) {
    && Transitioned(s.rows, s'.rows, RowKey(ev.jobId, ev.normalized), Parsed, None, None)
    && s' == s.(rows := s'.rows, jobs := s'.jobs)
    && s'.jobs == if ev.jobId in s.jobs && s.jobs[ev.jobId].status == Running && IsDone(s'.rows, ev.jobId)
                  then s.jobs[ev.jobId := s.jobs[ev.jobId].(status := Completed)] else s.jobs
  }

  /** The row failed with the error, and that was reported. */
  ghost predicate CleanFailed(cfg: Config, s: Store, s': Store, ev: PageParsed, error: Error) {
    exists s1: Store ::
      && s1 == s.(rows := s1.rows)
      && Transitioned(s.rows, s1.rows, RowKey(ev.jobId, ev.normalized), Failed, Some(error), None)
      && if ev.attempt < cfg.maxAttempts then PublishedFresh(s1, s', CleanerGivesUp(ev, error, s1.nextId))
         else Published(s1, s', OnDlq(DeadParsed(ev)))
  }

  ghost predicate CleanOutcome(cfg: Config, s: Store, s': Store, ev: PageParsed, input: CleanInput) {
    match input
    case CleanRaises(error) => CleanFailed(cfg, s, s', ev, error)
    case CleanCommits => PageCleaned(s, s', ev)
    case CleanCommitsThenRaises(error) =>
      exists s1: Store :: PageCleaned(s, s1, ev) && CleanFailed(cfg, s1, s', ev, error)
  }

  lemma CleanFailureRuns(cfg: Config, s: Store, s': Store, ev: PageParsed, error: Error)
    requires s' == RunAlone(cfg, s, CleanFail(ev, error))
    ensures CleanFailed(cfg, s, s', ev, error)
  {
    var s1 := Mark(s, ParsedKey(ev), Failed, Some(error), None);
    UnrollTo(cfg, s, CleanFail(ev, error), Next(s1, CleanReport(ev, error)));
    UnrollTo(cfg, s1, CleanReport(ev, error), Next(ReportClean(cfg, s1, ev, error), Idle));
    assert Transitioned(s.rows, s1.rows, RowKey(ev.jobId, ev.normalized), Failed, Some(error), None);
  }

  lemma CommitCleans(s: Store, ev: PageParsed)
    ensures PageCleaned(s, CleanCommit(s, ev), ev)
  {
    DoneRows(Mark(s, ParsedKey(ev), Parsed, None, None).rows, ev.jobId);
  }

  lemma CleanRuns(cfg: Config, s: Store, s': Store, ev: PageParsed, input: CleanInput)
    requires s' == RunAlone(cfg, s, CleanBody(ev, input))
    ensures CleanOutcome(cfg, s, s', ev, input)
  {
    UnrollTo(cfg, s, CleanBody(ev, input), StepClean(s, ev, input));
    CommitCleans(s, ev);
    if input.CleanRaises? {
      CleanFailureRuns(cfg, s, s', ev, input.error);
    } else if input.CleanCommitsThenRaises? {
      CleanFailureRuns(cfg, CleanCommit(s, ev), s', ev, input.error);
    }
  }

  // ---------------------------------------------------------------- retry worker

  /** The next attempt from the start: a discovery with a new id and the failure's lineage. */
  function NextAttempt(f: UrlFailed, newId: EventId): Message {
    OnDiscovered(UrlDiscovered(
      eventId := newId, jobId := f.jobId, url := f.url, normalized := f.normalized, attempt := f.attempt + 1,
      depth := f.depth, maxDepth := f.maxDepth, domains := f.domains, force := f.force), Retried)
  }

  /** The next attempt of a page at the cleaner: the page itself, with its old id. */
  function SamePageAgain(p: PageParsed, attempt: int): Message {
    OnParsed(PageParsed(
      eventId := p.eventId, jobId := p.jobId, url := p.url, normalized := p.normalized, attempt := attempt,
      storageKey := p.storageKey, checksum := p.checksum, page := p.page, depth := p.depth))
  }

  ghost predicate RetryOutcome(cfg: Config, s: Store, s': Store, f: UrlFailed) {
    if f.attempt >= cfg.maxAttempts then Published(s, s', OnDlq(DeadFailed(f)))
    else if f.stage == Cleaner && f.pagePayload.Some? then
      Published(s, s', SamePageAgain(f.pagePayload.value, f.attempt + 1))
    else PublishedFresh(s, s', NextAttempt(f, s.nextId))
  }

  lemma RetryRuns(cfg: Config, s: Store, s': Store, f: UrlFailed)
    requires s' == RunAlone(cfg, s, RetryBody(f))
    ensures RetryOutcome(cfg, s, s', f)
  {
    UnrollTo(cfg, s, RetryBody(f), Next(RetryStep(cfg, s, f), Idle));
  }

  // ---------------------------------------------------------------- DLQ replayer

  /** The id under which deliveries of a letter are counted: that of the event in it. */
  function IdIn(letter: DeadLetter): EventId {
    match letter
    case DeadDiscovered(e) => e.eventId
    case DeadFetched(e) => e.eventId
    case DeadParsed(e) => e.eventId
    case DeadFailed(e) => e.eventId
  }

  /** The delivery is counted; the letter is published again while the count is within the cap. */
  ghost predicate ReplayOutcome(cfg: Config, s: Store, s': Store, letter: DeadLetter) {
    var before := if IdIn(letter) in s.replays then s.replays[IdIn(letter)] else 0;
    && s' == s.(replays := s'.replays, log := s'.log)
    && s'.replays == s.replays[IdIn(letter) := before + 1]
    && s'.log == s.log + if before < cfg.maxReplays then [ExpectedReplay(letter)] else []
  }

  lemma ReplayPublishes(cfg: Config, s: Store, letter: DeadLetter)
    ensures Advance(cfg, s, ReplayPublishing(letter)).store == s.(log := s.log + [ExpectedReplay(letter)])
    ensures Advance(cfg, s, ReplayPublishing(letter)).proc == Idle
  {
    ReplayShapes(letter, s.nextId);
  }

  lemma ReplayRuns(cfg: Config, s: Store, s': Store, letter: DeadLetter)
    requires s' == RunAlone(cfg, s, ReplayCounting(letter))
    ensures ReplayOutcome(cfg, s, s', letter)
  {
    UnrollTo(cfg, s, ReplayCounting(letter), StepCounting(cfg, s, letter));
    var s1 := CountReplay(s, IdIn(letter));
    ReplayPublishes(cfg, s1, letter);
    UnrollTo(cfg, s1, ReplayPublishing(letter), Next(s1.(log := s1.log + [ExpectedReplay(letter)]), Idle));
  }
}
