/** The workers as micro steps. A handler in progress is a `Proc`: what it still has to do, with the
    results its outside calls will give. `Advance` performs its next atomic effect on the store, so a
    handler can be interleaved with others or cut off by a crash at every point where the workers await. */
module Handlers {
  import opened Wrappers
  import opened Events
  import opened Links
  import opened Store

  datatype Config = Config(maxAttempts: int, maxReplays: int)

  /** When, counted in effects, the body of a try block raises. */
  datatype Luck = Fine | RaisesAfter(steps: nat, error: Error)

  predicate Strikes(l: Luck) {
    l.RaisesAfter? && l.steps == 0
  }

  function Spend(l: Luck): Luck
    requires !Strikes(l)
  {
    if l.Fine? then l else l.(steps := l.steps - 1)
  }

  /** A fetched page: HTTP status, body checksum, the hash get_hash returned, object key, links on it. */
  datatype Fetch =
    | FetchRaises(error: Error)
    | FetchReturns(status: int, checksum: string, stored: Option<string>, storageKey: string,
                   links: seq<Link>, luck: Luck)

  datatype CrawlInput = CrawlInput(robotsAllow: bool, fetch: Fetch)

  datatype ParseInput = ParseRaises(error: Error) | ParseReturns(page: PageContent)

  /** The cleaner's transaction rolls back, commits, or commits before the cache write raises. */
  datatype CleanInput = CleanRaises(error: Error) | CleanCommits | CleanCommitsThenRaises(error: Error)

  datatype Input = Input(crawl: CrawlInput, parse: ParseInput, clean: CleanInput)

  /** A seed, or a stale row of the `urls` table, that a job submission goes through. */
  datatype Seed = Seed(url: string, normalized: Url, depth: int)

  datatype SubmitRequest = SubmitRequest(
    seeds: seq<Seed>, seedDomains: seq<string>, maxDepth: nat, allowed: seq<string>, incremental: bool)

  /** What a submission keeps at hand after its job row is committed. */
  datatype Order = Order(job: JobId, maxDepth: int, domains: seq<string>, force: bool)

  datatype Proc =
    | Idle
    // crawler
    | CrawlGate(ev: UrlDiscovered, input: CrawlInput)
    | CrawlSkip(ev: UrlDiscovered, reason: Option<Error>)
    | CrawlFetch(ev: UrlDiscovered, input: CrawlInput)
    | CrawlUnchanged(ev: UrlDiscovered, checksum: string, luck: Luck)
    | CrawlPublish(ev: UrlDiscovered, storageKey: string, checksum: string, links: seq<Link>, luck: Luck)
    | CrawlMark(ev: UrlDiscovered, storageKey: string, checksum: string, links: seq<Link>, luck: Luck)
    | CrawlLinks(ev: UrlDiscovered, links: seq<Link>, luck: Luck)
    | CrawlQueue(ev: UrlDiscovered, link: Link, links: seq<Link>, luck: Luck)
    | CrawlEmit(ev: UrlDiscovered, link: Link, links: seq<Link>, luck: Luck)
    | CrawlFail(ev: UrlDiscovered, error: Error)
    | CrawlReport(ev: UrlDiscovered, error: Error)
    // parser
    | ParseBody(page: HtmlFetched, parse: ParseInput)
    | ParseReport(page: HtmlFetched, error: Error)
    // cleaner
    | CleanBody(parsed: PageParsed, clean: CleanInput)
    | CleanFail(parsed: PageParsed, error: Error)
    | CleanReport(parsed: PageParsed, error: Error)
    // retry worker and DLQ replayer
    | RetryBody(failed: UrlFailed)
    | ReplayCounting(letter: DeadLetter)
    | ReplayPublishing(letter: DeadLetter)
    // scheduler
    | SubmitLoop(order: Order, seeds: seq<Seed>, queued: nat)
    | SubmitQueue(order: Order, seed: Seed, seeds: seq<Seed>, queued: nat)
    | SubmitEmit(order: Order, seed: Seed, seeds: seq<Seed>, queued: nat)

  datatype Next = Next(store: Store, proc: Proc)

  /** `decide`: another attempt is made while the count is below the maximum. */
  predicate ShouldRetry(cfg: Config, attempt: int) {
    attempt < cfg.maxAttempts
  }

  // ---------------------------------------------------------------- crawler

  /** `if stored_hash and stored_hash == checksum`: an empty stored hash counts as none. */
  predicate IsUnchanged(f: Fetch)
    requires f.FetchReturns?
  {
    f.stored.Some? && f.stored.value != "" && f.stored.value == f.checksum
  }

  function AfterFetch(ev: UrlDiscovered, f: Fetch): Proc {
    match f
    case FetchRaises(error) => CrawlFail(ev, error)
    case FetchReturns(status, checksum, stored, storageKey, links, luck) =>
      if status >= 400 then CrawlFail(ev, HttpStatus(status))
      else if IsUnchanged(f) then CrawlUnchanged(ev, checksum, luck)
      else CrawlPublish(ev, storageKey, checksum, links, luck)
  }

  function FetchedEvent(ev: UrlDiscovered, storageKey: string, checksum: string): HtmlFetched {
    HtmlFetched(ev.eventId, ev.jobId, ev.url, ev.normalized, ev.attempt, storageKey, checksum,
                ev.depth, ev.maxDepth, ev.domains)
  }

  /** The links the crawler goes through: none at the depth limit, else the first 50 allowed ones. */
  function LinksToFollow(ev: UrlDiscovered, links: seq<Link>): seq<Link> {
    if ev.depth >= ev.maxDepth then [] else Limit(FilterLinks(links, ev.domains))
  }

  function ChildEvent(ev: UrlDiscovered, link: Link, id: EventId): UrlDiscovered {
    UrlDiscovered(id, ev.jobId, link.url, link.normalized, 1, ev.depth + 1, ev.maxDepth, ev.domains, false)
  }

  function CrawlFailure(ev: UrlDiscovered, error: Error, id: EventId): UrlFailed {
    UrlFailed(id, ev.jobId, ev.url, ev.normalized, ev.attempt, error, Crawler, ev.depth, ev.maxDepth,
              ev.domains, ev.force, None, None, None)
  }

  /** The global dedup gate: a forced crawl drops the key, any other must acquire it. */
  function StepGate(s: Store, ev: UrlDiscovered, input: CrawlInput): Next {
    if ev.force then Next(Release(s, ev.normalized), CrawlFetch(ev, input))
    else if ev.normalized in s.held then Next(s, CrawlSkip(ev, None))
    else Next(Hold(s, ev.normalized), CrawlFetch(ev, input))
  }

  /** Rate limiting, the robots check and the fetch leave the store alone. */
  function StepFetch(s: Store, ev: UrlDiscovered, input: CrawlInput): Next {
    Next(s, if !input.robotsAllow then CrawlSkip(ev, Some(RobotsDisallowed)) else AfterFetch(ev, input.fetch))
  }

  function StepUnchanged(s: Store, ev: UrlDiscovered, checksum: string, luck: Luck): Next {
    if Strikes(luck) then Next(s, CrawlFail(ev, luck.error))
    else Next(Mark(s, KeyOf(ev), Skipped, None, Some(Unchanged(checksum))), Idle)
  }

  function StepPublish(s: Store, ev: UrlDiscovered, key: string, checksum: string, links: seq<Link>, luck: Luck): Next {
    if Strikes(luck) then Next(s, CrawlFail(ev, luck.error))
    else Next(Publish(s, OnFetched(FetchedEvent(ev, key, checksum))), CrawlMark(ev, key, checksum, links, Spend(luck)))
  }

  function StepMark(s: Store, ev: UrlDiscovered, key: string, checksum: string, links: seq<Link>, luck: Luck): Next {
    if Strikes(luck) then Next(s, CrawlFail(ev, luck.error))
    else Next(Mark(s, KeyOf(ev), Fetched, None, Some(Stored(key, checksum))),
              CrawlLinks(ev, LinksToFollow(ev, links), Spend(luck)))
  }

  function LinkKey(ev: UrlDiscovered, link: Link): RowKey {
    RowKey(ev.jobId, link.normalized)
  }

  /** One turn of the link loop: a link already in the job's seen set is passed over. */
  function StepLinks(s: Store, ev: UrlDiscovered, links: seq<Link>, luck: Luck): Next {
    if Strikes(luck) then Next(s, CrawlFail(ev, luck.error))
    else if links == [] then Next(s, Idle)
    else if LinkKey(ev, links[0]) in s.seen then Next(s, CrawlLinks(ev, links[1..], Spend(luck)))
    else Next(AddSeen(s, LinkKey(ev, links[0])), CrawlQueue(ev, links[0], links[1..], Spend(luck)))
  }

  function StepQueue(s: Store, ev: UrlDiscovered, link: Link, links: seq<Link>, luck: Luck): Next {
    if Strikes(luck) then Next(s, CrawlFail(ev, luck.error))
    else Next(EnsureQueued(s, LinkKey(ev, link), ev.depth + 1), CrawlEmit(ev, link, links, Spend(luck)))
  }

  function StepEmit(s: Store, ev: UrlDiscovered, link: Link, links: seq<Link>, luck: Luck): Next {
    if Strikes(luck) then Next(s, CrawlFail(ev, luck.error))
    else Next(PublishFresh(s, OnDiscovered(ChildEvent(ev, link, s.nextId), Linked)), CrawlLinks(ev, links, Spend(luck)))
  }

  /** _publish_failure: a retryable failure gets a new event, an exhausted one goes to the DLQ. */
  function ReportCrawl(cfg: Config, s: Store, ev: UrlDiscovered, error: Error): Store {
    if ShouldRetry(cfg, ev.attempt) then PublishFresh(s, OnFailed(CrawlFailure(ev, error, s.nextId)))
    else Publish(s, OnDlq(DeadDiscovered(ev)))
  }

  // ---------------------------------------------------------------- parser

  function ParsedEvent(ev: HtmlFetched, page: PageContent): PageParsed {
    PageParsed(ev.eventId, ev.jobId, ev.url, ev.normalized, ev.attempt, ev.storageKey, ev.checksum, page, ev.depth)
  }

  function ParseFailure(ev: HtmlFetched, error: Error, id: EventId): UrlFailed {
    UrlFailed(id, ev.jobId, ev.url, ev.normalized, ev.attempt, error, Parser, ev.depth, ev.maxDepth,
              ev.domains, false, None, None, None)
  }

  function StepParse(s: Store, ev: HtmlFetched, input: ParseInput): Next {
    match input
    case ParseRaises(error) => Next(s, ParseReport(ev, error))
    case ParseReturns(page) => Next(Publish(s, OnParsed(ParsedEvent(ev, page))), Idle)
  }

  function ReportParse(cfg: Config, s: Store, ev: HtmlFetched, error: Error): Store {
    if ShouldRetry(cfg, ev.attempt) then PublishFresh(s, OnFailed(ParseFailure(ev, error, s.nextId)))
    else Publish(s, OnDlq(DeadFetched(ev)))
  }

  // ---------------------------------------------------------------- cleaner

  /** The failure keeps the whole page, but leaves the depth limit and the domains at their defaults. */
  function CleanFailure(ev: PageParsed, error: Error, id: EventId): UrlFailed {
    UrlFailed(id, ev.jobId, ev.url, ev.normalized, ev.attempt, error, Cleaner, ev.depth, 1,
              [], false, Some(ev.storageKey), Some(ev.checksum), Some(ev))
  }

  /** The cleaner's transaction, as far as the job's rows and status go. */
  function CleanCommit(s: Store, ev: PageParsed): Store {
    RefreshJob(Mark(s, ParsedKey(ev), Parsed, None, None), ev.jobId)
  }

  function StepClean(s: Store, ev: PageParsed, input: CleanInput): Next {
    match input
    case CleanRaises(error) => Next(s, CleanFail(ev, error))
    case CleanCommits => Next(CleanCommit(s, ev), Idle)
    case CleanCommitsThenRaises(error) => Next(CleanCommit(s, ev), CleanFail(ev, error))
  }

  function ReportClean(cfg: Config, s: Store, ev: PageParsed, error: Error): Store {
    if ShouldRetry(cfg, ev.attempt) then PublishFresh(s, OnFailed(CleanFailure(ev, error, s.nextId)))
    else Publish(s, OnDlq(DeadParsed(ev)))
  }

  // ---------------------------------------------------------------- retry worker, DLQ replayer

  function RetriedEvent(f: UrlFailed, id: EventId): UrlDiscovered {
    UrlDiscovered(id, f.jobId, f.url, f.normalized, f.attempt + 1, f.depth, f.maxDepth, f.domains, f.force)
  }

  function LetterId(letter: DeadLetter): EventId {
    match letter
    case DeadDiscovered(e) => e.eventId
    case DeadFetched(e) => e.eventId
    case DeadParsed(e) => e.eventId
    case DeadFailed(e) => e.eventId
  }

  /** What the retry worker publishes for a failure. */
  function RetryStep(cfg: Config, s: Store, f: UrlFailed): Store {
    if !ShouldRetry(cfg, f.attempt) then Publish(s, OnDlq(DeadFailed(f)))
    else if f.stage == Cleaner && f.pagePayload.Some? then
      Publish(s, OnParsed(f.pagePayload.value.(attempt := f.attempt + 1)))
    else PublishFresh(s, OnDiscovered(RetriedEvent(f, s.nextId), Retried))
  }

  function ReplayStep(s: Store, letter: DeadLetter): Store {
    match ReplayOf(letter, s.nextId)
    case Some(m) => Publish(s, m)
    case None => s
  }

  function StepCounting(cfg: Config, s: Store, letter: DeadLetter): Next {
    var s' := CountReplay(s, LetterId(letter));
    Next(s', if ReplayCount(s', LetterId(letter)) > cfg.maxReplays then Idle else ReplayPublishing(letter))
  }

  // ---------------------------------------------------------------- scheduler

  function RequestDomains(r: SubmitRequest): seq<string> {
    if r.allowed != [] then r.allowed else r.seedDomains
  }

  /** A seed starts at depth 0; a stale URL keeps the depth of its `urls` row. */
  function SeedDepth(o: Order, seed: Seed): int {
    if o.force then seed.depth else 0
  }

  function SeedEvent(o: Order, seed: Seed, id: EventId): UrlDiscovered {
    UrlDiscovered(id, o.job, seed.url, seed.normalized, 1, SeedDepth(o, seed), o.maxDepth, o.domains, o.force)
  }

  /** Nothing is recorded when no URL was queued: the caller gets an error, the job row stays. */
  function RecordQueued(s: Store, job: JobId, queued: nat): Store {
    if job in s.jobs && queued > 0 then s.(jobs := s.jobs[job := s.jobs[job].(urlsQueued := queued)]) else s
  }

  function SeedKey(o: Order, seed: Seed): RowKey {
    RowKey(o.job, seed.normalized)
  }

  function StepSeeds(s: Store, o: Order, seeds: seq<Seed>, queued: nat): Next {
    if seeds == [] then Next(RecordQueued(s, o.job, queued), Idle)
    else if SeedKey(o, seeds[0]) in s.seen then Next(s, SubmitLoop(o, seeds[1..], queued))
    else Next(AddSeen(s, SeedKey(o, seeds[0])), SubmitQueue(o, seeds[0], seeds[1..], queued))
  }

  /** The start of submit_job_internal: the request is refused, or the job row is committed. */
  function Submit(s: Store, r: SubmitRequest): Next {
    var domains := RequestDomains(r);
    if r.incremental && domains == [] then Next(s, Idle)
    else Next(CreateJob(s, Job(r.maxDepth, domains, r.incremental, Running, 0)),
              SubmitLoop(Order(s.nextId, r.maxDepth, domains, r.incremental), r.seeds, 0))
  }

  // ---------------------------------------------------------------- one step of any handler

  function Advance(cfg: Config, s: Store, p: Proc): Next {
    match p
    case Idle => Next(s, Idle)
    case CrawlGate(ev, input) => StepGate(s, ev, input)
    case CrawlSkip(ev, reason) => Next(Mark(s, KeyOf(ev), Skipped, reason, None), Idle)
    case CrawlFetch(ev, input) => StepFetch(s, ev, input)
    case CrawlUnchanged(ev, checksum, luck) => StepUnchanged(s, ev, checksum, luck)
    case CrawlPublish(ev, key, checksum, links, luck) => StepPublish(s, ev, key, checksum, links, luck)
    case CrawlMark(ev, key, checksum, links, luck) => StepMark(s, ev, key, checksum, links, luck)
    case CrawlLinks(ev, links, luck) => StepLinks(s, ev, links, luck)
    case CrawlQueue(ev, link, links, luck) => StepQueue(s, ev, link, links, luck)
    case CrawlEmit(ev, link, links, luck) => StepEmit(s, ev, link, links, luck)
    case CrawlFail(ev, error) => Next(Mark(s, KeyOf(ev), Failed, Some(error), None), CrawlReport(ev, error))
    case CrawlReport(ev, error) => Next(ReportCrawl(cfg, s, ev, error), Idle)
    case ParseBody(ev, input) => StepParse(s, ev, input)
    case ParseReport(ev, error) => Next(ReportParse(cfg, s, ev, error), Idle)
    case CleanBody(ev, input) => StepClean(s, ev, input)
    case CleanFail(ev, error) => Next(Mark(s, ParsedKey(ev), Failed, Some(error), None), CleanReport(ev, error))
    case CleanReport(ev, error) => Next(ReportClean(cfg, s, ev, error), Idle)
    case RetryBody(f) => Next(RetryStep(cfg, s, f), Idle)
    case ReplayCounting(letter) => StepCounting(cfg, s, letter)
    case ReplayPublishing(letter) => Next(ReplayStep(s, letter), Idle)
    case SubmitLoop(o, seeds, queued) => StepSeeds(s, o, seeds, queued)
    case SubmitQueue(o, seed, seeds, queued) =>
      Next(EnsureQueued(s, SeedKey(o, seed), SeedDepth(o, seed)), SubmitEmit(o, seed, seeds, queued))
    case SubmitEmit(o, seed, seeds, queued) =>
      Next(PublishFresh(s, OnDiscovered(SeedEvent(o, seed, s.nextId), Seeded)), SubmitLoop(o, seeds, queued + 1))
  }

  /** The stage a topic's consumer claims in the ledger; the last two topics have none. */
  function StageClaim(m: Message): Option<Claim> {
    match m
    case OnDiscovered(d, _) => Some(Claim(d.eventId, Crawler))
    case OnFetched(h) => Some(Claim(h.eventId, Parser))
    case OnParsed(p) => Some(Claim(p.eventId, Cleaner))
    case OnFailed(_) => None
    case OnDlq(_) => None
  }

  /** The handler a message starts once its claim, if its topic has one, has succeeded. */
  function Begin(m: Message, input: Input): Proc {
    match m
    case OnDiscovered(d, _) => CrawlGate(d, input.crawl)
    case OnFetched(h) => ParseBody(h, input.parse)
    case OnParsed(p) => CleanBody(p, input.clean)
    case OnFailed(f) => RetryBody(f)
    case OnDlq(letter) => ReplayCounting(letter)
  }

  /** The claim transaction; the crawler marks the row as claimed in the same one. */
  function ClaimTransaction(s: Store, m: Message): Store {
    match m
    case OnDiscovered(d, _) =>
      Mark(AddClaim(s, Claim(d.eventId, Crawler)), KeyOf(d), Claimed, None, Some(AtStage(Crawler)))
    case OnFetched(h) => AddClaim(s, Claim(h.eventId, Parser))
    case OnParsed(p) => AddClaim(s, Claim(p.eventId, Cleaner))
    case _ => s
  }

  /** Delivery of a message: a claimed event is dropped, else its handler begins. */
  function Deliver(s: Store, m: Message, input: Input): Next {
    var c := StageClaim(m);
    if c.Some? && c.value in s.ledger then Next(s, Idle) else Next(ClaimTransaction(s, m), Begin(m, input))
  }

  // ---------------------------------------------------------------- a handler on its own

  /** An upper bound on the micro steps a handler has left. */
  function StepsLeft(p: Proc): nat {
    match p
    case Idle => 0
    case CrawlGate(_, _) => 157
    case CrawlSkip(_, _) => 1
    case CrawlFetch(_, _) => 156
    case CrawlUnchanged(_, _, _) => 3
    case CrawlPublish(_, _, _, _, _) => 155
    case CrawlMark(_, _, _, _, _) => 154
    case CrawlLinks(_, links, _) => 3 * |links| + 3
    case CrawlQueue(_, _, links, _) => 3 * |links| + 5
    case CrawlEmit(_, _, links, _) => 3 * |links| + 4
    case CrawlFail(_, _) => 2
    case CrawlReport(_, _) => 1
    case ParseBody(_, _) => 2
    case ParseReport(_, _) => 1
    case CleanBody(_, _) => 3
    case CleanFail(_, _) => 2
    case CleanReport(_, _) => 1
    case RetryBody(_) => 1
    case ReplayCounting(_) => 2
    case ReplayPublishing(_) => 1
    case SubmitLoop(_, seeds, _) => 3 * |seeds| + 1
    case SubmitQueue(_, _, seeds, _) => 3 * |seeds| + 3
    case SubmitEmit(_, _, seeds, _) => 3 * |seeds| + 2
  }

  lemma FollowedStepsFall(cfg: Config, s: Store, p: Proc)
    requires p.CrawlMark? || p.CrawlLinks? || p.CrawlQueue? || p.CrawlEmit?
    ensures StepsLeft(Advance(cfg, s, p).proc) < StepsLeft(p)
  {
  }

  lemma FetchStepsFall(cfg: Config, s: Store, p: Proc)
    requires p.CrawlGate? || p.CrawlFetch? || p.CrawlUnchanged? || p.CrawlPublish?
    ensures StepsLeft(Advance(cfg, s, p).proc) < StepsLeft(p)
  {
  }

  lemma StepsFall(cfg: Config, s: Store, p: Proc)
    requires p != Idle
    ensures StepsLeft(Advance(cfg, s, p).proc) < StepsLeft(p)
  {
    if p.CrawlMark? || p.CrawlLinks? || p.CrawlQueue? || p.CrawlEmit? {
      FollowedStepsFall(cfg, s, p);
    } else if p.CrawlGate? || p.CrawlFetch? || p.CrawlUnchanged? || p.CrawlPublish? {
      FetchStepsFall(cfg, s, p);
    }
  }

  /** The store after a handler has run to its end with nothing in between. */
  function RunAlone(cfg: Config, s: Store, p: Proc): Store
    decreases StepsLeft(p)
  {
    if p == Idle then s
    else
      StepsFall(cfg, s, p);
      var n := Advance(cfg, s, p);
      RunAlone(cfg, n.store, n.proc)
  }
}
