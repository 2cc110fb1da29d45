/** What every reachable state of the interleaved, crashing pipeline keeps: lineage of the job's
    parameters, attempt bounds, the order of ledger claims, one first publication per row. */
module Lineage {
  import opened Wrappers
  import opened Events
  import opened Links
  import opened Store
  import opened Handlers
  import opened Machine

  // ---------------------------------------------------------------- what a message promises

  /** A URL found by the crawler is within the depth limit and in an allowed domain. */
  ghost predicate WithinJob(job: Job, url: string, depth: int) {
    !job.incremental ==>
      0 <= depth <= job.maxDepth && (depth > 0 ==> DomainAllowed(HostOf(url), job.domains))
  }

  ghost predicate Rooted(cfg: Config, s: Store, id: EventId, key: RowKey, url: string, attempt: int, depth: int) {
    && id < s.nextId
    && id in s.origin && s.origin[id] == key
    && 1 <= attempt <= cfg.maxAttempts
    && key.job in s.jobs
    && key in s.rows && s.rows[key].depth == depth
    && WithinJob(s.jobs[key.job], url, depth)
  }

  ghost predicate Inherits(s: Store, job: JobId, maxDepth: int, domains: seq<string>) {
    job in s.jobs && maxDepth == s.jobs[job].maxDepth && domains == s.jobs[job].domains
  }

  ghost predicate DiscoveredOk(cfg: Config, s: Store, e: UrlDiscovered) {
    && Rooted(cfg, s, e.eventId, KeyOf(e), e.url, e.attempt, e.depth)
    && Inherits(s, e.jobId, e.maxDepth, e.domains)
  }

  ghost predicate FetchedOk(cfg: Config, s: Store, e: HtmlFetched) {
    && Rooted(cfg, s, e.eventId, PageKey(e), e.url, e.attempt, e.depth)
    && Inherits(s, e.jobId, e.maxDepth, e.domains)
    && Claim(e.eventId, Crawler) in s.ledger
  }

  ghost predicate ParsedOk(cfg: Config, s: Store, e: PageParsed) {
    && Rooted(cfg, s, e.eventId, ParsedKey(e), e.url, e.attempt, e.depth)
    && Claim(e.eventId, Parser) in s.ledger
  }

  ghost predicate FailedOk(cfg: Config, s: Store, e: UrlFailed) {
    && Rooted(cfg, s, e.eventId, FailedKey(e), e.url, e.attempt, e.depth)
    && e.attempt < cfg.maxAttempts
    && (e.stage != Cleaner ==> Inherits(s, e.jobId, e.maxDepth, e.domains))
    && (e.stage == Cleaner ==>
          && e.pagePayload.Some?
          && ParsedOk(cfg, s, e.pagePayload.value)
          && ParsedKey(e.pagePayload.value) == FailedKey(e)
          && e.pagePayload.value.attempt == e.attempt
          && Claim(e.pagePayload.value.eventId, Cleaner) in s.ledger)
  }

  /** A dead letter used up its attempts, and the stage that gave it up had claimed its event. */
  ghost predicate LetterOk(cfg: Config, s: Store, letter: DeadLetter) {
    match letter
    case DeadDiscovered(e) =>
      DiscoveredOk(cfg, s, e) && e.attempt == cfg.maxAttempts && Claim(e.eventId, Crawler) in s.ledger
    case DeadFetched(e) =>
      FetchedOk(cfg, s, e) && e.attempt == cfg.maxAttempts && Claim(e.eventId, Parser) in s.ledger
    case DeadParsed(e) =>
      ParsedOk(cfg, s, e) && e.attempt == cfg.maxAttempts && Claim(e.eventId, Cleaner) in s.ledger
    case DeadFailed(_) => false
  }

  ghost predicate MessageOk(cfg: Config, s: Store, m: Message) {
    match m
    case OnDiscovered(e, via) =>
      DiscoveredOk(cfg, s, e) && (via == Replayed ==> Claim(e.eventId, Crawler) in s.ledger)
    case OnFetched(e) => FetchedOk(cfg, s, e)
    case OnParsed(e) => ParsedOk(cfg, s, e)
    case OnFailed(e) => FailedOk(cfg, s, e)
    case OnDlq(letter) => LetterOk(cfg, s, letter)
  }

  /** The row a message publishes for the first time: from the scheduler, or from a crawler that found it. */
  function FirstKey(m: Message): Option<RowKey> {
    if m.OnDiscovered? && (m.via == Seeded || m.via == Linked) then Some(KeyOf(m.discovered)) else None
  }

  /** No event id was ever drawn for the row, so no message on any topic is about it. */
  ghost predicate Undrawn(s: Store, k: RowKey) {
    forall e :: e in s.origin ==> s.origin[e] != k
  }

  // ---------------------------------------------------------------- what a handler in progress keeps

  /** On whose behalf a handler works. */
  datatype Duty =
    | NoDuty
    | Crawls(ev: UrlDiscovered)
    | Parses(page: HtmlFetched)
    | Cleans(parsed: PageParsed)
    | Retries(failed: UrlFailed)
    | Replays(letter: DeadLetter)
    | Submits(order: Order)

  function DutyOf(p: Proc): Duty {
    match p
    case Idle => NoDuty
    case CrawlGate(ev, _) => Crawls(ev)
    case CrawlSkip(ev, _) => Crawls(ev)
    case CrawlFetch(ev, _) => Crawls(ev)
    case CrawlUnchanged(ev, _, _) => Crawls(ev)
    case CrawlPublish(ev, _, _, _, _) => Crawls(ev)
    case CrawlMark(ev, _, _, _, _) => Crawls(ev)
    case CrawlLinks(ev, _, _) => Crawls(ev)
    case CrawlQueue(ev, _, _, _) => Crawls(ev)
    case CrawlEmit(ev, _, _, _) => Crawls(ev)
    case CrawlFail(ev, _) => Crawls(ev)
    case CrawlReport(ev, _) => Crawls(ev)
    case ParseBody(ev, _) => Parses(ev)
    case ParseReport(ev, _) => Parses(ev)
    case CleanBody(ev, _) => Cleans(ev)
    case CleanFail(ev, _) => Cleans(ev)
    case CleanReport(ev, _) => Cleans(ev)
    case RetryBody(f) => Retries(f)
    case ReplayCounting(letter) => Replays(letter)
    case ReplayPublishing(letter) => Replays(letter)
    case SubmitLoop(o, _, _) => Submits(o)
    case SubmitQueue(o, _, _, _) => Submits(o)
    case SubmitEmit(o, _, _, _) => Submits(o)
  }

  /** A row the handler has marked as seen: about to be inserted, or inserted and about to be published. */
  datatype Pending = Nothing | Inserting(key: RowKey) | Publishing(key: RowKey, depth: int)

  function PendingOf(p: Proc): Pending {
    match p
    case CrawlQueue(ev, link, _, _) => Inserting(LinkKey(ev, link))
    case CrawlEmit(ev, link, _, _) => Publishing(LinkKey(ev, link), ev.depth + 1)
    case SubmitQueue(o, seed, _, _) => Inserting(SeedKey(o, seed))
    case SubmitEmit(o, seed, _, _) => Publishing(SeedKey(o, seed), SeedDepth(o, seed))
    case _ => Nothing
  }

  function PendingKey(p: Proc): Option<RowKey> {
    if PendingOf(p) == Nothing then None else Some(PendingOf(p).key)
  }

  /** The links a crawler still goes through, the pending one included. */
  function LinksAhead(p: Proc): seq<Link> {
    match p
    case CrawlLinks(_, links, _) => links
    case CrawlQueue(_, link, links, _) => [link] + links
    case CrawlEmit(_, link, links, _) => [link] + links
    case _ => []
  }

  ghost predicate Crawling(cfg: Config, s: Store, e: UrlDiscovered) {
    DiscoveredOk(cfg, s, e) && Claim(e.eventId, Crawler) in s.ledger
  }

  ghost predicate Cleaning(cfg: Config, s: Store, e: PageParsed) {
    ParsedOk(cfg, s, e) && Claim(e.eventId, Cleaner) in s.ledger
  }

  ghost predicate OrderOk(s: Store, o: Order) {
    Inherits(s, o.job, o.maxDepth, o.domains) && s.jobs[o.job].incremental == o.force && o.maxDepth >= 0
  }

  ghost predicate DutyOk(cfg: Config, s: Store, d: Duty) {
    match d
    case NoDuty => true
    case Crawls(e) => Crawling(cfg, s, e)
    case Parses(e) => FetchedOk(cfg, s, e) && Claim(e.eventId, Parser) in s.ledger
    case Cleans(e) => Cleaning(cfg, s, e)
    case Retries(f) => FailedOk(cfg, s, f)
    case Replays(letter) => LetterOk(cfg, s, letter)
    case Submits(o) => OrderOk(s, o)
  }

  ghost predicate Following(ev: UrlDiscovered, links: seq<Link>) {
    && (links != [] ==> ev.depth < ev.maxDepth)
    && forall l :: l in links ==> DomainAllowed(HostOf(l.url), ev.domains)
  }

  ghost predicate PendingOk(s: Store, p: Pending) {
    match p
    case Nothing => true
    case Inserting(k) => k in s.seen && k !in s.rows
    case Publishing(k, depth) => k in s.seen && k in s.rows && s.rows[k].depth == depth && Undrawn(s, k)
  }

  ghost predicate ProcOk(cfg: Config, s: Store, p: Proc) {
    && DutyOk(cfg, s, DutyOf(p))
    && (DutyOf(p).Crawls? ==> Following(DutyOf(p).ev, LinksAhead(p)))
    && PendingOk(s, PendingOf(p))
  }

  // ---------------------------------------------------------------- the invariant

  /** A later stage's claim implies the earlier stage's, and claimed ids have been allocated. */
  ghost predicate LedgerOk(s: Store) {
    && (forall c :: c in s.ledger ==> c.eventId < s.nextId)
    && (forall e :: Claim(e, Parser) in s.ledger ==> Claim(e, Crawler) in s.ledger)
    && (forall e :: Claim(e, Cleaner) in s.ledger ==> Claim(e, Parser) in s.ledger)
  }

  ghost predicate StoreOk(cfg: Config, s: Store) {
    && LedgerOk(s)
    && (forall j :: j in s.jobs ==> j < s.nextId && s.jobs[j].maxDepth >= 0)
    && (forall k :: k in s.rows ==> k in s.seen)
    && (forall e :: e in s.origin ==> e < s.nextId && s.origin[e] in s.rows)
    && (forall i :: 0 <= i < |s.log| ==> MessageOk(cfg, s, s.log[i]))
    && (forall i, j :: 0 <= i < j < |s.log| && FirstKey(s.log[i]).Some? ==> FirstKey(s.log[i]) != FirstKey(s.log[j]))
  }

  ghost predicate Apart(p: Proc, q: Proc) {
    PendingKey(p).Some? ==> PendingKey(p) != PendingKey(q)
  }

  ghost predicate ProcsOk(cfg: Config, s: Store, procs: seq<Proc>) {
    && (forall j :: 0 <= j < |procs| ==> ProcOk(cfg, s, procs[j]))
    && (forall i, j :: 0 <= i < j < |procs| ==> Apart(procs[i], procs[j]))
  }

  ghost predicate Inv(cfg: Config, m: Machine) {
    StoreOk(cfg, m.store) && ProcsOk(cfg, m.store, m.procs)
  }

  // ---------------------------------------------------------------- how a store grows

  ghost predicate SameTerms(a: Job, b: Job) {
    a.maxDepth == b.maxDepth && a.domains == b.domains && a.incremental == b.incremental
  }

  ghost predicate Grows(s: Store, s': Store) {
    && s.nextId <= s'.nextId
    && s.ledger <= s'.ledger
    && s.seen <= s'.seen
    && (forall j :: j in s.jobs ==> j in s'.jobs && SameTerms(s.jobs[j], s'.jobs[j]))
    && (forall k :: k in s.rows ==> k in s'.rows && s'.rows[k].depth == s.rows[k].depth)
    && (forall e :: e in s.origin ==> e in s'.origin && s'.origin[e] == s.origin[e])
  }

  /** One atomic effect: it appends at most one message, and only the handler that has a row pending
      inserts that row, draws its first event id, or publishes it first. */
  ghost predicate Effect(s: Store, s': Store, own: Option<RowKey>) {
    && Grows(s, s')
    && (forall k :: k in s'.rows && k !in s.rows ==> own == Some(k))
    && (forall k :: Undrawn(s, k) && own != Some(k) ==> Undrawn(s', k))
    && (forall e :: e in s'.origin && e !in s.origin ==> e < s'.nextId && s'.origin[e] in s'.rows)
    && |s.log| <= |s'.log| <= |s.log| + 1 && s'.log[..|s.log|] == s.log
    && (|s'.log| > |s.log| && FirstKey(s'.log[|s.log|]).Some? ==> own == FirstKey(s'.log[|s.log|]))
  }

  lemma MessageKept(cfg: Config, s: Store, s': Store, m: Message)
    requires Grows(s, s') && MessageOk(cfg, s, m)
    ensures MessageOk(cfg, s', m)
  {
  }

  lemma DutyKept(cfg: Config, s: Store, s': Store, d: Duty)
    requires Grows(s, s') && DutyOk(cfg, s, d)
    ensures DutyOk(cfg, s', d)
  {
    if d.Retries? {
      MessageKept(cfg, s, s', OnFailed(d.failed));
    } else if d.Replays? {
      MessageKept(cfg, s, s', OnDlq(d.letter));
    }
  }

  /** A handler in progress is not disturbed by an effect of another one. */
  lemma ProcKept(cfg: Config, s: Store, s': Store, own: Option<RowKey>, q: Proc)
    requires Effect(s, s', own) && ProcOk(cfg, s, q) && (own.Some? ==> PendingKey(q) != own)
    ensures ProcOk(cfg, s', q)
  {
    DutyKept(cfg, s, s', DutyOf(q));
  }

  /** What is left to show of a store after one effect: its new ledger, jobs, rows and last message. */
  lemma StoreKept(cfg: Config, s: Store, s': Store, own: Option<RowKey>)
    requires StoreOk(cfg, s) && Effect(s, s', own) && LedgerOk(s')
    requires forall j :: j in s'.jobs ==> j < s'.nextId && s'.jobs[j].maxDepth >= 0
    requires own.Some? ==> own.value in s'.seen && Undrawn(s, own.value)
    requires |s'.log| > |s.log| ==> MessageOk(cfg, s', s'.log[|s.log|])
    ensures StoreOk(cfg, s')
  {
    forall i | 0 <= i < |s'.log|
      ensures MessageOk(cfg, s', s'.log[i])
    {
      if i < |s.log| {
        assert s'.log[i] == s'.log[..|s.log|][i];
        MessageKept(cfg, s, s', s.log[i]);
      }
    }
    forall i, j | 0 <= i < j < |s'.log| && FirstKey(s'.log[i]).Some?
      ensures FirstKey(s'.log[i]) != FirstKey(s'.log[j])
    {
      assert s'.log[i] == s'.log[..|s.log|][i];
      if j < |s.log| {
        assert s'.log[j] == s'.log[..|s.log|][j];
      }
    }
  }

}
