/** Every micro step, delivery, submission, crash and expiry keeps the lineage invariant. */
module LineageSteps {
  import opened Wrappers
  import opened Events
  import opened Links
  import opened Store
  import opened Handlers
  import opened Machine
  import opened Lineage

  // ---------------------------------------------------------------- store effects

  ghost predicate JobsOk(s: Store) {
    forall j :: j in s.jobs ==> j < s.nextId && s.jobs[j].maxDepth >= 0
  }

  ghost predicate OriginOk(s: Store) {
    forall e :: e in s.origin ==> e < s.nextId && s.origin[e] in s.rows
  }

  ghost predicate GoodStore(cfg: Config, s: Store, own: Option<RowKey>, s': Store) {
    && Effect(s, s', own)
    && LedgerOk(s') && JobsOk(s')
    && (|s'.log| > |s.log| ==> MessageOk(cfg, s', s'.log[|s.log|]))
  }

  lemma SameGood(cfg: Config, s: Store, own: Option<RowKey>)
    requires LedgerOk(s) && JobsOk(s) && OriginOk(s)
    ensures GoodStore(cfg, s, own, s)
  {
  }

  /** A row that exists can be marked: only its status, error and checkpoint change. */
  lemma MarkGood(cfg: Config, s: Store, k: RowKey, st: Status, error: Option<Error>, checkpoint: Option<Checkpoint>)
    requires LedgerOk(s) && JobsOk(s) && OriginOk(s) && k in s.rows
    ensures GoodStore(cfg, s, None, Mark(s, k, st, error, checkpoint))
  {
  }

  lemma HoldGood(cfg: Config, s: Store, u: Url)
    requires LedgerOk(s) && JobsOk(s) && OriginOk(s)
    ensures GoodStore(cfg, s, None, Hold(s, u)) && GoodStore(cfg, s, None, Release(s, u))
  {
  }

  lemma SeenGood(cfg: Config, s: Store, k: RowKey)
    requires LedgerOk(s) && JobsOk(s) && OriginOk(s)
    ensures GoodStore(cfg, s, None, AddSeen(s, k))
  {
  }

  lemma QueuedGood(cfg: Config, s: Store, k: RowKey, depth: int)
    requires LedgerOk(s) && JobsOk(s) && OriginOk(s)
    ensures GoodStore(cfg, s, Some(k), EnsureQueued(s, k, depth))
  {
  }

  lemma PublishGood(cfg: Config, s: Store, m: Message, own: Option<RowKey>)
    requires LedgerOk(s) && JobsOk(s) && OriginOk(s)
    requires MessageOk(cfg, s, m)
    requires FirstKey(m).Some? ==> own == FirstKey(m)
    ensures GoodStore(cfg, s, own, Publish(s, m))
  {
    MessageKept(cfg, s, Publish(s, m), m);
  }

  /** The store once the new event has its id, before it is on its topic. */
  function Drawn(s: Store, m: Message): Store {
    s.(origin := s.origin[s.nextId := MessageKey(m)], nextId := s.nextId + 1)
  }

  lemma OthersUndrawn(s: Store, m: Message)
    ensures forall k :: Undrawn(s, k) && k != MessageKey(m) ==> Undrawn(PublishFresh(s, m), k)
  {
  }

  lemma PublishFreshEffect(s: Store, m: Message, own: Option<RowKey>)
    requires OriginOk(s) && MessageKey(m) in s.rows && (FirstKey(m).Some? ==> own == FirstKey(m))
    requires own == Some(MessageKey(m)) || !Undrawn(s, MessageKey(m))
    ensures Effect(s, PublishFresh(s, m), own)
  {
    OthersUndrawn(s, m);
  }

  lemma PublishFreshGood(cfg: Config, s: Store, m: Message, own: Option<RowKey>)
    requires LedgerOk(s) && JobsOk(s) && OriginOk(s)
    requires MessageOk(cfg, Drawn(s, m), m)
    requires FirstKey(m).Some? ==> own == FirstKey(m)
    requires own == Some(MessageKey(m)) || !Undrawn(s, MessageKey(m))
    ensures GoodStore(cfg, s, own, PublishFresh(s, m))
  {
    MessageKept(cfg, Drawn(s, m), PublishFresh(s, m), m);
    PublishFreshEffect(s, m, own);
  }

  lemma ReplaysGood(cfg: Config, s: Store, replays: map<EventId, nat>)
    requires LedgerOk(s) && JobsOk(s) && OriginOk(s)
    ensures GoodStore(cfg, s, None, s.(replays := replays))
  {
  }

  lemma JobGood(cfg: Config, s: Store, j: JobId, job: Job)
    requires LedgerOk(s) && JobsOk(s) && OriginOk(s) && j in s.jobs && SameTerms(s.jobs[j], job)
    ensures GoodStore(cfg, s, None, s.(jobs := s.jobs[j := job]))
  {
  }

  lemma CleanCommitGood(cfg: Config, s: Store, ev: PageParsed)
    requires LedgerOk(s) && JobsOk(s) && OriginOk(s) && ParsedKey(ev) in s.rows
    ensures GoodStore(cfg, s, None, CleanCommit(s, ev))
  {
    var s1 := Mark(s, ParsedKey(ev), Parsed, None, None);
    MarkGood(cfg, s, ParsedKey(ev), Parsed, None, None);
    if RefreshJob(s1, ev.jobId) != s1 {
      JobGood(cfg, s1, ev.jobId, s1.jobs[ev.jobId].(status := Completed));
    }
  }

  // ---------------------------------------------------------------- what survives growth

  lemma ToInsertUndrawn(cfg: Config, s: Store, k: RowKey)
    requires StoreOk(cfg, s) && k !in s.rows
    ensures Undrawn(s, k)
  {
  }

  lemma FilteredAllowed(links: seq<Link>, domains: seq<string>)
    ensures forall l :: l in Limit(FilterLinks(links, domains)) ==> DomainAllowed(HostOf(l.url), domains)
  {
    FilterKeepsAllowed(links, domains);
  }

  // ---------------------------------------------------------------- micro steps

  /** The outcome of one step of a handler that had `own` pending. */
  ghost predicate GoodStep(cfg: Config, s: Store, own: Option<RowKey>, n: Next) {
    match n
    case Next(s', p') =>
      && GoodStore(cfg, s, own, s')
      && ProcOk(cfg, s', p')
      && (PendingKey(p').Some? && PendingKey(p') != own ==> PendingKey(p').value !in s.seen)
  }

  lemma GateGood(cfg: Config, s: Store, ev: UrlDiscovered, input: CrawlInput)
    requires LedgerOk(s) && JobsOk(s) && OriginOk(s) && Crawling(cfg, s, ev)
    ensures GoodStep(cfg, s, None, StepGate(s, ev, input))
    ensures GoodStep(cfg, s, None, StepFetch(s, ev, input))
  {
    SameGood(cfg, s, None);
    HoldGood(cfg, s, ev.normalized);
    DutyKept(cfg, s, Hold(s, ev.normalized), Crawls(ev));
    DutyKept(cfg, s, Release(s, ev.normalized), Crawls(ev));
  }

  lemma UnchangedGood(cfg: Config, s: Store, ev: UrlDiscovered, checksum: string, luck: Luck)
    requires LedgerOk(s) && JobsOk(s) && OriginOk(s) && Crawling(cfg, s, ev)
    ensures GoodStep(cfg, s, None, StepUnchanged(s, ev, checksum, luck))
  {
    SameGood(cfg, s, None);
    MarkGood(cfg, s, KeyOf(ev), Skipped, None, Some(Unchanged(checksum)));
  }

  /** A crawler that neither follows links nor has a row pending needs no more than its event. */
  lemma CrawlStep(cfg: Config, s: Store, own: Option<RowKey>, s': Store, p': Proc, ev: UrlDiscovered)
    requires GoodStore(cfg, s, own, s') && Crawling(cfg, s, ev)
    requires DutyOf(p') == Crawls(ev) && Following(ev, LinksAhead(p'))
    requires PendingOk(s', PendingOf(p'))
    requires PendingKey(p').Some? && PendingKey(p') != own ==> PendingKey(p').value !in s.seen
    ensures GoodStep(cfg, s, own, Next(s', p'))
  {
    DutyKept(cfg, s, s', Crawls(ev));
  }

  lemma StrikeGood(cfg: Config, s: Store, own: Option<RowKey>, ev: UrlDiscovered, error: Error)
    requires LedgerOk(s) && JobsOk(s) && OriginOk(s) && Crawling(cfg, s, ev)
    ensures GoodStep(cfg, s, own, Next(s, CrawlFail(ev, error)))
  {
    SameGood(cfg, s, own);
  }

  lemma PublishPageGood(
      cfg: Config, s: Store, ev: UrlDiscovered, key: string, checksum: string, links: seq<Link>, luck: Luck)
    requires LedgerOk(s) && JobsOk(s) && OriginOk(s) && Crawling(cfg, s, ev)
    ensures GoodStep(cfg, s, None, StepPublish(s, ev, key, checksum, links, luck))
  {
    if Strikes(luck) {
      StrikeGood(cfg, s, None, ev, luck.error);
    } else {
      var m := OnFetched(FetchedEvent(ev, key, checksum));
      PublishGood(cfg, s, m, None);
      CrawlStep(cfg, s, None, Publish(s, m), CrawlMark(ev, key, checksum, links, Spend(luck)), ev);
    }
  }

  lemma MarkFetchedGood(
      cfg: Config, s: Store, ev: UrlDiscovered, key: string, checksum: string, links: seq<Link>, luck: Luck)
    requires LedgerOk(s) && JobsOk(s) && OriginOk(s) && Crawling(cfg, s, ev)
    ensures GoodStep(cfg, s, None, StepMark(s, ev, key, checksum, links, luck))
  {
    SameGood(cfg, s, None);
    MarkGood(cfg, s, KeyOf(ev), Fetched, None, Some(Stored(key, checksum)));
    DutyKept(cfg, s, Mark(s, KeyOf(ev), Fetched, None, Some(Stored(key, checksum))), Crawls(ev));
    FilteredAllowed(links, ev.domains);
  }

  lemma FollowingRest(ev: UrlDiscovered, link: Link, links: seq<Link>)
    requires Following(ev, [link] + links)
    ensures Following(ev, [link]) && Following(ev, links)
  {
    assert link in [link] + links;
    assert forall l :: l in links ==> l in [link] + links;
  }

  /** A link not seen before becomes the crawler's pending row. */
  lemma NewLinkGood(cfg: Config, s: Store, ev: UrlDiscovered, link: Link, links: seq<Link>, luck: Luck)
    requires LedgerOk(s) && JobsOk(s) && OriginOk(s) && (forall k :: k in s.rows ==> k in s.seen)
    requires Crawling(cfg, s, ev) && Following(ev, [link] + links) && LinkKey(ev, link) !in s.seen
    ensures GoodStep(cfg, s, None, Next(AddSeen(s, LinkKey(ev, link)), CrawlQueue(ev, link, links, luck)))
  {
    var k := LinkKey(ev, link);
    SeenGood(cfg, s, k);
    CrawlStep(cfg, s, None, AddSeen(s, k), CrawlQueue(ev, link, links, luck), ev);
  }

  lemma LinksGood(cfg: Config, s: Store, ev: UrlDiscovered, links: seq<Link>, luck: Luck)
    requires LedgerOk(s) && JobsOk(s) && OriginOk(s) && (forall k :: k in s.rows ==> k in s.seen)
    requires Crawling(cfg, s, ev) && Following(ev, links)
    ensures GoodStep(cfg, s, None, StepLinks(s, ev, links, luck))
  {
    SameGood(cfg, s, None);
    if Strikes(luck) {
      StrikeGood(cfg, s, None, ev, luck.error);
    } else if links != [] {
      var link, rest := links[0], links[1..];
      assert links == [link] + rest;
      FollowingRest(ev, link, rest);
      if LinkKey(ev, link) in s.seen {
        CrawlStep(cfg, s, None, s, CrawlLinks(ev, rest, Spend(luck)), ev);
      } else {
        NewLinkGood(cfg, s, ev, link, rest, Spend(luck));
      }
    }
  }

  /** The pending row is inserted at the child depth. */
  lemma InsertGood(cfg: Config, s: Store, ev: UrlDiscovered, link: Link, links: seq<Link>, luck: Luck)
    requires LedgerOk(s) && JobsOk(s) && OriginOk(s) && Undrawn(s, LinkKey(ev, link))
    requires Crawling(cfg, s, ev) && Following(ev, [link] + links) && PendingOk(s, Inserting(LinkKey(ev, link)))
    ensures GoodStep(cfg, s, Some(LinkKey(ev, link)),
                     Next(EnsureQueued(s, LinkKey(ev, link), ev.depth + 1), CrawlEmit(ev, link, links, luck)))
  {
    var k := LinkKey(ev, link);
    QueuedGood(cfg, s, k, ev.depth + 1);
    CrawlStep(cfg, s, Some(k), EnsureQueued(s, k, ev.depth + 1), CrawlEmit(ev, link, links, luck), ev);
  }

  lemma QueueGood(cfg: Config, s: Store, ev: UrlDiscovered, link: Link, links: seq<Link>, luck: Luck)
    requires LedgerOk(s) && JobsOk(s) && OriginOk(s) && Undrawn(s, LinkKey(ev, link))
    requires Crawling(cfg, s, ev) && Following(ev, [link] + links) && PendingOk(s, Inserting(LinkKey(ev, link)))
    ensures GoodStep(cfg, s, Some(LinkKey(ev, link)), StepQueue(s, ev, link, links, luck))
  {
    if Strikes(luck) {
      StrikeGood(cfg, s, Some(LinkKey(ev, link)), ev, luck.error);
      assert StepQueue(s, ev, link, links, luck) == Next(s, CrawlFail(ev, luck.error));
    } else {
      InsertGood(cfg, s, ev, link, links, Spend(luck));
      assert StepQueue(s, ev, link, links, luck) ==
        Next(EnsureQueued(s, LinkKey(ev, link), ev.depth + 1), CrawlEmit(ev, link, links, Spend(luck)));
    }
  }

  /** The event for a found link is in order as soon as its row exists at the child depth. */
  lemma ChildOk(cfg: Config, s: Store, ev: UrlDiscovered, link: Link)
    requires cfg.maxAttempts >= 1 && OriginOk(s) && DiscoveredOk(cfg, s, ev) && Following(ev, [link])
    requires LinkKey(ev, link) in s.rows && s.rows[LinkKey(ev, link)].depth == ev.depth + 1
    ensures var child := ChildEvent(ev, link, s.nextId);
            DiscoveredOk(cfg, Drawn(s, OnDiscovered(child, Linked)), child)
  {
    assert link in [link];
  }

  lemma EmitGood(cfg: Config, s: Store, ev: UrlDiscovered, link: Link, links: seq<Link>, luck: Luck)
    requires LedgerOk(s) && JobsOk(s) && OriginOk(s) && cfg.maxAttempts >= 1
    requires Crawling(cfg, s, ev) && Following(ev, [link] + links)
    requires PendingOk(s, Publishing(LinkKey(ev, link), ev.depth + 1))
    ensures GoodStep(cfg, s, Some(LinkKey(ev, link)), StepEmit(s, ev, link, links, luck))
  {
    var k := LinkKey(ev, link);
    FollowingRest(ev, link, links);
    if Strikes(luck) {
      StrikeGood(cfg, s, Some(k), ev, luck.error);
    } else {
      ChildOk(cfg, s, ev, link);
      var m := OnDiscovered(ChildEvent(ev, link, s.nextId), Linked);
      PublishFreshGood(cfg, s, m, Some(k));
      CrawlStep(cfg, s, Some(k), PublishFresh(s, m), CrawlLinks(ev, links, Spend(luck)), ev);
    }
  }

  lemma SkipGood(cfg: Config, s: Store, ev: UrlDiscovered, reason: Option<Error>)
    requires LedgerOk(s) && JobsOk(s) && OriginOk(s) && Crawling(cfg, s, ev)
    ensures GoodStep(cfg, s, None, Next(Mark(s, KeyOf(ev), Skipped, reason, None), Idle))
  {
    MarkGood(cfg, s, KeyOf(ev), Skipped, reason, None);
  }

  lemma FailGood(cfg: Config, s: Store, ev: UrlDiscovered, error: Error)
    requires LedgerOk(s) && JobsOk(s) && OriginOk(s) && Crawling(cfg, s, ev)
    ensures GoodStep(cfg, s, None, Next(Mark(s, KeyOf(ev), Failed, Some(error), None), CrawlReport(ev, error)))
  {
    MarkGood(cfg, s, KeyOf(ev), Failed, Some(error), None);
    CrawlStep(cfg, s, None, Mark(s, KeyOf(ev), Failed, Some(error), None), CrawlReport(ev, error), ev);
  }

  lemma CrawlEndGood(cfg: Config, s: Store, ev: UrlDiscovered, error: Error)
    requires LedgerOk(s) && JobsOk(s) && OriginOk(s) && Crawling(cfg, s, ev)
    ensures GoodStore(cfg, s, None, ReportCrawl(cfg, s, ev, error))
  {
    if ShouldRetry(cfg, ev.attempt) {
      PublishFreshGood(cfg, s, OnFailed(CrawlFailure(ev, error, s.nextId)), None);
    } else {
      PublishGood(cfg, s, OnDlq(DeadDiscovered(ev)), None);
    }
  }

  lemma ParseGood(cfg: Config, s: Store, ev: HtmlFetched, input: ParseInput)
    requires LedgerOk(s) && JobsOk(s) && OriginOk(s) && DutyOk(cfg, s, Parses(ev))
    ensures GoodStep(cfg, s, None, StepParse(s, ev, input))
  {
    match input
    case ParseRaises(_) => SameGood(cfg, s, None);
    case ParseReturns(page) => PublishGood(cfg, s, OnParsed(ParsedEvent(ev, page)), None);
  }

  lemma ParseEndGood(cfg: Config, s: Store, ev: HtmlFetched, error: Error)
    requires LedgerOk(s) && JobsOk(s) && OriginOk(s) && DutyOk(cfg, s, Parses(ev))
    ensures GoodStore(cfg, s, None, ReportParse(cfg, s, ev, error))
  {
    if ShouldRetry(cfg, ev.attempt) {
      PublishFreshGood(cfg, s, OnFailed(ParseFailure(ev, error, s.nextId)), None);
    } else {
      PublishGood(cfg, s, OnDlq(DeadFetched(ev)), None);
    }
  }

  lemma CleanGood(cfg: Config, s: Store, ev: PageParsed, input: CleanInput)
    requires LedgerOk(s) && JobsOk(s) && OriginOk(s) && Cleaning(cfg, s, ev)
    ensures GoodStep(cfg, s, None, StepClean(s, ev, input))
  {
    match input
    case CleanRaises(error) =>
      SameGood(cfg, s, None);
      CleanedGood(cfg, s, s, ev, error);
    case CleanCommits =>
      CleanCommitGood(cfg, s, ev);
      CleanedGood(cfg, s, CleanCommit(s, ev), ev, HttpStatus(0));
    case CleanCommitsThenRaises(error) =>
      CleanCommitGood(cfg, s, ev);
      CleanedGood(cfg, s, CleanCommit(s, ev), ev, error);
  }

  /** After the transaction the cleaner is done, or goes on to fail. */
  lemma CleanedGood(cfg: Config, s: Store, s': Store, ev: PageParsed, error: Error)
    requires GoodStore(cfg, s, None, s') && Cleaning(cfg, s, ev)
    ensures GoodStep(cfg, s, None, Next(s', Idle)) && GoodStep(cfg, s, None, Next(s', CleanFail(ev, error)))
  {
    DutyKept(cfg, s, s', Cleans(ev));
  }

  lemma CleanFailGood(cfg: Config, s: Store, ev: PageParsed, error: Error)
    requires LedgerOk(s) && JobsOk(s) && OriginOk(s) && Cleaning(cfg, s, ev)
    ensures GoodStep(cfg, s, None, Next(Mark(s, ParsedKey(ev), Failed, Some(error), None), CleanReport(ev, error)))
  {
    MarkGood(cfg, s, ParsedKey(ev), Failed, Some(error), None);
    DutyKept(cfg, s, Mark(s, ParsedKey(ev), Failed, Some(error), None), Cleans(ev));
  }

  lemma CleanEndGood(cfg: Config, s: Store, ev: PageParsed, error: Error)
    requires LedgerOk(s) && JobsOk(s) && OriginOk(s) && Cleaning(cfg, s, ev)
    ensures GoodStore(cfg, s, None, ReportClean(cfg, s, ev, error))
  {
    if ShouldRetry(cfg, ev.attempt) {
      PublishFreshGood(cfg, s, OnFailed(CleanFailure(ev, error, s.nextId)), None);
    } else {
      PublishGood(cfg, s, OnDlq(DeadParsed(ev)), None);
    }
  }

  lemma RetriedOk(cfg: Config, s: Store, f: UrlFailed)
    requires OriginOk(s) && FailedOk(cfg, s, f)
    ensures f.stage != Cleaner ==> 
      DiscoveredOk(cfg, Drawn(s, OnDiscovered(RetriedEvent(f, s.nextId), Retried)), RetriedEvent(f, s.nextId))
    ensures f.stage == Cleaner ==> ParsedOk(cfg, s, f.pagePayload.value.(attempt := f.attempt + 1))
  {
  }

  lemma RetryGood(cfg: Config, s: Store, f: UrlFailed)
    requires LedgerOk(s) && JobsOk(s) && OriginOk(s) && FailedOk(cfg, s, f)
    ensures GoodStore(cfg, s, None, RetryStep(cfg, s, f))
  {
    RetriedOk(cfg, s, f);
    if f.stage == Cleaner {
      RetriedPageGood(cfg, s, f);
    } else {
      PublishFreshGood(cfg, s, OnDiscovered(RetriedEvent(f, s.nextId), Retried), None);
    }
  }

  lemma RetriedPageGood(cfg: Config, s: Store, f: UrlFailed)
    requires LedgerOk(s) && JobsOk(s) && OriginOk(s) && FailedOk(cfg, s, f) && f.stage == Cleaner
    ensures GoodStore(cfg, s, None, RetryStep(cfg, s, f))
  {
    var page := f.pagePayload.value.(attempt := f.attempt + 1);
    assert RetryStep(cfg, s, f) == Publish(s, OnParsed(page)) && MessageOk(cfg, s, OnParsed(page));
    PublishGood(cfg, s, OnParsed(page), None);
  }

  lemma ReplayedOk(cfg: Config, s: Store, letter: DeadLetter)
    requires LedgerOk(s) && LetterOk(cfg, s, letter)
    ensures MessageOk(cfg, s, ExpectedReplay(letter)) && FirstKey(ExpectedReplay(letter)) == None
  {
  }

  lemma ReplayGood(cfg: Config, s: Store, letter: DeadLetter)
    requires LedgerOk(s) && JobsOk(s) && OriginOk(s) && LetterOk(cfg, s, letter)
    ensures GoodStore(cfg, s, None, ReplayStep(s, letter))
  {
    ReplayShapes(letter, s.nextId);
    ReplayedOk(cfg, s, letter);
    PublishGood(cfg, s, ExpectedReplay(letter), None);
  }

  lemma CountingGood(cfg: Config, s: Store, letter: DeadLetter)
    requires LedgerOk(s) && JobsOk(s) && OriginOk(s) && LetterOk(cfg, s, letter)
    ensures GoodStep(cfg, s, None, StepCounting(cfg, s, letter))
  {
    var s' := CountReplay(s, LetterId(letter));
    ReplaysGood(cfg, s, s'.replays);
    MessageKept(cfg, s, s', OnDlq(letter));
  }

  lemma SeedsGood(cfg: Config, s: Store, o: Order, seeds: seq<Seed>, queued: nat)
    requires LedgerOk(s) && JobsOk(s) && OriginOk(s) && (forall k :: k in s.rows ==> k in s.seen) && OrderOk(s, o)
    ensures GoodStep(cfg, s, None, StepSeeds(s, o, seeds, queued))
  {
    SameGood(cfg, s, None);
    if seeds != [] {
      SeenGood(cfg, s, SeedKey(o, seeds[0]));
    } else {
      JobGood(cfg, s, o.job, s.jobs[o.job].(urlsQueued := queued));
    }
  }

  lemma SeedQueueGood(cfg: Config, s: Store, o: Order, seed: Seed, seeds: seq<Seed>, queued: nat)
    requires LedgerOk(s) && JobsOk(s) && OriginOk(s) && Undrawn(s, SeedKey(o, seed))
    requires OrderOk(s, o) && PendingOk(s, Inserting(SeedKey(o, seed)))
    ensures GoodStep(cfg, s, Some(SeedKey(o, seed)),
                     Next(EnsureQueued(s, SeedKey(o, seed), SeedDepth(o, seed)), SubmitEmit(o, seed, seeds, queued)))
  {
    QueuedGood(cfg, s, SeedKey(o, seed), SeedDepth(o, seed));
  }

  lemma SeedEmitGood(cfg: Config, s: Store, o: Order, seed: Seed, seeds: seq<Seed>, queued: nat)
    requires LedgerOk(s) && JobsOk(s) && OriginOk(s) && cfg.maxAttempts >= 1
    requires OrderOk(s, o) && PendingOk(s, Publishing(SeedKey(o, seed), SeedDepth(o, seed)))
    ensures GoodStep(cfg, s, Some(SeedKey(o, seed)),
                     Next(PublishFresh(s, OnDiscovered(SeedEvent(o, seed, s.nextId), Seeded)),
                          SubmitLoop(o, seeds, queued + 1)))
  {
    PublishFreshGood(cfg, s, OnDiscovered(SeedEvent(o, seed, s.nextId), Seeded), Some(SeedKey(o, seed)));
  }

  // ---------------------------------------------------------------- all handlers together

  /** What the step lemmas need of the store and the handler. */
  ghost predicate Ready(cfg: Config, s: Store, p: Proc) {
    && cfg.maxAttempts >= 1 && LedgerOk(s) && JobsOk(s) && OriginOk(s)
    && (forall k :: k in s.rows ==> k in s.seen)
    && (PendingOf(p).Inserting? ==> Undrawn(s, PendingOf(p).key))
    && ProcOk(cfg, s, p)
  }

  lemma CrawlStartGood(cfg: Config, s: Store, p: Proc)
    requires Ready(cfg, s, p) && (p.CrawlGate? || p.CrawlFetch? || p.CrawlUnchanged?)
    ensures GoodStep(cfg, s, PendingKey(p), Advance(cfg, s, p))
  {
    match p
    case CrawlGate(ev, input) => GateGood(cfg, s, ev, input);
    case CrawlFetch(ev, input) => GateGood(cfg, s, ev, input);
    case CrawlUnchanged(ev, checksum, luck) => UnchangedGood(cfg, s, ev, checksum, luck);
  }

  lemma CrawlFetchedGood(cfg: Config, s: Store, p: Proc)
    requires Ready(cfg, s, p) && (p.CrawlPublish? || p.CrawlMark?)
    ensures GoodStep(cfg, s, PendingKey(p), Advance(cfg, s, p))
  {
    match p
    case CrawlPublish(ev, key, checksum, links, luck) => PublishPageGood(cfg, s, ev, key, checksum, links, luck);
    case CrawlMark(ev, key, checksum, links, luck) => MarkFetchedGood(cfg, s, ev, key, checksum, links, luck);
  }

  lemma CrawlMarkedGood(cfg: Config, s: Store, p: Proc)
    requires Ready(cfg, s, p) && (p.CrawlSkip? || p.CrawlFail?)
    ensures GoodStep(cfg, s, PendingKey(p), Advance(cfg, s, p))
  {
    match p
    case CrawlSkip(ev, reason) => SkipGood(cfg, s, ev, reason);
    case CrawlFail(ev, error) => FailGood(cfg, s, ev, error);
  }

  lemma CrawlReportedGood(cfg: Config, s: Store, p: Proc)
    requires Ready(cfg, s, p) && p.CrawlReport?
    ensures GoodStep(cfg, s, PendingKey(p), Advance(cfg, s, p))
  {
    CrawlEndGood(cfg, s, p.ev, p.error);
  }

  lemma CrawlLoopGood(cfg: Config, s: Store, p: Proc)
    requires Ready(cfg, s, p) && (p.CrawlLinks? || p.CrawlQueue? || p.CrawlEmit?)
    ensures GoodStep(cfg, s, PendingKey(p), Advance(cfg, s, p))
  {
    match p
    case CrawlLinks(ev, links, luck) => LinksGood(cfg, s, ev, links, luck);
    case CrawlQueue(ev, link, links, luck) => QueueGood(cfg, s, ev, link, links, luck);
    case CrawlEmit(ev, link, links, luck) => EmitGood(cfg, s, ev, link, links, luck);
  }

  lemma ParserGood(cfg: Config, s: Store, p: Proc)
    requires Ready(cfg, s, p) && DutyOf(p).Parses?
    ensures GoodStep(cfg, s, PendingKey(p), Advance(cfg, s, p))
  {
    match p
    case ParseBody(ev, input) => ParseGood(cfg, s, ev, input);
    case ParseReport(ev, error) => ParseEndGood(cfg, s, ev, error);
  }

  lemma CleanerGood(cfg: Config, s: Store, p: Proc)
    requires Ready(cfg, s, p) && (p.CleanBody? || p.CleanFail?)
    ensures GoodStep(cfg, s, PendingKey(p), Advance(cfg, s, p))
  {
    match p
    case CleanBody(ev, input) => CleanGood(cfg, s, ev, input);
    case CleanFail(ev, error) => CleanFailGood(cfg, s, ev, error);
  }

  lemma CleanerEndGood(cfg: Config, s: Store, p: Proc)
    requires Ready(cfg, s, p) && p.CleanReport?
    ensures GoodStep(cfg, s, PendingKey(p), Advance(cfg, s, p))
  {
    CleanEndGood(cfg, s, p.parsed, p.error);
  }

  lemma RepairGood(cfg: Config, s: Store, p: Proc)
    requires Ready(cfg, s, p) && (DutyOf(p).Retries? || DutyOf(p).Replays? || p == Idle)
    ensures GoodStep(cfg, s, PendingKey(p), Advance(cfg, s, p))
  {
    match p
    case Idle => SameGood(cfg, s, None);
    case RetryBody(f) => RetryGood(cfg, s, f);
    case ReplayCounting(_) => ReplayerGood(cfg, s, p);
    case ReplayPublishing(_) => ReplayerGood(cfg, s, p);
  }

  lemma ReplayerGood(cfg: Config, s: Store, p: Proc)
    requires Ready(cfg, s, p) && DutyOf(p).Replays?
    ensures GoodStep(cfg, s, PendingKey(p), Advance(cfg, s, p))
  {
    if p.ReplayCounting? {
      CountingGood(cfg, s, p.letter);
    } else {
      ReplayGood(cfg, s, p.letter);
    }
  }

  lemma SubmitGood(cfg: Config, s: Store, p: Proc)
    requires Ready(cfg, s, p) && (p.SubmitLoop? || p.SubmitQueue?)
    ensures GoodStep(cfg, s, PendingKey(p), Advance(cfg, s, p))
  {
    match p
    case SubmitLoop(o, seeds, queued) => SeedsGood(cfg, s, o, seeds, queued);
    case SubmitQueue(o, seed, seeds, queued) => SeedQueueGood(cfg, s, o, seed, seeds, queued);
  }

  lemma SubmitEmitGood(cfg: Config, s: Store, p: Proc)
    requires Ready(cfg, s, p) && p.SubmitEmit?
    ensures GoodStep(cfg, s, PendingKey(p), Advance(cfg, s, p))
  {
    match p
    case SubmitEmit(o, seed, seeds, queued) =>
      var n := Next(PublishFresh(s, OnDiscovered(SeedEvent(o, seed, s.nextId), Seeded)),
                    SubmitLoop(o, seeds, queued + 1));
      SeedEmitGood(cfg, s, o, seed, seeds, queued);
      assert Advance(cfg, s, p) == n && PendingKey(p) == Some(SeedKey(o, seed));
  }

  lemma AdvanceGood(cfg: Config, s: Store, p: Proc)
    requires Ready(cfg, s, p)
    ensures GoodStep(cfg, s, PendingKey(p), Advance(cfg, s, p))
  {
    match DutyOf(p)
    case Crawls(_) =>
      if p.CrawlGate? || p.CrawlFetch? || p.CrawlUnchanged? {
        CrawlStartGood(cfg, s, p);
      } else if p.CrawlPublish? || p.CrawlMark? {
        CrawlFetchedGood(cfg, s, p);
      } else if p.CrawlSkip? || p.CrawlFail? {
        CrawlMarkedGood(cfg, s, p);
      } else if p.CrawlReport? {
        CrawlReportedGood(cfg, s, p);
      } else {
        CrawlLoopGood(cfg, s, p);
      }
    case Parses(_) => ParserGood(cfg, s, p);
    case Cleans(_) =>
      if p.CleanReport? { CleanerEndGood(cfg, s, p); } else { CleanerGood(cfg, s, p); }
    case Submits(_) =>
      if p.SubmitEmit? { SubmitEmitGood(cfg, s, p); } else { SubmitGood(cfg, s, p); }
    case _ => RepairGood(cfg, s, p);
  }

  // ---------------------------------------------------------------- machine steps

  lemma AdvanceKeepsLedger(cfg: Config, s: Store, p: Proc)
    ensures Advance(cfg, s, p).store.ledger == s.ledger
  {
  }

  lemma AdvanceSees(cfg: Config, s: Store, p: Proc)
    ensures s.seen <= Advance(cfg, s, p).store.seen
  {
  }

  ghost predicate AppendsOne(s: Store, s': Store) {
    s'.log == s.log || (|s'.log| == |s.log| + 1 && s'.log[..|s.log|] == s.log)
  }

  lemma CrawlerAppendsOne(cfg: Config, s: Store, p: Proc)
    requires DutyOf(p).Crawls?
    ensures AppendsOne(s, Advance(cfg, s, p).store)
  {
  }

  lemma CleanerAppendsOne(cfg: Config, s: Store, p: Proc)
    requires DutyOf(p).Parses? || DutyOf(p).Cleans?
    ensures AppendsOne(s, Advance(cfg, s, p).store)
  {
  }

  lemma AdvanceAppendsOne(cfg: Config, s: Store, p: Proc)
    ensures AppendsOne(s, Advance(cfg, s, p).store)
  {
    if DutyOf(p).Crawls? {
      CrawlerAppendsOne(cfg, s, p);
    } else if DutyOf(p).Parses? || DutyOf(p).Cleans? {
      CleanerAppendsOne(cfg, s, p);
    }
  }

  /** A micro step leaves the ledger alone and appends at most one message. */
  lemma AdvanceAppends(cfg: Config, s: Store, p: Proc)
    ensures var s' := Advance(cfg, s, p).store;
            && s'.ledger == s.ledger
            && (s'.log == s.log || (|s'.log| == |s.log| + 1 && s'.log == s.log + [s'.log[|s.log|]]))
  {
    AdvanceKeepsLedger(cfg, s, p);
    AdvanceAppendsOne(cfg, s, p);
  }

  /** A handler steps, the others stand still: the whole state keeps the invariant. */
  lemma StepInv(cfg: Config, m: Machine, j: nat, own: Option<RowKey>, n: Next)
    requires Inv(cfg, m) && j < |m.procs| && own == PendingKey(m.procs[j])
    requires GoodStep(cfg, m.store, own, n)
    requires own.Some? ==> own.value in m.store.seen && Undrawn(m.store, own.value)
    ensures Inv(cfg, m.(store := n.store, procs := m.procs[j := n.proc]))
  {
    StoreKept(cfg, m.store, n.store, own);
    forall i | 0 <= i < |m.procs| && i != j
      ensures ProcOk(cfg, n.store, m.procs[i]) && Apart(m.procs[i], n.proc) && Apart(n.proc, m.procs[i])
    {
      OtherUndisturbed(cfg, m, j, own, n, i);
    }
    assert forall i :: 0 <= i < |m.procs| && i != j ==> m.procs[j := n.proc][i] == m.procs[i];
  }

  /** Another handler keeps what it needs, and has another row pending. */
  lemma OtherUndisturbed(cfg: Config, m: Machine, j: nat, own: Option<RowKey>, n: Next, i: nat)
    requires Inv(cfg, m) && j < |m.procs| && own == PendingKey(m.procs[j]) && i < |m.procs| && i != j
    requires GoodStep(cfg, m.store, own, n)
    ensures ProcOk(cfg, n.store, m.procs[i]) && Apart(m.procs[i], n.proc) && Apart(n.proc, m.procs[i])
  {
    assert Apart(m.procs[i], m.procs[j]) && Apart(m.procs[j], m.procs[i]) by {
      if i < j { assert Apart(m.procs[i], m.procs[j]); } else { assert Apart(m.procs[j], m.procs[i]); }
    }
    assert ProcOk(cfg, m.store, m.procs[i]);
    ProcKept(cfg, m.store, n.store, own, m.procs[i]);
  }

  lemma ProgressInv(cfg: Config, m: Machine, j: nat)
    requires cfg.maxAttempts >= 1 && Inv(cfg, m) && j < |m.procs|
    ensures Inv(cfg, Apply(cfg, m, Progress(j)))
  {
    var p := m.procs[j];
    assert ProcOk(cfg, m.store, p);
    PendingUndrawn(cfg, m.store, p);
    AdvanceGood(cfg, m.store, p);
    StepInv(cfg, m, j, PendingKey(p), Advance(cfg, m.store, p));
  }

  lemma PendingUndrawn(cfg: Config, s: Store, p: Proc)
    requires StoreOk(cfg, s) && ProcOk(cfg, s, p)
    ensures PendingKey(p).Some? ==> PendingKey(p).value in s.seen && Undrawn(s, PendingKey(p).value)
  {
    if PendingOf(p).Inserting? {
      ToInsertUndrawn(cfg, s, PendingOf(p).key);
    }
  }

  /** A handler is started: it must have no row pending yet. */
  lemma StartInv(cfg: Config, m: Machine, taken: set<nat>, n: Next)
    requires Inv(cfg, m) && GoodStep(cfg, m.store, None, n) && PendingOf(n.proc) == Nothing
    ensures Inv(cfg, Machine(n.store, taken, Started(m.procs, n.proc)))
  {
    var s, s' := m.store, n.store;
    StoreKept(cfg, s, s', None);
    forall i | 0 <= i < |m.procs|
      ensures ProcOk(cfg, s', m.procs[i])
    {
      ProcKept(cfg, s, s', None, m.procs[i]);
    }
    StartApart(cfg, s', m.procs, n.proc);
  }

  lemma StartApart(cfg: Config, s: Store, procs: seq<Proc>, p: Proc)
    requires ProcsOk(cfg, s, procs) && ProcOk(cfg, s, p) && PendingOf(p) == Nothing
    ensures ProcsOk(cfg, s, Started(procs, p))
  {
  }

  lemma ClaimGood(cfg: Config, s: Store, c: Claim)
    requires LedgerOk(s) && JobsOk(s) && OriginOk(s) && c.eventId < s.nextId
    requires c.stage != Crawler ==> Claim(c.eventId, Crawler) in s.ledger
    requires c.stage == Cleaner ==> Claim(c.eventId, Parser) in s.ledger
    ensures GoodStore(cfg, s, None, AddClaim(s, c))
  {
  }

  lemma DeliverDiscoveredGood(cfg: Config, s: Store, d: UrlDiscovered, via: Via, input: Input)
    requires LedgerOk(s) && JobsOk(s) && OriginOk(s) && MessageOk(cfg, s, OnDiscovered(d, via))
    ensures GoodStep(cfg, s, None, Deliver(s, OnDiscovered(d, via), input))
  {
    SameGood(cfg, s, None);
    var c := Claim(d.eventId, Crawler);
    var s1 := AddClaim(s, c);
    ClaimGood(cfg, s, c);
    MarkGood(cfg, s1, KeyOf(d), Claimed, None, Some(AtStage(Crawler)));
  }

  lemma DeliverGood(cfg: Config, s: Store, m: Message, input: Input)
    requires LedgerOk(s) && JobsOk(s) && OriginOk(s) && MessageOk(cfg, s, m)
    ensures GoodStep(cfg, s, None, Deliver(s, m, input)) && PendingOf(Deliver(s, m, input).proc) == Nothing
  {
    match m
    case OnDiscovered(d, via) => DeliverDiscoveredGood(cfg, s, d, via, input);
    case OnFetched(h) => DeliverFetchedGood(cfg, s, h, input);
    case OnParsed(p) => DeliverParsedGood(cfg, s, p, input);
    case _ => SameGood(cfg, s, None);
  }

  lemma DeliverFetchedGood(cfg: Config, s: Store, h: HtmlFetched, input: Input)
    requires LedgerOk(s) && JobsOk(s) && OriginOk(s) && MessageOk(cfg, s, OnFetched(h))
    ensures GoodStep(cfg, s, None, Deliver(s, OnFetched(h), input))
  {
    SameGood(cfg, s, None);
    ClaimGood(cfg, s, Claim(h.eventId, Parser));
    MessageKept(cfg, s, AddClaim(s, Claim(h.eventId, Parser)), OnFetched(h));
  }

  lemma DeliverParsedGood(cfg: Config, s: Store, p: PageParsed, input: Input)
    requires LedgerOk(s) && JobsOk(s) && OriginOk(s) && MessageOk(cfg, s, OnParsed(p))
    ensures GoodStep(cfg, s, None, Deliver(s, OnParsed(p), input))
  {
    SameGood(cfg, s, None);
    ClaimGood(cfg, s, Claim(p.eventId, Cleaner));
    MessageKept(cfg, s, AddClaim(s, Claim(p.eventId, Cleaner)), OnParsed(p));
  }

  lemma SubmissionGood(cfg: Config, s: Store, r: SubmitRequest)
    requires LedgerOk(s) && JobsOk(s) && OriginOk(s)
    ensures GoodStep(cfg, s, None, Submit(s, r)) && PendingOf(Submit(s, r).proc) == Nothing
  {
    SameGood(cfg, s, None);
  }

  lemma CrashInv(cfg: Config, m: Machine, j: nat)
    requires Inv(cfg, m)
    ensures Inv(cfg, Apply(cfg, m, Crash(j)))
  {
  }

  lemma ExpiryInv(cfg: Config, m: Machine, u: Url, e: EventId)
    requires Inv(cfg, m)
    ensures Inv(cfg, Apply(cfg, m, ExpireHold(u))) && Inv(cfg, Apply(cfg, m, ExpireReplays(e)))
  {
    var s := m.store;
    HoldGood(cfg, s, u);
    ReplaysGood(cfg, s, s.replays - {e});
    StartInv(cfg, m, m.taken, Next(Release(s, u), Idle));
    StartInv(cfg, m, m.taken, Next(s.(replays := s.replays - {e}), Idle));
  }

  /** One step of the interleaved pipeline, of any kind, keeps the invariant. */
  lemma ApplyInv(cfg: Config, m: Machine, a: Action)
    requires cfg.maxAttempts >= 1 && Inv(cfg, m)
    ensures Inv(cfg, Apply(cfg, m, a))
  {
    match a
    case Submission(r) =>
      SubmissionGood(cfg, m.store, r);
      StartInv(cfg, m, m.taken, Submit(m.store, r));
    case Delivery(i, input) =>
      if i < |m.store.log| {
        DeliverGood(cfg, m.store, m.store.log[i], input);
        StartInv(cfg, m, Apply(cfg, m, a).taken, Deliver(m.store, m.store.log[i], input));
      }
    case Progress(j) =>
      if j < |m.procs| { ProgressInv(cfg, m, j); }
    case Crash(j) => CrashInv(cfg, m, j);
    case ExpireHold(u) => ExpiryInv(cfg, m, u, 0);
    case ExpireReplays(e) => ExpiryInv(cfg, m, Url(""), e);
  }

  lemma {:induction false} RunInv(cfg: Config, m: Machine, actions: seq<Action>)
    requires cfg.maxAttempts >= 1 && Inv(cfg, m)
    ensures Inv(cfg, Run(cfg, m, actions))
  {
    if actions != [] {
      var init := actions[..|actions| - 1];
      RunInv(cfg, m, init);
      ApplyInv(cfg, Run(cfg, m, init), actions[|actions| - 1]);
    }
  }
}
