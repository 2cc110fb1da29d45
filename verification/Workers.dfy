/** The worker classes, statement by statement. Each method is proved to leave the platform in the state
    that its micro steps, run one after the other, lead to. */
module Workers {
  import opened Wrappers
  import opened Events
  import opened Links
  import opened Store
  import opened Handlers
  import opened Platform
  import opened Discoveries
  import opened Unrolling
  import opened CrawlOutcomes
  import opened StageOutcomes

  /** Where a method that may raise leaves off. */
  function Resume(ev: UrlDiscovered, raised: Option<Error>): Proc {
    if raised.Some? then CrawlFail(ev, raised.value) else Idle
  }

  class CrawlerWorker {
    const platform: Platform
    const cfg: Config

    constructor (platform: Platform, cfg: Config)
      ensures this.platform == platform && this.cfg == cfg
    {
      this.platform := platform;
      this.cfg := cfg;
    }

    /** Returns true when the event is a duplicate. */
    method ClaimOrSkip(ev: UrlDiscovered) returns (duplicate: bool)
      modifies platform
      ensures duplicate == (Claim(ev.eventId, Crawler) in old(platform.ledger))
      ensures platform.Snapshot() ==
        if duplicate then old(platform.Snapshot())
        else ClaimTransaction(old(platform.Snapshot()), OnDiscovered(ev, Seeded))
      ensures !duplicate ==> CrawlClaimed(old(platform.Snapshot()), platform.Snapshot(), ev)
    {
      var claimed := platform.TryClaim(Claim(ev.eventId, Crawler));
      duplicate := !claimed;
      if claimed {
        platform.Transition(KeyOf(ev), Claimed, None, Some(AtStage(Crawler)));
      }
    }

    method HandleMessage(ev: UrlDiscovered, via: Via, input: Input)
      modifies platform
      ensures var n := Deliver(old(platform.Snapshot()), OnDiscovered(ev, via), input);
              platform.Snapshot() == RunAlone(cfg, n.store, n.proc)
      ensures if Claim(ev.eventId, Crawler) in old(platform.ledger) then platform.Snapshot() == old(platform.Snapshot())
              else exists s1 :: CrawlClaimed(old(platform.Snapshot()), s1, ev)
                                && CrawlOutcome(cfg, s1, platform.Snapshot(), ev, input.crawl)
    {
      var duplicate := ClaimOrSkip(ev);
      if duplicate {
        return;
      }
      Handle(ev, input.crawl);
    }

    method Handle(ev: UrlDiscovered, input: CrawlInput)
      modifies platform
      ensures platform.Snapshot() == RunAlone(cfg, old(platform.Snapshot()), CrawlGate(ev, input))
      ensures CrawlOutcome(cfg, old(platform.Snapshot()), platform.Snapshot(), ev, input)
    {
      CrawlRuns(cfg, platform.Snapshot(), RunAlone(cfg, platform.Snapshot(), CrawlGate(ev, input)), ev, input);
      UnrollGate(cfg, platform.Snapshot(), ev, input);
      if ev.force {
        platform.ReleaseUrl(ev.normalized);
      } else {
        var claimed := platform.TryClaimUrl(ev.normalized);
        if !claimed {
          platform.Transition(KeyOf(ev), Skipped, None, None);
          return;
        }
      }
      UnrollFetch(cfg, platform.Snapshot(), ev, input);
      if !input.robotsAllow {
        platform.Transition(KeyOf(ev), Skipped, Some(RobotsDisallowed), None);
        return;
      }
      var raised := Crawl(ev, input.fetch);
      if raised.Some? {
        UnrollFail(cfg, platform.Snapshot(), ev, raised.value);
        platform.Transition(KeyOf(ev), Failed, raised, None);
        PublishFailure(ev, raised.value);
      }
    }

    /** The try block of the handler; the result is the exception that left it, if one did. */
    method Crawl(ev: UrlDiscovered, fetch: Fetch) returns (raised: Option<Error>)
      modifies platform
      ensures RunAlone(cfg, platform.Snapshot(), Resume(ev, raised)) ==
              RunAlone(cfg, old(platform.Snapshot()), AfterFetch(ev, fetch))
      ensures raised.None? ==>
        fetch.FetchReturns? && fetch.status < 400
        && FetchOutcome(cfg, old(platform.Snapshot()), platform.Snapshot(), ev, fetch.(luck := Fine))
      ensures raised.Some? ==> LeavesWith(fetch, raised.value)
      ensures fetch.FetchReturns? && fetch.status < 400 && fetch.luck.Fine? ==> raised.None?
    {
      match fetch
      case FetchRaises(error) =>
        return Some(error);
      case FetchReturns(status, checksum, stored, storageKey, links, luck) =>
        if status >= 400 {
          return Some(HttpStatus(status));
        }
        if stored.Some? && stored.value != "" && stored.value == checksum {
          UnrollTo(cfg, platform.Snapshot(), CrawlUnchanged(ev, checksum, luck),
                   StepUnchanged(platform.Snapshot(), ev, checksum, luck));
          if Strikes(luck) {
            return Some(luck.error);
          }
          platform.Transition(KeyOf(ev), Skipped, None, Some(Unchanged(checksum)));
          return None;
        }
        ghost var calm := RunAlone(cfg, platform.Snapshot(), CrawlPublish(ev, storageKey, checksum, links, Fine));
        FetchRuns(cfg, platform.Snapshot(), calm, ev, fetch.(luck := Fine));
        raised := PublishPage(ev, storageKey, checksum, links, luck);
    }

    method PublishPage(ev: UrlDiscovered, storageKey: string, checksum: string, links: seq<Link>, luck: Luck)
      returns (raised: Option<Error>)
      modifies platform
      ensures RunAlone(cfg, platform.Snapshot(), Resume(ev, raised)) ==
              RunAlone(cfg, old(platform.Snapshot()), CrawlPublish(ev, storageKey, checksum, links, luck))
      ensures raised.None? ==>
        platform.Snapshot() ==
        RunAlone(cfg, old(platform.Snapshot()), CrawlPublish(ev, storageKey, checksum, links, Fine))
      ensures raised.Some? ==> luck.RaisesAfter? && raised.value == luck.error
    {
      FinePage(cfg, platform.Snapshot(), ev, storageKey, checksum, links);
      UnrollPublish(cfg, platform.Snapshot(), ev, storageKey, checksum, links, luck);
      if Strikes(luck) {
        return Some(luck.error);
      }
      var fetched := HtmlFetched(ev.eventId, ev.jobId, ev.url, ev.normalized, ev.attempt, storageKey, checksum,
                                 ev.depth, ev.maxDepth, ev.domains);
      platform.PublishEvent(OnFetched(fetched));
      var luck1 := Spend(luck);
      UnrollMark(cfg, platform.Snapshot(), ev, storageKey, checksum, links, luck1);
      if Strikes(luck1) {
        return Some(luck1.error);
      }
      platform.Transition(KeyOf(ev), Fetched, None, Some(Stored(storageKey, checksum)));
      raised := EnqueueDiscoveredLinks(ev, links, Spend(luck1));
    }

    method EnqueueDiscoveredLinks(ev: UrlDiscovered, found: seq<Link>, luck0: Luck) returns (raised: Option<Error>)
      modifies platform
      ensures RunAlone(cfg, platform.Snapshot(), Resume(ev, raised)) ==
              RunAlone(cfg, old(platform.Snapshot()), CrawlLinks(ev, LinksToFollow(ev, found), luck0))
      ensures raised.None? ==>
        platform.Snapshot() == RunAlone(cfg, old(platform.Snapshot()), CrawlLinks(ev, LinksToFollow(ev, found), Fine))
      ensures raised.None? ==> LinksFollowed(old(platform.Snapshot()), platform.Snapshot(), ev, found)
      ensures raised.Some? ==> luck0.RaisesAfter? && raised.value == luck0.error
    {
      FollowedIsLimit(ev, found);
      var links := [];
      if ev.depth < ev.maxDepth {
        var allowed := FilterLinksByDomain(found, ev.domains);
        links := Limit(allowed);
      }
      raised := FollowLinks(ev, links, luck0);
    }

    /** The loop over the links that are left. */
    method FollowLinks(ev: UrlDiscovered, links: seq<Link>, luck0: Luck) returns (raised: Option<Error>)
      modifies platform
      ensures RunAlone(cfg, platform.Snapshot(), Resume(ev, raised)) ==
              RunAlone(cfg, old(platform.Snapshot()), CrawlLinks(ev, links, luck0))
      ensures raised.None? ==>
        platform.Snapshot() == RunAlone(cfg, old(platform.Snapshot()), CrawlLinks(ev, links, Fine))
      ensures raised.None? ==> exists picks ::
        Picked(ev.jobId, Targets(ev, links), 0, old(platform.seen), picks)
        && AllOffered(old(platform.Snapshot()), platform.Snapshot(), TermsOf(ev), Targets(ev, links), 0, picks)
      ensures raised.Some? ==> luck0.RaisesAfter? && raised.value == luck0.error
    {
      ghost var calm := RunAlone(cfg, platform.Snapshot(), CrawlLinks(ev, links, Fine));
      ghost var before := platform.Snapshot();
      ghost var whole := RunAlone(cfg, platform.Snapshot(), CrawlLinks(ev, links, luck0));
      var luck := luck0;
      var i := 0;
      while i < |links|
        invariant i <= |links|
        invariant LinksLeft(cfg, platform.Snapshot(), ev, links[i..], luck, whole, calm) && SameError(luck, luck0)
      {
        assert links[i..] == [links[i]] + links[i + 1..];
        raised, luck := FollowLink(ev, links[i], links[i + 1..], luck, whole, calm);
        if raised.Some? {
          return;
        }
        i := i + 1;
      }
      assert links[i..] == [];
      UnrollEnd(cfg, platform.Snapshot(), ev, luck);
      UnrollEnd(cfg, platform.Snapshot(), ev, Fine);
      ghost var picks := FineLinksRun(cfg, before, calm, ev, links);
      raised := if Strikes(luck) then Some(luck.error) else None;
    }

    /** The loop body. */
    method FollowLink(ev: UrlDiscovered, link: Link, ghost rest: seq<Link>, luck0: Luck, ghost whole: Store,
                      ghost calm: Store)
      returns (raised: Option<Error>, luck: Luck)
      modifies platform
      requires LinksLeft(cfg, platform.Snapshot(), ev, [link] + rest, luck0, whole, calm)
      ensures raised.Some? ==> RunAlone(cfg, platform.Snapshot(), CrawlFail(ev, raised.value)) == whole
      ensures raised.Some? ==> luck0.RaisesAfter? && raised.value == luck0.error
      ensures raised.None? ==> LinksLeft(cfg, platform.Snapshot(), ev, rest, luck, whole, calm)
      ensures SameError(luck, luck0)
    {
      UnrollLinks(cfg, platform.Snapshot(), ev, link, rest, luck0);
      FineLink(cfg, platform.Snapshot(), ev, link, rest);
      luck := luck0;
      if Strikes(luck) {
        return Some(luck.error), luck;
      }
      luck := Spend(luck);
      raised := None;
      var added := platform.MarkSeen(RowKey(ev.jobId, link.normalized));
      if added {
        raised, luck := QueueAndPublish(ev, link, rest, luck, whole);
      }
    }

    /** The rest of the loop body, for a link the job had not seen. */
    method QueueAndPublish(ev: UrlDiscovered, link: Link, ghost rest: seq<Link>, luck0: Luck, ghost whole: Store)
      returns (raised: Option<Error>, luck: Luck)
      modifies platform
      requires whole == RunAlone(cfg, platform.Snapshot(), CrawlQueue(ev, link, rest, luck0))
      ensures raised.Some? ==> RunAlone(cfg, platform.Snapshot(), CrawlFail(ev, raised.value)) == whole
      ensures raised.None? ==> RunAlone(cfg, platform.Snapshot(), CrawlLinks(ev, rest, luck)) == whole
      ensures raised.None? ==> platform.Snapshot() == AfterSeenLink(old(platform.Snapshot()), ev, link)
      ensures raised.Some? ==> luck0.RaisesAfter? && raised.value == luck0.error
      ensures SameError(luck, luck0)
    {
      luck := luck0;
      UnrollQueue(cfg, platform.Snapshot(), ev, link, rest, luck);
      if Strikes(luck) {
        return Some(luck.error), luck;
      }
      luck := Spend(luck);
      var _ := platform.QueueUrl(RowKey(ev.jobId, link.normalized), ev.depth + 1);
      UnrollEmit(cfg, platform.Snapshot(), ev, link, rest, luck);
      if Strikes(luck) {
        return Some(luck.error), luck;
      }
      luck := Spend(luck);
      var discovered := UrlDiscovered(platform.nextId, ev.jobId, link.url, link.normalized, 1, ev.depth + 1,
                                      ev.maxDepth, ev.domains, false);
      platform.PublishNewEvent(OnDiscovered(discovered, Linked));
      raised := None;
    }

    method PublishFailure(ev: UrlDiscovered, error: Error)
      modifies platform
      ensures platform.Snapshot() == RunAlone(cfg, old(platform.Snapshot()), CrawlReport(ev, error))
      ensures |platform.log| == |old(platform.log)| + 1 && old(platform.log) < platform.log
      ensures GivesUp(cfg, ev, error, platform.log[|old(platform.log)|], old(platform.nextId))
    {
      UnrollTo(cfg, platform.Snapshot(), CrawlReport(ev, error),
               Next(ReportCrawl(cfg, platform.Snapshot(), ev, error), Idle));
      if ev.attempt < cfg.maxAttempts {
        var failed := UrlFailed(platform.nextId, ev.jobId, ev.url, ev.normalized, ev.attempt, error, Crawler,
                                ev.depth, ev.maxDepth, ev.domains, ev.force, None, None, None);
        platform.PublishNewEvent(OnFailed(failed));
      } else {
        platform.PublishEvent(OnDlq(DeadDiscovered(ev)));
      }
    }
  }

  class ParserWorker {
    const platform: Platform
    const cfg: Config

    constructor (platform: Platform, cfg: Config)
      ensures this.platform == platform && this.cfg == cfg
    {
      this.platform := platform;
      this.cfg := cfg;
    }

    method HandleMessage(ev: HtmlFetched, input: Input)
      modifies platform
      ensures var n := Deliver(old(platform.Snapshot()), OnFetched(ev), input);
              platform.Snapshot() == RunAlone(cfg, n.store, n.proc)
      ensures var c := Claim(ev.eventId, Parser);
              if c in old(platform.ledger) then platform.Snapshot() == old(platform.Snapshot())
              else ParseOutcome(cfg, old(platform.Snapshot()).(ledger := old(platform.ledger) + {c}),
                                platform.Snapshot(), ev, input.parse)
    {
      var claimed := platform.TryClaim(Claim(ev.eventId, Parser));
      if !claimed {
        return;
      }
      Handle(ev, input.parse);
    }

    method Handle(ev: HtmlFetched, input: ParseInput)
      modifies platform
      ensures platform.Snapshot() == RunAlone(cfg, old(platform.Snapshot()), ParseBody(ev, input))
      ensures ParseOutcome(cfg, old(platform.Snapshot()), platform.Snapshot(), ev, input)
    {
      ParseRuns(cfg, platform.Snapshot(), RunAlone(cfg, platform.Snapshot(), ParseBody(ev, input)), ev, input);
      UnrollTo(cfg, platform.Snapshot(), ParseBody(ev, input), StepParse(platform.Snapshot(), ev, input));
      match input
      case ParseReturns(page) =>
        var parsed := PageParsed(ev.eventId, ev.jobId, ev.url, ev.normalized, ev.attempt, ev.storageKey,
                                 ev.checksum, page, ev.depth);
        platform.PublishEvent(OnParsed(parsed));
      case ParseRaises(error) =>
        PublishFailure(ev, error);
    }

    method PublishFailure(ev: HtmlFetched, error: Error)
      modifies platform
      ensures platform.Snapshot() == RunAlone(cfg, old(platform.Snapshot()), ParseReport(ev, error))
    {
      UnrollTo(cfg, platform.Snapshot(), ParseReport(ev, error),
               Next(ReportParse(cfg, platform.Snapshot(), ev, error), Idle));
      if ev.attempt < cfg.maxAttempts {
        var failed := UrlFailed(platform.nextId, ev.jobId, ev.url, ev.normalized, ev.attempt, error, Parser,
                                ev.depth, ev.maxDepth, ev.domains, false, None, None, None);
        platform.PublishNewEvent(OnFailed(failed));
      } else {
        platform.PublishEvent(OnDlq(DeadFetched(ev)));
      }
    }
  }

  class CleanerWorker {
    const platform: Platform
    const cfg: Config

    constructor (platform: Platform, cfg: Config)
      ensures this.platform == platform && this.cfg == cfg
    {
      this.platform := platform;
      this.cfg := cfg;
    }

    method HandleMessage(ev: PageParsed, input: Input)
      modifies platform
      ensures var n := Deliver(old(platform.Snapshot()), OnParsed(ev), input);
              platform.Snapshot() == RunAlone(cfg, n.store, n.proc)
      ensures var c := Claim(ev.eventId, Cleaner);
              if c in old(platform.ledger) then platform.Snapshot() == old(platform.Snapshot())
              else CleanOutcome(cfg, old(platform.Snapshot()).(ledger := old(platform.ledger) + {c}),
                                platform.Snapshot(), ev, input.clean)
    {
      var claimed := platform.TryClaim(Claim(ev.eventId, Cleaner));
      if !claimed {
        return;
      }
      Handle(ev, input.clean);
    }

    /** A transaction that raises leaves no trace; one that commits may still be followed by a failure. */
    method Handle(ev: PageParsed, input: CleanInput)
      modifies platform
      ensures platform.Snapshot() == RunAlone(cfg, old(platform.Snapshot()), CleanBody(ev, input))
      ensures CleanOutcome(cfg, old(platform.Snapshot()), platform.Snapshot(), ev, input)
    {
      CleanRuns(cfg, platform.Snapshot(), RunAlone(cfg, platform.Snapshot(), CleanBody(ev, input)), ev, input);
      UnrollTo(cfg, platform.Snapshot(), CleanBody(ev, input), StepClean(platform.Snapshot(), ev, input));
      if !input.CleanRaises? {
        platform.Transition(ParsedKey(ev), Parsed, None, None);
        platform.RefreshJobStatus(ev.jobId);
      }
      if !input.CleanCommits? {
        Fail(ev, input.error);
      }
    }

    method Fail(ev: PageParsed, error: Error)
      modifies platform
      ensures platform.Snapshot() == RunAlone(cfg, old(platform.Snapshot()), CleanFail(ev, error))
    {
      UnrollTo(cfg, platform.Snapshot(), CleanFail(ev, error),
               Next(Mark(platform.Snapshot(), ParsedKey(ev), Failed, Some(error), None), CleanReport(ev, error)));
      platform.Transition(ParsedKey(ev), Failed, Some(error), None);
      UnrollTo(cfg, platform.Snapshot(), CleanReport(ev, error),
               Next(ReportClean(cfg, platform.Snapshot(), ev, error), Idle));
      if ev.attempt < cfg.maxAttempts {
        var failed := UrlFailed(platform.nextId, ev.jobId, ev.url, ev.normalized, ev.attempt, error, Cleaner,
                                ev.depth, 1, [], false, Some(ev.storageKey), Some(ev.checksum), Some(ev));
        platform.PublishNewEvent(OnFailed(failed));
      } else {
        platform.PublishEvent(OnDlq(DeadParsed(ev)));
      }
    }
  }

  class RetryWorker {
    const platform: Platform
    const cfg: Config

    constructor (platform: Platform, cfg: Config)
      ensures this.platform == platform && this.cfg == cfg
    {
      this.platform := platform;
      this.cfg := cfg;
    }

    method Handle(ev: UrlFailed)
      modifies platform
      ensures platform.Snapshot() == RunAlone(cfg, old(platform.Snapshot()), RetryBody(ev))
      ensures RetryOutcome(cfg, old(platform.Snapshot()), platform.Snapshot(), ev)
    {
      RetryRuns(cfg, platform.Snapshot(), RunAlone(cfg, platform.Snapshot(), RetryBody(ev)), ev);
      UnrollTo(cfg, platform.Snapshot(), RetryBody(ev), Next(RetryStep(cfg, platform.Snapshot(), ev), Idle));
      if ev.attempt >= cfg.maxAttempts {
        platform.PublishEvent(OnDlq(DeadFailed(ev)));
        return;
      }
      if ev.stage == Cleaner && ev.pagePayload.Some? {
        var parsed := ev.pagePayload.value.(attempt := ev.attempt + 1);
        platform.PublishEvent(OnParsed(parsed));
      } else {
        var discovered := UrlDiscovered(platform.nextId, ev.jobId, ev.url, ev.normalized, ev.attempt + 1, ev.depth,
                                        ev.maxDepth, ev.domains, ev.force);
        platform.PublishNewEvent(OnDiscovered(discovered, Retried));
      }
    }
  }

  class DlqReplayConsumer {
    const platform: Platform
    const cfg: Config

    constructor (platform: Platform, cfg: Config)
      ensures this.platform == platform && this.cfg == cfg
    {
      this.platform := platform;
      this.cfg := cfg;
    }

    method Handle(letter: DeadLetter)
      modifies platform
      ensures platform.Snapshot() == RunAlone(cfg, old(platform.Snapshot()), ReplayCounting(letter))
      ensures ReplayOutcome(cfg, old(platform.Snapshot()), platform.Snapshot(), letter)
    {
      ReplayRuns(cfg, platform.Snapshot(), RunAlone(cfg, platform.Snapshot(), ReplayCounting(letter)), letter);
      UnrollTo(cfg, platform.Snapshot(), ReplayCounting(letter), StepCounting(cfg, platform.Snapshot(), letter));
      var count := platform.IncrementReplays(LetterId(letter));
      if count > cfg.maxReplays {
        return;
      }
      Replay(letter, Dump(letter));
    }

    /** The shape test and the publication. */
    method Replay(letter: DeadLetter, payload: Payload)
      requires payload == Dump(letter)
      modifies platform
      ensures platform.Snapshot() == RunAlone(cfg, old(platform.Snapshot()), ReplayPublishing(letter))
    {
      UnrollTo(cfg, platform.Snapshot(), ReplayPublishing(letter), Next(ReplayStep(platform.Snapshot(), letter), Idle));
      if payload.storageKey.Some? && payload.checksum.Some? && payload.links.Some? {
        var event := ValidateParsed(payload, platform.nextId);
        if event.Some? {
          platform.PublishEvent(OnParsed(event.value));
        }
      } else if payload.normalized.Some? && payload.jobId.Some? {
        var event := ValidateDiscovered(payload, platform.nextId);
        if event.Some? {
          platform.PublishEvent(OnDiscovered(event.value.(force := true), Replayed));
        }
      }
    }
  }
}
