/** What a crawl that nothing disturbs leaves behind, told field by field: the row, the messages, the dedup key,
    the seen set. The predicates refer to no step of the handler. */
module CrawlOutcomes {
  import opened Wrappers
  import opened Events
  import opened Links
  import opened Store
  import opened Discoveries
  import opened Handlers
  import opened Unrolling

  // ---------------------------------------------------------------- one row, one message

  /** Only the row of ev's URL changed: it has the status, and the error and checkpoint when there are any. */
  ghost predicate RowBecomes(s: Store, s': Store, ev: UrlDiscovered, st: Status, error: Option<Error>,
                             checkpoint: Option<Checkpoint>) {
    s' == s.(rows := s'.rows) && Transitioned(s.rows, s'.rows, RowKey(ev.jobId, ev.normalized), st, error, checkpoint)
  }

  /** The crawler gives up on ev: a failure event with a new id while attempts are left, else a dead letter. */
  predicate GivesUp(cfg: Config, ev: UrlDiscovered, error: Error, m: Message, newId: EventId) {
    if ev.attempt < cfg.maxAttempts then
      m == OnFailed(UrlFailed(
        eventId := newId, jobId := ev.jobId, url := ev.url, normalized := ev.normalized, attempt := ev.attempt,
        error := error, stage := Crawler, depth := ev.depth, maxDepth := ev.maxDepth, domains := ev.domains,
        force := ev.force, storageKey := None, checksum := None, pagePayload := None))
    else m == OnDlq(DeadDiscovered(ev))
  }

  /** The row failed with the error, and that was reported, all else being as before. */
  ghost predicate CrawlFailed(cfg: Config, s: Store, s': Store, ev: UrlDiscovered, error: Error) {
    && Transitioned(s.rows, s'.rows, RowKey(ev.jobId, ev.normalized), Failed, Some(error), None)
    && |s'.log| == |s.log| + 1 && s.log < s'.log && GivesUp(cfg, ev, error, s'.log[|s.log|], s.nextId)
    && s'.nextId == s.nextId + (if ev.attempt < cfg.maxAttempts then 1 else 0)
    && s' == s.(rows := s'.rows, log := s'.log, nextId := s'.nextId, origin := s'.origin)
  }

  // ---------------------------------------------------------------- links

  /** The links that are followed: none at the depth limit; below it the first 50 of those in an allowed domain. */
  predicate Followed(ev: UrlDiscovered, links: seq<Link>, followed: seq<Link>) {
    if ev.depth >= ev.maxDepth then followed == []
    else
      var allowed := FilterLinks(links, ev.domains);
      followed <= allowed && |followed| == if |allowed| < 50 then |allowed| else 50
  }

  /** A link as a target: one level down. */
  function Targets(ev: UrlDiscovered, links: seq<Link>): (xs: seq<Target>)
    ensures |xs| == |links|
    ensures forall i :: 0 <= i < |links| ==> xs[i] == Target(links[i].url, links[i].normalized, ev.depth + 1)
  {
    seq(|links|, i requires 0 <= i < |links| => Target(links[i].url, links[i].normalized, ev.depth + 1))
  }

  /** Links are crawled on the terms of their page's job, and not forced. */
  function TermsOf(ev: UrlDiscovered): Terms {
    Terms(job := ev.jobId, maxDepth := ev.maxDepth, domains := ev.domains, force := false, via := Linked)
  }

  /** What the links found on a page lead to. */
  ghost predicate LinksFollowed(s: Store, s': Store, ev: UrlDiscovered, links: seq<Link>) {
    exists followed, picks ::
      && Followed(ev, links, followed) && Picked(ev.jobId, Targets(ev, followed), 0, s.seen, picks)
      && AllOffered(s, s', TermsOf(ev), Targets(ev, followed), 0, picks)
  }

  /** Where the loop may be left: before target p, behind its seen mark, or behind its row. */
  ghost predicate HalfOffered(s: Store, s': Store, t: Terms, xs: seq<Target>, p: nat, half: nat) {
    if half == 0 then s' == s
    else
      && p < |xs| && half <= 2 && RowKey(t.job, xs[p].normalized) !in s.seen
      && var k := RowKey(t.job, xs[p].normalized);
         s' == s.(seen := s.seen + {k},
                  rows := if half == 1 || k in s.rows then s.rows
                          else s.rows[k := Row(xs[p].depth, Queued, None, None)])
  }

  ghost predicate PartOffered(s: Store, s1: Store, t: Terms, xs: seq<Target>, from: nat, picks: seq<nat>) {
    Picked(t.job, xs, from, s.seen, picks) && AllOffered(s, s1, t, xs, from, picks)
  }

  /** The first targets up to p were offered, and perhaps half of p: that took so many effects, then one raised. */
  ghost predicate CutAt(cfg: Config, s: Store, s1: Store, s2: Store, s': Store, ev: UrlDiscovered, xs: seq<Target>,
                        from: nat, steps: int, error: Error, p: nat, picks: seq<nat>, half: nat) {
    && from <= p <= |xs| && PartOffered(s, s1, TermsOf(ev), xs[..p], from, picks)
    && HalfOffered(s1, s2, TermsOf(ev), xs, p, half)
    && steps == p - from + 2 * |picks| + half
    && CrawlFailed(cfg, s2, s', ev, error)
  }

  ghost predicate CutShort(cfg: Config, s: Store, s': Store, ev: UrlDiscovered, links: seq<Link>, from: nat, steps: int,
                           error: Error) {
    exists s1, s2, p: nat, picks, half: nat ::
      CutAt(cfg, s, s1, s2, s', ev, Targets(ev, links), from, steps, error, p, picks, half)
  }

  // ---------------------------------------------------------------- the whole crawl

  /** Nothing raises among the next n effects. */
  predicate Lasts(luck: Luck, n: nat) {
    luck.Fine? || n <= luck.steps
  }

  /** The page as it is handed to the parser: this event's id and lineage, the object stored for it. */
  predicate IsFetched(m: Message, ev: UrlDiscovered, storageKey: string, checksum: string) {
    m == OnFetched(HtmlFetched(
      eventId := ev.eventId, jobId := ev.jobId, url := ev.url, normalized := ev.normalized, attempt := ev.attempt,
      storageKey := storageKey, checksum := checksum, depth := ev.depth, maxDepth := ev.maxDepth,
      domains := ev.domains))
  }

  /** s1 is s with the page published. */
  ghost predicate PagePublished(s: Store, s1: Store, ev: UrlDiscovered, storageKey: string, checksum: string) {
    && s1 == s.(log := s1.log)
    && |s1.log| == |s.log| + 1 && s.log < s1.log && IsFetched(s1.log[|s.log|], ev, storageKey, checksum)
  }

  /** s1 is s with the page published and its row marked. */
  ghost predicate PageStored(s: Store, s1: Store, ev: UrlDiscovered, storageKey: string, checksum: string) {
    && PagePublished(s, s1.(rows := s.rows), ev, storageKey, checksum)
    && Transitioned(s.rows, s1.rows, RowKey(ev.jobId, ev.normalized), Fetched, None,
                    Some(Stored(storageKey, checksum)))
  }

  /** The page is published, its row marked and its links followed. If the effects are cut short, exactly those before
      the one that raises are there, and then the failure. */
  ghost predicate PageOutcome(cfg: Config, s: Store, s': Store, ev: UrlDiscovered, f: Fetch, followed: seq<Link>,
                              picks: seq<nat>)
    requires f.FetchReturns?
  {
    if Lasts(f.luck, 3 + |followed| + 2 * |picks|) then
      exists s1 :: PageStored(s, s1, ev, f.storageKey, f.checksum)
                    && AllOffered(s1, s', TermsOf(ev), Targets(ev, followed), 0, picks)
    else if f.luck.steps == 0 then CrawlFailed(cfg, s, s', ev, f.luck.error)
    else if f.luck.steps == 1 then
      exists s1 :: PagePublished(s, s1, ev, f.storageKey, f.checksum) && CrawlFailed(cfg, s1, s', ev, f.luck.error)
    else
      exists s1 :: PageStored(s, s1, ev, f.storageKey, f.checksum)
                    && CutShort(cfg, s1, s', ev, followed, 0, f.luck.steps - 2, f.luck.error)
  }

  /** What comes of the fetch. A page is unchanged if its checksum is the stored one, and not empty. */
  ghost predicate FetchOutcome(cfg: Config, s: Store, s': Store, ev: UrlDiscovered, f: Fetch) {
    match f
    case FetchRaises(error) => CrawlFailed(cfg, s, s', ev, error)
    case FetchReturns(status, checksum, stored, _, links, luck) =>
      if status >= 400 then CrawlFailed(cfg, s, s', ev, HttpStatus(status))
      else if stored == Some(checksum) && checksum != "" then
        if Lasts(luck, 1) then RowBecomes(s, s', ev, Skipped, None, Some(Unchanged(checksum)))
        else CrawlFailed(cfg, s, s', ev, luck.error)
      else
        exists followed, picks ::
          && Followed(ev, links, followed) && Picked(ev.jobId, Targets(ev, followed), 0, s.seen, picks)
          && PageOutcome(cfg, s, s', ev, f, followed, picks)
  }

  /** The claim transaction of ev: its event id is in the ledger, and its row is claimed. */
  ghost predicate CrawlClaimed(s: Store, s': Store, ev: UrlDiscovered) {
    && s' == s.(ledger := s.ledger + {Claim(ev.eventId, Crawler)}, rows := s'.rows)
    && Transitioned(s.rows, s'.rows, RowKey(ev.jobId, ev.normalized), Claimed, None, Some(AtStage(Crawler)))
  }

  /** The exception that may leave the try block. */
  predicate LeavesWith(f: Fetch, error: Error) {
    match f
    case FetchRaises(e) => error == e
    case FetchReturns(status, _, _, _, _, luck) =>
      if status >= 400 then error == HttpStatus(status) else luck.RaisesAfter? && error == luck.error
  }

  /** From the dedup gate on. A forced crawl leaves its URL free, any other holds it; a URL that is held is skipped. */
  ghost predicate CrawlOutcome(cfg: Config, s: Store, s': Store, ev: UrlDiscovered, input: CrawlInput) {
    if !ev.force && ev.normalized in s.held then RowBecomes(s, s', ev, Skipped, None, None)
    else
      var s1 := s.(held := if ev.force then s.held - {ev.normalized} else s.held + {ev.normalized});
      if input.robotsAllow then FetchOutcome(cfg, s1, s', ev, input.fetch)
      else RowBecomes(s1, s', ev, Skipped, Some(RobotsDisallowed), None)
  }

  // ---------------------------------------------------------------- failures

  /** How a crawl ends that raised. */
  lemma FailureRuns(cfg: Config, s: Store, ev: UrlDiscovered, error: Error, s': Store)
    requires s' == RunAlone(cfg, s, CrawlFail(ev, error))
    ensures CrawlFailed(cfg, s, s', ev, error)
  {
    UnrollFail(cfg, s, ev, error);
    var s1 := Mark(s, KeyOf(ev), Failed, Some(error), None);
    UnrollTo(cfg, s1, CrawlReport(ev, error), Next(ReportCrawl(cfg, s1, ev, error), Idle));
  }

  // ---------------------------------------------------------------- following the links

  /** The links from a position on were followed, or an effect raised before the last one: there is one for each, one
      for the end, and two more for each new URL. */
  ghost predicate LinksOutcome(cfg: Config, s: Store, s': Store, ev: UrlDiscovered, links: seq<Link>, from: nat,
                               luck: Luck, picks: seq<nat>)
    requires from <= |links|
  {
    && Picked(ev.jobId, Targets(ev, links), from, s.seen, picks)
    && if Lasts(luck, 1 + |links| - from + 2 * |picks|) then
         AllOffered(s, s', TermsOf(ev), Targets(ev, links), from, picks)
       else CutShort(cfg, s, s', ev, links, from, luck.steps, luck.error)
  }

  /** The loop is left by an exception. */
  lemma LinksCut(cfg: Config, s: Store, s2: Store, s': Store, ev: UrlDiscovered, links: seq<Link>, from: nat,
                 luck: Luck) returns (picks: seq<nat>)
    requires from <= |links| && luck.RaisesAfter? && s' == RunAlone(cfg, s2, CrawlFail(ev, luck.error))
    requires luck.steps == 0 || FirstSeen(ev.jobId, Targets(ev, links), from, s.seen, from)
    requires HalfOffered(s, s2, TermsOf(ev), Targets(ev, links), from, luck.steps)
    ensures LinksOutcome(cfg, s, s', ev, links, from, luck, picks)
  {
    var xs := Targets(ev, links);
    picks := SomePicks(ev.jobId, xs, from, s.seen);
    assert FirstSeen(ev.jobId, xs, from, s.seen, from) ==> from in picks;
    FailureRuns(cfg, s2, ev, luck.error, s');
    NothingOffered(s, TermsOf(ev), xs[..from]);
    assert CutAt(cfg, s, s, s2, s', ev, xs, from, luck.steps, luck.error, from, [], luck.steps);
  }

  lemma SeenShort(cfg: Config, s: Store, s': Store, ev: UrlDiscovered, links: seq<Link>, from: nat, steps: int,
                  error: Error, more: int)
    requires from < |links| && RowKey(ev.jobId, links[from].normalized) in s.seen && more == steps + 1
    requires CutShort(cfg, s, s', ev, links, from + 1, steps, error)
    ensures CutShort(cfg, s, s', ev, links, from, more, error)
  {
    var xs, t := Targets(ev, links), TermsOf(ev);
    var s1, s2, p: nat, picks, half: nat :| CutAt(cfg, s, s1, s2, s', ev, xs, from + 1, steps, error, p, picks, half);
    SkipPicks(ev.jobId, xs[..p], from, s.seen, picks);
    SeenOffered(s, s1, t, xs[..p], from, picks);
    assert CutAt(cfg, s, s1, s2, s', ev, xs, from, more, error, p, picks, half);
  }

  lemma NewPart(s: Store, s0: Store, s1: Store, t: Terms, xs: seq<Target>, from: nat, picks: seq<nat>, all: seq<nat>)
    requires from < |xs| && RowKey(t.job, xs[from].normalized) !in s.seen && OneOffered(s, s0, t, xs[from])
    requires all == [from] + picks && PartOffered(s0, s1, t, xs, from + 1, picks)
    ensures PartOffered(s, s1, t, xs, from, all)
  {
    TakePick(t.job, xs, from, s.seen, picks, all);
    NewOffered(s, s0, s1, t, xs, from, picks, all);
  }

  lemma NewCut(cfg: Config, s: Store, s0: Store, s1: Store, s2: Store, s': Store, ev: UrlDiscovered, links: seq<Link>,
               from: nat, steps: int, error: Error, p: nat, picks: seq<nat>, half: nat, all: seq<nat>, more: int)
    requires CutAt(cfg, s0, s1, s2, s', ev, Targets(ev, links), from + 1, steps, error, p, picks, half)
    requires PartOffered(s, s1, TermsOf(ev), Targets(ev, links)[..p], from, all)
    requires |all| == |picks| + 1 && more == steps + 3
    ensures CutShort(cfg, s, s', ev, links, from, more, error)
  {
    assert CutAt(cfg, s, s1, s2, s', ev, Targets(ev, links), from, more, error, p, all, half);
  }

  lemma NewShort(cfg: Config, s: Store, s0: Store, s': Store, ev: UrlDiscovered, links: seq<Link>, from: nat,
                 steps: int, error: Error, more: int)
    requires from < |links| && RowKey(ev.jobId, links[from].normalized) !in s.seen && more == steps + 3
    requires OneOffered(s, s0, TermsOf(ev), Targets(ev, links)[from])
    requires CutShort(cfg, s0, s', ev, links, from + 1, steps, error)
    ensures CutShort(cfg, s, s', ev, links, from, more, error)
  {
    var xs, t := Targets(ev, links), TermsOf(ev);
    var s1, s2, p: nat, picks, half: nat :| CutAt(cfg, s0, s1, s2, s', ev, xs, from + 1, steps, error, p, picks, half);
    var all := [from] + picks;
    NewPart(s, s0, s1, t, xs[..p], from, picks, all);
    NewCut(cfg, s, s0, s1, s2, s', ev, links, from, steps, error, p, picks, half, all, more);
  }

  lemma NoLinkLeft(cfg: Config, s: Store, ev: UrlDiscovered, links: seq<Link>, luck: Luck)
    requires !Strikes(luck)
    ensures LinksOutcome(cfg, s, s, ev, links, |links|, luck, [])
  {
    NothingOffered(s, TermsOf(ev), Targets(ev, links));
  }

  lemma SeenLink(cfg: Config, s: Store, s': Store, ev: UrlDiscovered, links: seq<Link>, from: nat, luck: Luck,
                 picks: seq<nat>)
    requires from < |links| && RowKey(ev.jobId, links[from].normalized) in s.seen && !Strikes(luck)
    requires LinksOutcome(cfg, s, s', ev, links, from + 1, Spend(luck), picks)
    ensures LinksOutcome(cfg, s, s', ev, links, from, luck, picks)
  {
    SkipPicks(ev.jobId, Targets(ev, links), from, s.seen, picks);
    if Lasts(luck, 1 + |links| - from + 2 * |picks|) {
      SeenOffered(s, s', TermsOf(ev), Targets(ev, links), from, picks);
    } else {
      SeenShort(cfg, s, s', ev, links, from, luck.steps - 1, luck.error, luck.steps);
    }
  }

  /** What the outcome behind a new link says in terms of the luck before it. */
  lemma Behind(cfg: Config, s: Store, s': Store, ev: UrlDiscovered, links: seq<Link>, from: nat, luck: Luck,
               later: seq<nat>, lasts: bool)
    requires from < |links| && Lasts(luck, 3)
    requires lasts == Lasts(luck, 1 + |links| - from + 2 * (|later| + 1))
    requires LinksOutcome(cfg, s, s', ev, links, from + 1, Spend(Spend(Spend(luck))), later)
    ensures Picked(ev.jobId, Targets(ev, links), from + 1, s.seen, later)
    ensures lasts ==> AllOffered(s, s', TermsOf(ev), Targets(ev, links), from + 1, later)
    ensures !lasts ==> CutShort(cfg, s, s', ev, links, from + 1, luck.steps - 3, luck.error)
  {
  }

  lemma NewLink(cfg: Config, s: Store, s0: Store, s': Store, ev: UrlDiscovered, links: seq<Link>, from: nat, luck: Luck,
                later: seq<nat>, picks: seq<nat>, lasts: bool)
    requires from < |links| && RowKey(ev.jobId, links[from].normalized) !in s.seen
    requires OneOffered(s, s0, TermsOf(ev), Targets(ev, links)[from]) && picks == [from] + later
    requires Picked(ev.jobId, Targets(ev, links), from, s.seen, picks)
    requires Picked(ev.jobId, Targets(ev, links), from + 1, s0.seen, later)
    requires lasts == Lasts(luck, 1 + |links| - from + 2 * |picks|)
    requires lasts ==> AllOffered(s0, s', TermsOf(ev), Targets(ev, links), from + 1, later)
    requires !lasts ==> CutShort(cfg, s0, s', ev, links, from + 1, luck.steps - 3, luck.error)
    ensures LinksOutcome(cfg, s, s', ev, links, from, luck, picks)
  {
    if lasts {
      NewOffered(s, s0, s', TermsOf(ev), Targets(ev, links), from, later, picks);
    } else {
      NewShort(cfg, s, s0, s', ev, links, from, luck.steps - 3, luck.error, luck.steps);
    }
  }

  lemma QueuesOne(s: Store, ev: UrlDiscovered, links: seq<Link>, from: nat, s1: Store, s2: Store, s3: Store)
    requires from < |links| && LinkKey(ev, links[from]) !in s.seen && s1 == AddSeen(s, LinkKey(ev, links[from]))
    requires s2 == EnsureQueued(s1, LinkKey(ev, links[from]), ev.depth + 1)
    requires s3 == PublishFresh(s2, OnDiscovered(ChildEvent(ev, links[from], s2.nextId), Linked))
    ensures FirstSeen(ev.jobId, Targets(ev, links), from, s.seen, from)
    ensures HalfOffered(s, s1, TermsOf(ev), Targets(ev, links), from, 1)
    ensures HalfOffered(s, s2, TermsOf(ev), Targets(ev, links), from, 2)
    ensures OneOffered(s, s3, TermsOf(ev), Targets(ev, links)[from])
  {
  }

  /** The loop from a position on, to its end or to the effect that raises. */
  lemma {:induction false} LinksRun(cfg: Config, s: Store, s': Store, ev: UrlDiscovered, links: seq<Link>, from: nat,
                                    luck: Luck) returns (picks: seq<nat>)
    requires from <= |links| && s' == RunAlone(cfg, s, CrawlLinks(ev, links[from..], luck))
    ensures LinksOutcome(cfg, s, s', ev, links, from, luck, picks)
    decreases |links| - from, 1
  {
    if from == |links| {
      assert links[from..] == [];
      UnrollEnd(cfg, s, ev, luck);
      if Strikes(luck) {
        picks := LinksCut(cfg, s, s, s', ev, links, from, luck);
      } else {
        picks := [];
        NoLinkLeft(cfg, s, ev, links, luck);
      }
      return;
    }
    assert links[from..] == [links[from]] + links[from + 1..];
    UnrollLinks(cfg, s, ev, links[from], links[from + 1..], luck);
    if Strikes(luck) {
      picks := LinksCut(cfg, s, s, s', ev, links, from, luck);
    } else if LinkKey(ev, links[from]) in s.seen {
      picks := LinksRun(cfg, s, s', ev, links, from + 1, Spend(luck));
      SeenLink(cfg, s, s', ev, links, from, luck, picks);
    } else {
      picks := NewLinkRuns(cfg, s, AddSeen(s, LinkKey(ev, links[from])), s', ev, links, from, luck);
    }
  }

  lemma {:induction false} NewLinkRuns(cfg: Config, s: Store, s1: Store, s': Store, ev: UrlDiscovered,
                                       links: seq<Link>, from: nat, luck: Luck) returns (picks: seq<nat>)
    requires from < |links| && LinkKey(ev, links[from]) !in s.seen && s1 == AddSeen(s, LinkKey(ev, links[from]))
    requires !Strikes(luck)
    requires s' == RunAlone(cfg, s1, CrawlQueue(ev, links[from], links[from + 1..], Spend(luck)))
    ensures LinksOutcome(cfg, s, s', ev, links, from, luck, picks)
    decreases |links| - from, 0
  {
    var s2 := EnsureQueued(s1, LinkKey(ev, links[from]), ev.depth + 1);
    var s3 := PublishFresh(s2, OnDiscovered(ChildEvent(ev, links[from], s2.nextId), Linked));
    QueuesOne(s, ev, links, from, s1, s2, s3);
    NewLinkUnrolls(cfg, s1, s2, s3, s', ev, links[from], links[from + 1..], luck);
    if Lasts(luck, 3) {
      var later := LinksRun(cfg, s3, s', ev, links, from + 1, Spend(Spend(Spend(luck))));
      picks := JoinNew(cfg, s, s3, s', ev, links, from, luck, later);
    } else {
      picks := LinksCut(cfg, s, if luck.steps == 1 then s1 else s2, s', ev, links, from, luck);
    }
  }

  lemma JoinNew(cfg: Config, s: Store, s0: Store, s': Store, ev: UrlDiscovered, links: seq<Link>, from: nat,
                luck: Luck, later: seq<nat>) returns (picks: seq<nat>)
    requires from < |links| && RowKey(ev.jobId, links[from].normalized) !in s.seen && Lasts(luck, 3)
    requires OneOffered(s, s0, TermsOf(ev), Targets(ev, links)[from])
    requires LinksOutcome(cfg, s0, s', ev, links, from + 1, Spend(Spend(Spend(luck))), later)
    ensures LinksOutcome(cfg, s, s', ev, links, from, luck, picks)
  {
    picks := [from] + later;
    var lasts := Lasts(luck, 1 + |links| - from + 2 * |picks|);
    Behind(cfg, s0, s', ev, links, from, luck, later, lasts);
    TakePick(ev.jobId, Targets(ev, links), from, s.seen, later, picks);
    NewLink(cfg, s, s0, s', ev, links, from, luck, later, picks, lasts);
  }

  lemma NewLinkUnrolls(cfg: Config, s1: Store, s2: Store, s3: Store, s': Store, ev: UrlDiscovered, link: Link,
                       rest: seq<Link>, luck: Luck)
    requires s2 == EnsureQueued(s1, LinkKey(ev, link), ev.depth + 1)
    requires s3 == PublishFresh(s2, OnDiscovered(ChildEvent(ev, link, s2.nextId), Linked))
    requires !Strikes(luck) && s' == RunAlone(cfg, s1, CrawlQueue(ev, link, rest, Spend(luck)))
    ensures Lasts(luck, 3) ==> s' == RunAlone(cfg, s3, CrawlLinks(ev, rest, Spend(Spend(Spend(luck)))))
    ensures !Lasts(luck, 3) ==> s' == RunAlone(cfg, if luck.steps == 1 then s1 else s2, CrawlFail(ev, luck.error))
  {
    UnrollQueue(cfg, s1, ev, link, rest, Spend(luck));
    if Lasts(luck, 2) {
      UnrollEmit(cfg, s2, ev, link, rest, Spend(Spend(luck)));
    }
  }

  /** The store after a link that the job has just marked as seen was queued and published. */
  function AfterSeenLink(s: Store, ev: UrlDiscovered, link: Link): Store {
    var s1 := EnsureQueued(s, LinkKey(ev, link), ev.depth + 1);
    PublishFresh(s1, OnDiscovered(ChildEvent(ev, link, s1.nextId), Linked))
  }

  /** The same exception is ahead, if any. */
  predicate SameError(now: Luck, before: Luck) {
    now.RaisesAfter? == before.RaisesAfter? && (now.RaisesAfter? ==> now.error == before.error)
  }

  lemma FineLink(cfg: Config, s: Store, ev: UrlDiscovered, link: Link, rest: seq<Link>)
    ensures RunAlone(cfg, s, CrawlLinks(ev, [link] + rest, Fine)) ==
            RunAlone(cfg, if LinkKey(ev, link) in s.seen then s
                          else AfterSeenLink(AddSeen(s, LinkKey(ev, link)), ev, link), CrawlLinks(ev, rest, Fine))
  {
    UnrollLinks(cfg, s, ev, link, rest, Fine);
    if LinkKey(ev, link) !in s.seen {
      var s1 := AddSeen(s, LinkKey(ev, link));
      UnrollQueue(cfg, s1, ev, link, rest, Fine);
      UnrollEmit(cfg, EnsureQueued(s1, LinkKey(ev, link), ev.depth + 1), ev, link, rest, Fine);
    }
  }

  /** With these links left the loop ends in `whole`, or, should nothing more raise, in `calm`. */
  ghost predicate LinksLeft(cfg: Config, s: Store, ev: UrlDiscovered, links: seq<Link>, luck: Luck, whole: Store,
                            calm: Store) {
    RunAlone(cfg, s, CrawlLinks(ev, links, luck)) == whole && RunAlone(cfg, s, CrawlLinks(ev, links, Fine)) == calm
  }

  /** The loop when nothing raises. */
  lemma FineLinksRun(cfg: Config, s: Store, s': Store, ev: UrlDiscovered, links: seq<Link>) returns (picks: seq<nat>)
    requires s' == RunAlone(cfg, s, CrawlLinks(ev, links, Fine))
    ensures Picked(ev.jobId, Targets(ev, links), 0, s.seen, picks)
    ensures AllOffered(s, s', TermsOf(ev), Targets(ev, links), 0, picks)
  {
    assert links[0..] == links;
    picks := LinksRun(cfg, s, s', ev, links, 0, Fine);
  }

  // ---------------------------------------------------------------- the whole crawl

  lemma FollowedIsLimit(ev: UrlDiscovered, links: seq<Link>)
    ensures Followed(ev, links, LinksToFollow(ev, links))
  {
  }

  lemma StoresPage(s: Store, ev: UrlDiscovered, key: string, checksum: string, s1: Store, s2: Store)
    requires s1 == Publish(s, OnFetched(FetchedEvent(ev, key, checksum)))
    requires s2 == Mark(s1, KeyOf(ev), Fetched, None, Some(Stored(key, checksum)))
    ensures PagePublished(s, s1, ev, key, checksum) && PageStored(s, s2, ev, key, checksum) && s2.seen == s.seen
  {
  }

  lemma AfterPage(cfg: Config, s: Store, s1: Store, s': Store, ev: UrlDiscovered, f: Fetch, followed: seq<Link>,
                  luck: Luck, picks: seq<nat>)
    requires f.FetchReturns? && !Strikes(f.luck) && !Strikes(Spend(f.luck)) && luck == Spend(Spend(f.luck))
    requires PageStored(s, s1, ev, f.storageKey, f.checksum)
    requires LinksOutcome(cfg, s1, s', ev, followed, 0, luck, picks)
    ensures PageOutcome(cfg, s, s', ev, f, followed, picks)
  {
  }

  /** Mark and links, behind the publication. */
  lemma MarkRuns(cfg: Config, s: Store, s1: Store, s': Store, ev: UrlDiscovered, f: Fetch, followed: seq<Link>)
    returns (picks: seq<nat>)
    requires f.FetchReturns? && !Strikes(f.luck) && followed == LinksToFollow(ev, f.links)
    requires s1 == Publish(s, OnFetched(FetchedEvent(ev, f.storageKey, f.checksum)))
    requires s' == RunAlone(cfg, s1, CrawlMark(ev, f.storageKey, f.checksum, f.links, Spend(f.luck)))
    ensures Picked(ev.jobId, Targets(ev, followed), 0, s.seen, picks)
    ensures PageOutcome(cfg, s, s', ev, f, followed, picks)
  {
    var s2 := Mark(s1, KeyOf(ev), Fetched, None, Some(Stored(f.storageKey, f.checksum)));
    StoresPage(s, ev, f.storageKey, f.checksum, s1, s2);
    UnrollMark(cfg, s1, ev, f.storageKey, f.checksum, f.links, Spend(f.luck));
    if Strikes(Spend(f.luck)) {
      picks := SomePicks(ev.jobId, Targets(ev, followed), 0, s.seen);
      FailureRuns(cfg, s1, ev, f.luck.error, s');
    } else {
      assert followed[0..] == followed;
      picks := LinksRun(cfg, s2, s', ev, followed, 0, Spend(Spend(f.luck)));
      AfterPage(cfg, s, s2, s', ev, f, followed, Spend(Spend(f.luck)), picks);
    }
  }

  /** Publication, mark and links. */
  lemma {:induction false} PageRuns(cfg: Config, s: Store, s': Store, ev: UrlDiscovered, f: Fetch)
    returns (followed: seq<Link>, picks: seq<nat>)
    requires f.FetchReturns?
    requires s' == RunAlone(cfg, s, CrawlPublish(ev, f.storageKey, f.checksum, f.links, f.luck))
    ensures Followed(ev, f.links, followed) && Picked(ev.jobId, Targets(ev, followed), 0, s.seen, picks)
    ensures PageOutcome(cfg, s, s', ev, f, followed, picks)
  {
    followed := LinksToFollow(ev, f.links);
    FollowedIsLimit(ev, f.links);
    UnrollPublish(cfg, s, ev, f.storageKey, f.checksum, f.links, f.luck);
    if Strikes(f.luck) {
      picks := SomePicks(ev.jobId, Targets(ev, followed), 0, s.seen);
      FailureRuns(cfg, s, ev, f.luck.error, s');
    } else {
      var s1 := Publish(s, OnFetched(FetchedEvent(ev, f.storageKey, f.checksum)));
      picks := MarkRuns(cfg, s, s1, s', ev, f, followed);
    }
  }

  lemma UnchangedRuns(cfg: Config, s: Store, s': Store, ev: UrlDiscovered, checksum: string, luck: Luck)
    requires s' == RunAlone(cfg, s, CrawlUnchanged(ev, checksum, luck))
    ensures if Lasts(luck, 1) then RowBecomes(s, s', ev, Skipped, None, Some(Unchanged(checksum)))
            else CrawlFailed(cfg, s, s', ev, luck.error)
  {
    UnrollTo(cfg, s, CrawlUnchanged(ev, checksum, luck), StepUnchanged(s, ev, checksum, luck));
    if Strikes(luck) {
      FailureRuns(cfg, s, ev, luck.error, s');
    }
  }

  /** What comes of a fetch, whatever it returns. */
  lemma {:induction false} FetchRuns(cfg: Config, s: Store, s': Store, ev: UrlDiscovered, f: Fetch)
    requires s' == RunAlone(cfg, s, AfterFetch(ev, f))
    ensures FetchOutcome(cfg, s, s', ev, f)
  {
    if f.FetchRaises? {
      FailureRuns(cfg, s, ev, f.error, s');
    } else if f.status >= 400 {
      FailureRuns(cfg, s, ev, HttpStatus(f.status), s');
    } else if IsUnchanged(f) {
      UnchangedRuns(cfg, s, s', ev, f.checksum, f.luck);
    } else {
      var followed, picks := PageRuns(cfg, s, s', ev, f);
    }
  }

  lemma FinePage(cfg: Config, s: Store, ev: UrlDiscovered, key: string, checksum: string, links: seq<Link>)
    ensures RunAlone(cfg, s, CrawlPublish(ev, key, checksum, links, Fine)) ==
            RunAlone(cfg, Mark(Publish(s, OnFetched(FetchedEvent(ev, key, checksum))), KeyOf(ev), Fetched, None,
                               Some(Stored(key, checksum))),
                     CrawlLinks(ev, LinksToFollow(ev, links), Fine))
  {
    UnrollPublish(cfg, s, ev, key, checksum, links, Fine);
    UnrollMark(cfg, Publish(s, OnFetched(FetchedEvent(ev, key, checksum))), ev, key, checksum, links, Fine);
  }

  /** The whole crawl, from the dedup gate on, for any event, input and store. */
  lemma {:induction false} CrawlRuns(cfg: Config, s: Store, s': Store, ev: UrlDiscovered, input: CrawlInput)
    requires s' == RunAlone(cfg, s, CrawlGate(ev, input))
    ensures CrawlOutcome(cfg, s, s', ev, input)
  {
    UnrollGate(cfg, s, ev, input);
    if ev.force || ev.normalized !in s.held {
      var s1 := if ev.force then Release(s, ev.normalized) else Hold(s, ev.normalized);
      UnrollFetch(cfg, s1, ev, input);
      if input.robotsAllow {
        FetchRuns(cfg, s1, s', ev, input.fetch);
      }
    }
  }

  // ---------------------------------------------------------------- what that means for a link

  /** A crawl that fetches a new or changed page and is not cut short. */
  predicate FetchesPage(s: Store, ev: UrlDiscovered, input: CrawlInput) {
    var f := input.fetch;
    && (ev.force || ev.normalized !in s.held) && input.robotsAllow
    && f.FetchReturns? && f.status < 400 && !(f.stored == Some(f.checksum) && f.checksum != "") && f.luck.Fine?
  }

  lemma PageFetched(cfg: Config, s: Store, s': Store, ev: UrlDiscovered, input: CrawlInput)
    returns (sg: Store, s1: Store, followed: seq<Link>, picks: seq<nat>)
    requires s' == RunAlone(cfg, s, CrawlGate(ev, input)) && FetchesPage(s, ev, input)
    ensures sg == s.(held := sg.held) && PageStored(sg, s1, ev, input.fetch.storageKey, input.fetch.checksum)
    ensures Followed(ev, input.fetch.links, followed)
    ensures Picked(ev.jobId, Targets(ev, followed), 0, s.seen, picks)
    ensures AllOffered(s1, s', TermsOf(ev), Targets(ev, followed), 0, picks)
  {
    CrawlRuns(cfg, s, s', ev, input);
    var f := input.fetch;
    sg := s.(held := if ev.force then s.held - {ev.normalized} else s.held + {ev.normalized});
    followed, picks :|
      && Followed(ev, f.links, followed) && Picked(ev.jobId, Targets(ev, followed), 0, sg.seen, picks)
      && PageOutcome(cfg, sg, s', ev, f, followed, picks);
    s1 :| PageStored(sg, s1, ev, f.storageKey, f.checksum)
          && AllOffered(s1, s', TermsOf(ev), Targets(ev, followed), 0, picks);
  }

  /** Below the depth limit each of the first 50 allowed links is seen afterwards; if it was not before, its URL has
      a row, at the next depth unless it had one, and exactly one message. */
  lemma {:induction false} FirstFiftyFollowed(cfg: Config, s: Store, s': Store, ev: UrlDiscovered, input: CrawlInput,
                                              i: nat)
    requires s' == RunAlone(cfg, s, CrawlGate(ev, input)) && FetchesPage(s, ev, input) && ev.depth < ev.maxDepth
    requires i < |FilterLinks(input.fetch.links, ev.domains)| && i < 50
    ensures var k := RowKey(ev.jobId, FilterLinks(input.fetch.links, ev.domains)[i].normalized);
            && k in s'.seen
            && (k !in s.seen ==>
                 && k in s'.rows
                 && (k !in s.rows && k.url != ev.normalized ==> s'.rows[k] == Row(ev.depth + 1, Queued, None, None))
                 && |s.log| < |s'.log| && AnnouncedOnce(s'.log[|s.log| + 1..], k, Linked))
  {
    var sg, s1, followed, picks := PageFetched(cfg, s, s', ev, input);
    assert FilterLinks(input.fetch.links, ev.domains)[i] == followed[i];
    OfferedLink(s, s1, s', TermsOf(ev), Targets(ev, followed), picks, i, ev.depth + 1, KeyOf(ev));
  }

  lemma OfferedLink(s: Store, s1: Store, s': Store, t: Terms, xs: seq<Target>, picks: seq<nat>, i: nat, depth: int,
                    own: RowKey)
    requires i < |xs| && Picked(t.job, xs, 0, s1.seen, picks) && AllOffered(s1, s', t, xs, 0, picks)
    requires forall j :: 0 <= j < |xs| ==> xs[j].depth == depth
    requires s1.seen == s.seen && |s1.log| == |s.log| + 1 && forall k :: k in s1.rows && k != own ==> k in s.rows
    ensures var k := RowKey(t.job, xs[i].normalized);
            && k in s'.seen && |s.log| < |s'.log|
            && (k !in s.seen ==>
                 && k in s'.rows && (k !in s.rows && k != own ==> s'.rows[k] == Row(depth, Queued, None, None))
                 && AnnouncedOnce(s'.log[|s.log| + 1..], k, t.via))
  {
    var k := RowKey(t.job, xs[i].normalized);
    assert k in KeysFrom(t.job, xs, 0);
    if k !in s.seen {
      OfferedOnce(s1, s', t, xs, picks, i);
      QueuedBelow(s1, s', t, xs, picks, i, depth);
    }
  }

  /** A new row is at the depth that all targets have. */
  lemma QueuedBelow(s: Store, s': Store, t: Terms, xs: seq<Target>, picks: seq<nat>, i: nat, depth: int)
    requires i < |xs| && AllOffered(s, s', t, xs, 0, picks) && forall j :: 0 <= j < |xs| ==> xs[j].depth == depth
    ensures var k := RowKey(t.job, xs[i].normalized);
            k in s'.rows && k !in s.rows ==> s'.rows[k] == Row(depth, Queued, None, None)
  {
    var k := RowKey(t.job, xs[i].normalized);
    if k in s'.rows && k !in s.rows {
      var j :| j in picks && j < |xs| && k == RowKey(t.job, xs[j].normalized);
    }
  }
}
