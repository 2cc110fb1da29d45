/** The micro steps of a handler that runs on its own, one at a time. */
module Unrolling {
  import opened Wrappers
  import opened Events
  import opened Links
  import opened Store
  import opened Handlers

  lemma Unroll(cfg: Config, s: Store, p: Proc)
    requires p != Idle
    ensures RunAlone(cfg, s, p) == RunAlone(cfg, Advance(cfg, s, p).store, Advance(cfg, s, p).proc)
  {
  }

  lemma UnrollTo(cfg: Config, s: Store, p: Proc, n: Next)
    requires p != Idle && Advance(cfg, s, p) == n
    ensures RunAlone(cfg, s, p) == RunAlone(cfg, n.store, n.proc)
  {
  }

  lemma UnrollSkip(cfg: Config, s: Store, ev: UrlDiscovered, reason: Option<Error>)
    ensures RunAlone(cfg, s, CrawlSkip(ev, reason)) == Mark(s, KeyOf(ev), Skipped, reason, None)
  {
    UnrollTo(cfg, s, CrawlSkip(ev, reason), Next(Mark(s, KeyOf(ev), Skipped, reason, None), Idle));
  }

  lemma UnrollGate(cfg: Config, s: Store, ev: UrlDiscovered, input: CrawlInput)
    ensures RunAlone(cfg, s, CrawlGate(ev, input)) ==
            if ev.force then RunAlone(cfg, Release(s, ev.normalized), CrawlFetch(ev, input))
            else if ev.normalized in s.held then Mark(s, KeyOf(ev), Skipped, None, None)
            else RunAlone(cfg, Hold(s, ev.normalized), CrawlFetch(ev, input))
  {
    UnrollTo(cfg, s, CrawlGate(ev, input), StepGate(s, ev, input));
    UnrollSkip(cfg, s, ev, None);
  }

  lemma UnrollFetch(cfg: Config, s: Store, ev: UrlDiscovered, input: CrawlInput)
    ensures RunAlone(cfg, s, CrawlFetch(ev, input)) ==
            if !input.robotsAllow then Mark(s, KeyOf(ev), Skipped, Some(RobotsDisallowed), None)
            else RunAlone(cfg, s, AfterFetch(ev, input.fetch))
  {
    UnrollTo(cfg, s, CrawlFetch(ev, input), StepFetch(s, ev, input));
    UnrollSkip(cfg, s, ev, Some(RobotsDisallowed));
  }

  lemma UnrollFail(cfg: Config, s: Store, ev: UrlDiscovered, error: Error)
    ensures RunAlone(cfg, s, CrawlFail(ev, error)) ==
            RunAlone(cfg, Mark(s, KeyOf(ev), Failed, Some(error), None), CrawlReport(ev, error))
  {
    UnrollTo(cfg, s, CrawlFail(ev, error), Next(Mark(s, KeyOf(ev), Failed, Some(error), None), CrawlReport(ev, error)));
  }

  lemma UnrollPublish(
      cfg: Config, s: Store, ev: UrlDiscovered, key: string, checksum: string, links: seq<Link>, luck: Luck)
    ensures RunAlone(cfg, s, CrawlPublish(ev, key, checksum, links, luck)) ==
            if Strikes(luck) then RunAlone(cfg, s, CrawlFail(ev, luck.error))
            else RunAlone(cfg, Publish(s, OnFetched(FetchedEvent(ev, key, checksum))),
                          CrawlMark(ev, key, checksum, links, Spend(luck)))
  {
    UnrollTo(cfg, s, CrawlPublish(ev, key, checksum, links, luck), StepPublish(s, ev, key, checksum, links, luck));
  }

  lemma UnrollMark(
      cfg: Config, s: Store, ev: UrlDiscovered, key: string, checksum: string, links: seq<Link>, luck: Luck)
    ensures RunAlone(cfg, s, CrawlMark(ev, key, checksum, links, luck)) ==
            if Strikes(luck) then RunAlone(cfg, s, CrawlFail(ev, luck.error))
            else RunAlone(cfg, Mark(s, KeyOf(ev), Fetched, None, Some(Stored(key, checksum))),
                          CrawlLinks(ev, LinksToFollow(ev, links), Spend(luck)))
  {
    UnrollTo(cfg, s, CrawlMark(ev, key, checksum, links, luck), StepMark(s, ev, key, checksum, links, luck));
  }

  lemma UnrollQueue(cfg: Config, s: Store, ev: UrlDiscovered, link: Link, links: seq<Link>, luck: Luck)
    ensures RunAlone(cfg, s, CrawlQueue(ev, link, links, luck)) ==
            if Strikes(luck) then RunAlone(cfg, s, CrawlFail(ev, luck.error))
            else RunAlone(cfg, EnsureQueued(s, LinkKey(ev, link), ev.depth + 1),
                          CrawlEmit(ev, link, links, Spend(luck)))
  {
    UnrollTo(cfg, s, CrawlQueue(ev, link, links, luck), StepQueue(s, ev, link, links, luck));
  }

  lemma UnrollEmit(cfg: Config, s: Store, ev: UrlDiscovered, link: Link, links: seq<Link>, luck: Luck)
    ensures RunAlone(cfg, s, CrawlEmit(ev, link, links, luck)) ==
            if Strikes(luck) then RunAlone(cfg, s, CrawlFail(ev, luck.error))
            else RunAlone(cfg, PublishFresh(s, OnDiscovered(ChildEvent(ev, link, s.nextId), Linked)),
                          CrawlLinks(ev, links, Spend(luck)))
  {
    UnrollTo(cfg, s, CrawlEmit(ev, link, links, luck), StepEmit(s, ev, link, links, luck));
  }

  lemma UnrollLinks(cfg: Config, s: Store, ev: UrlDiscovered, link: Link, links: seq<Link>, luck: Luck)
    ensures var whole := RunAlone(cfg, s, CrawlLinks(ev, [link] + links, luck));
            && (Strikes(luck) ==> whole == RunAlone(cfg, s, CrawlFail(ev, luck.error)))
            && (!Strikes(luck) && LinkKey(ev, link) in s.seen ==>
                 whole == RunAlone(cfg, s, CrawlLinks(ev, links, Spend(luck))))
            && (!Strikes(luck) && LinkKey(ev, link) !in s.seen ==>
                 whole == RunAlone(cfg, AddSeen(s, LinkKey(ev, link)), CrawlQueue(ev, link, links, Spend(luck))))
  {
    var all := [link] + links;
    assert all[0] == link && all[1..] == links;
    Unroll(cfg, s, CrawlLinks(ev, all, luck));
  }

  lemma UnrollEnd(cfg: Config, s: Store, ev: UrlDiscovered, luck: Luck)
    ensures RunAlone(cfg, s, CrawlLinks(ev, [], luck)) ==
            if Strikes(luck) then RunAlone(cfg, s, CrawlFail(ev, luck.error)) else s
  {
    Unroll(cfg, s, CrawlLinks(ev, [], luck));
  }
}
