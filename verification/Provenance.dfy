/** Where pages come from: every parsed page on any topic goes back to a fetch, and every fetch to a discovery,
    with the same event id, URL, depth, object key and checksum. */
module Provenance {
  import opened Wrappers
  import opened Events
  import opened Links
  import opened Store
  import opened Handlers
  import opened Machine
  import opened Lineage
  import opened LineageSteps
  import Retry

  predicate FetchedFrom(d: UrlDiscovered, h: HtmlFetched) {
    && h.eventId == d.eventId && h.jobId == d.jobId && h.url == d.url && h.normalized == d.normalized
    && h.attempt == d.attempt && h.depth == d.depth && h.maxDepth == d.maxDepth && h.domains == d.domains
  }

  predicate ParsedFrom(h: HtmlFetched, p: PageParsed) {
    && p.eventId == h.eventId && p.jobId == h.jobId && p.url == h.url && p.normalized == h.normalized
    && p.storageKey == h.storageKey && p.checksum == h.checksum && p.depth == h.depth
  }

  ghost predicate FetchTraced(log: seq<Message>, h: HtmlFetched) {
    exists i :: 0 <= i < |log| && log[i].OnDiscovered? && FetchedFrom(log[i].discovered, h)
  }

  ghost predicate PageTraced(log: seq<Message>, p: PageParsed) {
    exists i :: 0 <= i < |log| && log[i].OnFetched? && ParsedFrom(log[i].fetched, p)
  }

  /** The page a message carries: itself, in a cleaner's failure, or in a dead letter. */
  function PageIn(m: Message): Option<PageParsed> {
    match m
    case OnParsed(p) => Some(p)
    case OnFailed(f) => f.pagePayload
    case OnDlq(letter) => if letter.DeadParsed? then Some(letter.parsed) else None
    case _ => None
  }

  ghost predicate HasSource(log: seq<Message>, m: Message) {
    && (m.OnFetched? ==> FetchTraced(log, m.fetched))
    && (PageIn(m).Some? ==> PageTraced(log, PageIn(m).value))
  }

  /** Each message's source is on the log before it. */
  ghost predicate LogTraced(log: seq<Message>) {
    forall k :: 0 <= k < |log| ==> HasSource(log[..k], log[k])
  }

  ghost predicate DutyTraced(log: seq<Message>, d: Duty) {
    match d
    case Crawls(ev) => exists i :: 0 <= i < |log| && log[i].OnDiscovered? && log[i].discovered == ev
    case Parses(h) => exists i :: 0 <= i < |log| && log[i] == OnFetched(h)
    case Cleans(p) => PageTraced(log, p)
    case Retries(f) => HasSource(log, OnFailed(f))
    case Replays(letter) => HasSource(log, OnDlq(letter))
    case _ => true
  }

  lemma SourceKept(log: seq<Message>, log': seq<Message>, m: Message)
    requires log <= log' && HasSource(log, m)
    ensures HasSource(log', m)
  {
  }

  lemma DutyKept(log: seq<Message>, log': seq<Message>, d: Duty)
    requires log <= log' && DutyTraced(log, d)
    ensures DutyTraced(log', d)
  {
  }

  lemma LogAppended(log: seq<Message>, m: Message)
    requires LogTraced(log) && HasSource(log, m)
    ensures LogTraced(log + [m])
  {
    var log' := log + [m];
    forall k | 0 <= k < |log'|
      ensures HasSource(log'[..k], log'[k])
    {
      assert log'[..k] == if k < |log| then log[..k] else log;
    }
  }

  /** Whatever a handler publishes has its source on the log. */
  ghost predicate PublishesTraced(s: Store, s': Store) {
    |s'.log| > |s.log| ==> HasSource(s.log, s'.log[|s.log|])
  }

  lemma CrawlerTraced(cfg: Config, s: Store, p: Proc)
    requires DutyOf(p).Crawls? && DutyTraced(s.log, DutyOf(p))
    ensures PublishesTraced(s, Advance(cfg, s, p).store)
  {
  }

  lemma StageTraced(cfg: Config, s: Store, p: Proc)
    requires (DutyOf(p).Parses? || DutyOf(p).Cleans?) && DutyTraced(s.log, DutyOf(p))
    ensures PublishesTraced(s, Advance(cfg, s, p).store)
  {
  }

  lemma RepairTraced(cfg: Config, s: Store, p: Proc)
    requires (DutyOf(p).Retries? || DutyOf(p).Replays?) && DutyTraced(s.log, DutyOf(p))
    ensures PublishesTraced(s, Advance(cfg, s, p).store)
  {
    if p.ReplayPublishing? {
      ReplayShapes(p.letter, s.nextId);
    }
  }

  lemma AdvanceTraced(cfg: Config, s: Store, p: Proc)
    requires DutyTraced(s.log, DutyOf(p))
    ensures PublishesTraced(s, Advance(cfg, s, p).store)
  {
    match DutyOf(p)
    case Crawls(_) => CrawlerTraced(cfg, s, p);
    case Parses(_) => StageTraced(cfg, s, p);
    case Cleans(_) => StageTraced(cfg, s, p);
    case Retries(_) => RepairTraced(cfg, s, p);
    case Replays(_) => RepairTraced(cfg, s, p);
    case _ =>
  }

  /** A handler keeps its duty until it has none. */
  lemma SameDuty(cfg: Config, s: Store, p: Proc)
    ensures var p' := Advance(cfg, s, p).proc; DutyOf(p') == DutyOf(p) || DutyOf(p') == NoDuty
  {
  }

  ghost predicate Traced(m: Machine) {
    LogTraced(m.store.log) && forall j :: 0 <= j < |m.procs| ==> DutyTraced(m.store.log, DutyOf(m.procs[j]))
  }

  lemma ProgressTraced(cfg: Config, m: Machine, j: nat)
    requires Traced(m) && j < |m.procs|
    ensures Traced(Apply(cfg, m, Progress(j)))
  {
    var s, p := m.store, m.procs[j];
    var s' := Advance(cfg, s, p).store;
    AdvanceTraced(cfg, s, p);
    SameDuty(cfg, s, p);
    AdvanceAppends(cfg, s, p);
    if |s'.log| > |s.log| {
      LogAppended(s.log, s'.log[|s.log|]);
    }
    forall i | 0 <= i < |m.procs|
      ensures DutyTraced(s'.log, DutyOf(m.procs[i]))
    {
      DutyKept(s.log, s'.log, DutyOf(m.procs[i]));
    }
  }

  lemma StartedTraced(log: seq<Message>, procs: seq<Proc>, p: Proc)
    requires DutyTraced(log, DutyOf(p)) && forall j :: 0 <= j < |procs| ==> DutyTraced(log, DutyOf(procs[j]))
    ensures forall j :: 0 <= j < |Started(procs, p)| ==> DutyTraced(log, DutyOf(Started(procs, p)[j]))
  {
  }

  lemma DeliveryTraced(cfg: Config, m: Machine, i: nat, input: Input)
    requires Traced(m) && i < |m.store.log|
    ensures Traced(Apply(cfg, m, Delivery(i, input)))
  {
    var log := m.store.log;
    var n := Deliver(m.store, log[i], input);
    SourceKept(log[..i], log, log[i]);
    assert n.store.log == log;
    assert DutyTraced(log, DutyOf(n.proc));
    StartedTraced(log, m.procs, n.proc);
  }

  lemma ApplyTraced(cfg: Config, m: Machine, a: Action)
    requires Traced(m)
    ensures Traced(Apply(cfg, m, a))
  {
    match a
    case Submission(r) => StartedTraced(m.store.log, m.procs, Submit(m.store, r).proc);
    case Delivery(i, input) =>
      if i < |m.store.log| { DeliveryTraced(cfg, m, i, input); }
    case Progress(j) =>
      if j < |m.procs| { ProgressTraced(cfg, m, j); }
    case _ =>
  }

  lemma {:induction false} RunTraced(cfg: Config, actions: seq<Action>)
    ensures Traced(Run(cfg, INITIAL, actions))
  {
    if actions != [] {
      RunTraced(cfg, actions[..|actions| - 1]);
      ApplyTraced(cfg, Run(cfg, INITIAL, actions[..|actions| - 1]), actions[|actions| - 1]);
    }
  }

  /** In every run, behind each parsed page, first published, retried or replayed, stand the fetch it was parsed
      from and the discovery that was fetched for, in this order on the log. */
  lemma {:induction false} PageTracesBack(cfg: Config, actions: seq<Action>, k: nat)
    requires k < |Run(cfg, INITIAL, actions).store.log| && Run(cfg, INITIAL, actions).store.log[k].OnParsed?
    ensures var log := Run(cfg, INITIAL, actions).store.log;
            exists i, j :: 0 <= i < j < k && log[i].OnDiscovered? && log[j].OnFetched? &&
              FetchedFrom(log[i].discovered, log[j].fetched) && ParsedFrom(log[j].fetched, log[k].parsed)
  {
    var log := Run(cfg, INITIAL, actions).store.log;
    RunTraced(cfg, actions);
    assert HasSource(log[..k], log[k]);
    var j :| 0 <= j < k && log[..k][j].OnFetched? && ParsedFrom(log[..k][j].fetched, log[k].parsed);
    assert log[j] == log[..k][j] && HasSource(log[..j], log[j]);
    var i :| 0 <= i < j && log[..j][i].OnDiscovered? && FetchedFrom(log[..j][i].discovered, log[j].fetched);
    assert log[i] == log[..j][i];
  }

  // ---------------------------------------------------------------- links the crawlers found

  /** A link is within the depth limit and passed the domain filter. */
  predicate WithinLimits(d: UrlDiscovered) {
    d.depth <= d.maxDepth && DomainAllowed(HostOf(d.url), d.domains)
  }

  ghost predicate LinksWithin(log: seq<Message>) {
    forall k :: 0 <= k < |log| && log[k].OnDiscovered? && log[k].via == Linked ==> WithinLimits(log[k].discovered)
  }

  ghost predicate PublishesWithin(s: Store, s': Store) {
    |s'.log| > |s.log| && s'.log[|s.log|].OnDiscovered? && s'.log[|s.log|].via == Linked ==>
      WithinLimits(s'.log[|s.log|].discovered)
  }

  lemma EmitWithin(cfg: Config, s: Store, p: Proc)
    requires ProcOk(cfg, s, p) && p.CrawlEmit?
    ensures PublishesWithin(s, Advance(cfg, s, p).store)
  {
    assert Advance(cfg, s, p) == StepEmit(s, p.ev, p.link, p.links, p.luck);
    assert p.link in LinksAhead(p);
  }

  lemma ReplayWithin(cfg: Config, s: Store, p: Proc)
    requires p.ReplayPublishing?
    ensures PublishesWithin(s, Advance(cfg, s, p).store)
  {
    ReplayShapes(p.letter, s.nextId);
  }

  /** No other step publishes a link. */
  ghost predicate PublishesNoLink(s: Store, s': Store) {
    |s'.log| > |s.log| ==> !s'.log[|s.log|].OnDiscovered? || s'.log[|s.log|].via != Linked
  }

  lemma CrawlerPublishesNoLink(cfg: Config, s: Store, p: Proc)
    requires DutyOf(p).Crawls? && !p.CrawlEmit?
    ensures PublishesNoLink(s, Advance(cfg, s, p).store)
  {
  }

  lemma OthersPublishNoLink(cfg: Config, s: Store, p: Proc)
    requires !DutyOf(p).Crawls? && !p.ReplayPublishing?
    ensures PublishesNoLink(s, Advance(cfg, s, p).store)
  {
  }

  lemma NoOtherLinks(cfg: Config, s: Store, p: Proc)
    requires !p.CrawlEmit? && !p.ReplayPublishing?
    ensures PublishesWithin(s, Advance(cfg, s, p).store)
  {
    if DutyOf(p).Crawls? {
      CrawlerPublishesNoLink(cfg, s, p);
    } else {
      OthersPublishNoLink(cfg, s, p);
    }
    assert PublishesNoLink(s, Advance(cfg, s, p).store);
  }

  lemma AdvanceWithin(cfg: Config, s: Store, p: Proc)
    requires ProcOk(cfg, s, p)
    ensures PublishesWithin(s, Advance(cfg, s, p).store)
  {
    if p.CrawlEmit? {
      EmitWithin(cfg, s, p);
    } else if p.ReplayPublishing? {
      ReplayWithin(cfg, s, p);
    } else {
      NoOtherLinks(cfg, s, p);
    }
  }

  lemma {:induction false} RunWithin(cfg: Config, actions: seq<Action>)
    requires cfg.maxAttempts >= 1
    ensures LinksWithin(Run(cfg, INITIAL, actions).store.log)
  {
    if actions != [] {
      var init, a := actions[..|actions| - 1], actions[|actions| - 1];
      var m := Run(cfg, INITIAL, init);
      RunWithin(cfg, init);
      RunInv(cfg, INITIAL, init);
      ApplyWithin(cfg, m, a);
    }
  }

  lemma ApplyWithin(cfg: Config, m: Machine, a: Action)
    requires Inv(cfg, m) && LinksWithin(m.store.log)
    ensures LinksWithin(Apply(cfg, m, a).store.log)
  {
    if a.Progress? && a.proc < |m.procs| {
      assert ProcOk(cfg, m.store, m.procs[a.proc]);
      AdvanceWithin(cfg, m.store, m.procs[a.proc]);
      AdvanceAppends(cfg, m.store, m.procs[a.proc]);
    }
  }

  // ---------------------------------------------------------------- the first discovery of a row

  function UrlOf(m: Message): string {
    match m
    case OnDiscovered(e, _) => e.url
    case OnFetched(e) => e.url
    case OnParsed(e) => e.url
    case OnFailed(e) => e.url
    case OnDlq(letter) =>
      match letter
      case DeadDiscovered(e) => e.url
      case DeadFetched(e) => e.url
      case DeadParsed(e) => e.url
      case DeadFailed(e) => e.url
  }

  /** The row was discovered for the first time with this URL. */
  ghost predicate FirstSeen(log: seq<Message>, key: RowKey, url: string) {
    exists i :: 0 <= i < |log| && FirstKey(log[i]) == Some(key) && UrlOf(log[i]) == url
  }

  /** The message, and the page it carries, are about a row and URL already discovered. */
  ghost predicate HasRoot(log: seq<Message>, m: Message) {
    && FirstSeen(log, MessageKey(m), UrlOf(m))
    && (PageIn(m).Some? ==> FirstSeen(log, ParsedKey(PageIn(m).value), PageIn(m).value.url))
  }

  ghost predicate LogRooted(log: seq<Message>) {
    forall k :: 0 <= k < |log| ==> HasRoot(log[..k + 1], log[k])
  }

  ghost predicate ProcRooted(log: seq<Message>, p: Proc) {
    Retry.SourceOf(p).Some? ==> HasRoot(log, Retry.SourceOf(p).value)
  }

  lemma RootKept(log: seq<Message>, log': seq<Message>, m: Message)
    requires log <= log' && HasRoot(log, m)
    ensures HasRoot(log', m)
  {
    FirstSeenKept(log, log', MessageKey(m), UrlOf(m));
    if PageIn(m).Some? {
      FirstSeenKept(log, log', ParsedKey(PageIn(m).value), PageIn(m).value.url);
    }
  }

  lemma FirstSeenKept(log: seq<Message>, log': seq<Message>, key: RowKey, url: string)
    requires log <= log' && FirstSeen(log, key, url)
    ensures FirstSeen(log', key, url)
  {
    var i :| 0 <= i < |log| && FirstKey(log[i]) == Some(key) && UrlOf(log[i]) == url;
    assert FirstKey(log'[i]) == Some(key) && UrlOf(log'[i]) == url;
  }

  /** What a handler publishes is a first discovery or goes back to the one its own message goes back to. */
  ghost predicate PublishesRooted(s: Store, s': Store) {
    |s'.log| > |s.log| ==> FirstKey(s'.log[|s.log|]).Some? || HasRoot(s.log, s'.log[|s.log|])
  }

  lemma LinksRooted(cfg: Config, s: Store, p: Proc)
    requires p.CrawlLinks? || p.CrawlQueue? || p.CrawlEmit?
    ensures PublishesRooted(s, Advance(cfg, s, p).store)
  {
  }

  lemma CrawlerRooted(cfg: Config, s: Store, p: Proc)
    requires DutyOf(p).Crawls? && ProcRooted(s.log, p)
    ensures PublishesRooted(s, Advance(cfg, s, p).store)
  {
    if p.CrawlLinks? || p.CrawlQueue? || p.CrawlEmit? {
      LinksRooted(cfg, s, p);
    }
  }

  lemma ParserRooted(cfg: Config, s: Store, p: Proc)
    requires DutyOf(p).Parses? && ProcRooted(s.log, p)
    ensures PublishesRooted(s, Advance(cfg, s, p).store)
  {
  }

  lemma CleanerRooted(cfg: Config, s: Store, p: Proc)
    requires DutyOf(p).Cleans? && ProcRooted(s.log, p)
    ensures PublishesRooted(s, Advance(cfg, s, p).store)
  {
  }

  lemma RetryRooted(cfg: Config, s: Store, p: Proc)
    requires DutyOf(p).Retries? && ProcRooted(s.log, p)
    ensures PublishesRooted(s, Advance(cfg, s, p).store)
  {
  }

  lemma ReplayRooted(cfg: Config, s: Store, p: Proc)
    requires DutyOf(p).Replays? && ProcRooted(s.log, p)
    ensures PublishesRooted(s, Advance(cfg, s, p).store)
  {
    if p.ReplayPublishing? {
      ReplayShapes(p.letter, s.nextId);
    }
  }

  lemma SchedulerRooted(cfg: Config, s: Store, p: Proc)
    requires DutyOf(p).Submits? || DutyOf(p).NoDuty?
    ensures PublishesRooted(s, Advance(cfg, s, p).store)
  {
  }

  lemma AdvanceRooted(cfg: Config, s: Store, p: Proc)
    requires ProcRooted(s.log, p)
    ensures PublishesRooted(s, Advance(cfg, s, p).store)
  {
    match DutyOf(p)
    case Crawls(_) => CrawlerRooted(cfg, s, p);
    case Parses(_) => ParserRooted(cfg, s, p);
    case Cleans(_) => CleanerRooted(cfg, s, p);
    case Retries(_) => RetryRooted(cfg, s, p);
    case Replays(_) => ReplayRooted(cfg, s, p);
    case _ => SchedulerRooted(cfg, s, p);
  }

  lemma RootAppended(log: seq<Message>, m: Message)
    requires LogRooted(log) && (FirstKey(m).Some? || HasRoot(log, m))
    ensures LogRooted(log + [m])
  {
    var log' := log + [m];
    if FirstKey(m).Some? {
      assert FirstKey(log'[|log|]) == Some(MessageKey(m));
    } else {
      RootKept(log, log', m);
    }
    forall k | 0 <= k < |log'|
      ensures HasRoot(log'[..k + 1], log'[k])
    {
      assert log'[..k + 1] == if k < |log| then log[..k + 1] else log';
    }
  }

  ghost predicate AllRooted(m: Machine) {
    LogRooted(m.store.log) && forall j :: 0 <= j < |m.procs| ==> ProcRooted(m.store.log, m.procs[j])
  }

  lemma ProcRootKept(log: seq<Message>, log': seq<Message>, p: Proc, p': Proc)
    requires log <= log' && ProcRooted(log, p) && (DutyOf(p') == DutyOf(p) || DutyOf(p') == NoDuty)
    ensures ProcRooted(log', p')
  {
    if Retry.SourceOf(p).Some? {
      RootKept(log, log', Retry.SourceOf(p).value);
    }
  }

  lemma ProgressRooted(cfg: Config, m: Machine, j: nat)
    requires AllRooted(m) && j < |m.procs|
    ensures AllRooted(Apply(cfg, m, Progress(j)))
  {
    var s, p := m.store, m.procs[j];
    var n := Advance(cfg, s, p);
    AdvanceRooted(cfg, s, p);
    SameDuty(cfg, s, p);
    AdvanceAppends(cfg, s, p);
    if |n.store.log| > |s.log| {
      RootAppended(s.log, n.store.log[|s.log|]);
    }
    ProcRootKept(s.log, n.store.log, p, n.proc);
    forall i | 0 <= i < |m.procs|
      ensures ProcRooted(n.store.log, m.procs[i])
    {
      ProcRootKept(s.log, n.store.log, m.procs[i], m.procs[i]);
    }
  }

  lemma BeginRooted(log: seq<Message>, m: Message, input: Input)
    requires HasRoot(log, m)
    ensures ProcRooted(log, Begin(m, input))
  {
  }

  lemma StartedRooted(log: seq<Message>, procs: seq<Proc>, p: Proc)
    requires ProcRooted(log, p) && forall j :: 0 <= j < |procs| ==> ProcRooted(log, procs[j])
    ensures forall j :: 0 <= j < |Started(procs, p)| ==> ProcRooted(log, Started(procs, p)[j])
  {
  }

  lemma DeliveryRooted(cfg: Config, m: Machine, i: nat, input: Input)
    requires AllRooted(m) && i < |m.store.log|
    ensures AllRooted(Apply(cfg, m, Delivery(i, input)))
  {
    var log := m.store.log;
    var n := Deliver(m.store, log[i], input);
    RootKept(log[..i + 1], log, log[i]);
    BeginRooted(log, log[i], input);
    assert n.store.log == log && (n.proc == Idle || n.proc == Begin(log[i], input));
    StartedRooted(log, m.procs, n.proc);
  }

  lemma {:induction false} RunRooted(cfg: Config, actions: seq<Action>)
    ensures AllRooted(Run(cfg, INITIAL, actions))
  {
    if actions != [] {
      var init, a := actions[..|actions| - 1], actions[|actions| - 1];
      var m := Run(cfg, INITIAL, init);
      RunRooted(cfg, init);
      match a
      case Submission(r) => StartedRooted(m.store.log, m.procs, Submit(m.store, r).proc);
      case Delivery(i, input) =>
        if i < |m.store.log| { DeliveryRooted(cfg, m, i, input); }
      case Progress(j) =>
        if j < |m.procs| { ProgressRooted(cfg, m, j); }
      case _ =>
    }
  }

  /** In every run each UrlDiscovered, whatever published it, goes back to the first discovery of its row, with the
      same URL, depth, depth limit and domains; if a crawler found that one, in a job of any kind, it is within the
      depth limit and its host passes the domain filter. */
  lemma {:induction false} DiscoveriesWithinLimits(cfg: Config, actions: seq<Action>, k: nat)
    requires cfg.maxAttempts >= 1
    requires k < |Run(cfg, INITIAL, actions).store.log| && Run(cfg, INITIAL, actions).store.log[k].OnDiscovered?
    ensures var log := Run(cfg, INITIAL, actions).store.log; var d := log[k].discovered;
            exists i :: 0 <= i <= k && FirstKey(log[i]) == Some(KeyOf(d)) && log[i].discovered.url == d.url &&
              log[i].discovered.depth == d.depth && log[i].discovered.maxDepth == d.maxDepth &&
              log[i].discovered.domains == d.domains && (log[i].via == Linked ==> WithinLimits(d))
  {
    RunRooted(cfg, actions);
    RunWithin(cfg, actions);
    RunInv(cfg, INITIAL, actions);
    var i := RootIsLike(cfg, Run(cfg, INITIAL, actions).store, k);
  }

  /** The first discovery of the row is like any later one. */
  lemma RootIsLike(cfg: Config, s: Store, k: nat) returns (i: nat)
    requires StoreOk(cfg, s) && LogRooted(s.log) && LinksWithin(s.log) && k < |s.log| && s.log[k].OnDiscovered?
    ensures i <= k && FirstKey(s.log[i]) == Some(KeyOf(s.log[k].discovered))
    ensures var d, e := s.log[k].discovered, s.log[i].discovered;
            && e.url == d.url && e.depth == d.depth && e.maxDepth == d.maxDepth && e.domains == d.domains
            && (s.log[i].via == Linked ==> WithinLimits(d))
  {
    var d := s.log[k].discovered;
    assert HasRoot(s.log[..k + 1], s.log[k]);
    i :| 0 <= i < k + 1 && FirstKey(s.log[..k + 1][i]) == Some(KeyOf(d)) && UrlOf(s.log[..k + 1][i]) == d.url;
    assert s.log[i] == s.log[..k + 1][i] && MessageOk(cfg, s, s.log[i]) && MessageOk(cfg, s, s.log[k]);
  }
}
