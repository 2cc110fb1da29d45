/** Where the content of pages comes from: what is cleaned, retried or replayed is what an extraction returned. */
module PageContents {
  import opened Wrappers
  import opened Events
  import opened Store
  import opened Handlers
  import opened Machine
  import opened Lineage
  import opened LineageSteps
  import opened Provenance

  /** The page that the handler works on, or will publish. */
  function PageAtHand(p: Proc): Option<PageParsed> {
    match p
    case ParseBody(h, ParseReturns(content)) => Some(ParsedEvent(h, content))
    case CleanBody(page, _) => Some(page)
    case CleanFail(page, _) => Some(page)
    case CleanReport(page, _) => Some(page)
    case RetryBody(f) => f.pagePayload
    case ReplayCounting(DeadParsed(page)) => Some(page)
    case ReplayPublishing(DeadParsed(page)) => Some(page)
    case _ => None
  }

  /** Action n delivered the fetch that the page comes from, and its extraction returned the page's content. */
  ghost predicate ExtractedAt(cfg: Config, actions: seq<Action>, n: nat, page: PageParsed) {
    && n < |actions| && actions[n].Delivery?
    && var log := Run(cfg, INITIAL, actions[..n]).store.log;
       && actions[n].at < |log| && log[actions[n].at].OnFetched?
       && ParsedFrom(log[actions[n].at].fetched, page)
       && actions[n].input.parse == ParseReturns(page.page)
  }

  ghost predicate Extracted(cfg: Config, actions: seq<Action>, page: PageParsed) {
    exists n: nat :: ExtractedAt(cfg, actions, n, page)
  }

  ghost predicate AllExtracted(cfg: Config, actions: seq<Action>, m: Machine) {
    && (forall i :: 0 <= i < |m.store.log| && PageIn(m.store.log[i]).Some? ==>
          Extracted(cfg, actions, PageIn(m.store.log[i]).value))
    && (forall i :: 0 <= i < |m.procs| && PageAtHand(m.procs[i]).Some? ==>
          Extracted(cfg, actions, PageAtHand(m.procs[i]).value))
  }

  /** The same page, perhaps at another attempt. */
  predicate SamePage(a: Option<PageParsed>, b: Option<PageParsed>) {
    a.Some? ==> b.Some? && a.value.(attempt := 0) == b.value.(attempt := 0)
  }

  lemma SameSource(h: HtmlFetched, page: PageParsed, again: PageParsed)
    requires ParsedFrom(h, page) && again.(attempt := 0) == page.(attempt := 0)
    ensures ParsedFrom(h, again) && again.page == page.page
  {
    assert again == page.(attempt := again.attempt);
  }

  lemma StillExtracted(cfg: Config, init: seq<Action>, a: Action, page: PageParsed, again: PageParsed)
    requires Extracted(cfg, init, page) && again.(attempt := 0) == page.(attempt := 0)
    ensures Extracted(cfg, init + [a], again)
  {
    var n: nat :| ExtractedAt(cfg, init, n, page);
    assert (init + [a])[..n] == init[..n] && (init + [a])[n] == init[n];
    SameSource(Run(cfg, INITIAL, init[..n]).store.log[init[n].at].fetched, page, again);
    assert ExtractedAt(cfg, init + [a], n, again);
  }

  // ---------------------------------------------------------------- one step

  lemma CrawlersHaveNoPage(cfg: Config, s: Store, p: Proc)
    requires DutyOf(p).Crawls?
    ensures var n := Advance(cfg, s, p);
            PageAtHand(n.proc).None? && (|n.store.log| > |s.log| ==> PageIn(n.store.log[|s.log|]).None?)
  {
  }

  lemma ReplayKeepsPage(cfg: Config, s: Store, p: Proc)
    requires DutyOf(p).Replays?
    ensures var n := Advance(cfg, s, p);
            && SamePage(PageAtHand(n.proc), PageAtHand(p))
            && (|n.store.log| > |s.log| ==> SamePage(PageIn(n.store.log[|s.log|]), PageAtHand(p)))
  {
    if p.ReplayPublishing? {
      ReplayShapes(p.letter, s.nextId);
    }
  }

  lemma StageKeepsPage(cfg: Config, s: Store, p: Proc)
    requires !DutyOf(p).Crawls? && !DutyOf(p).Replays?
    ensures var n := Advance(cfg, s, p);
            && SamePage(PageAtHand(n.proc), PageAtHand(p))
            && (|n.store.log| > |s.log| ==> SamePage(PageIn(n.store.log[|s.log|]), PageAtHand(p)))
  {
  }

  /** A handler publishes and keeps no page but its own. */
  lemma AdvanceKeepsPage(cfg: Config, s: Store, p: Proc)
    ensures var n := Advance(cfg, s, p);
            && SamePage(PageAtHand(n.proc), PageAtHand(p))
            && (|n.store.log| > |s.log| ==> SamePage(PageIn(n.store.log[|s.log|]), PageAtHand(p)))
  {
    match DutyOf(p)
    case Crawls(_) => CrawlersHaveNoPage(cfg, s, p);
    case Replays(_) => ReplayKeepsPage(cfg, s, p);
    case _ => StageKeepsPage(cfg, s, p);
  }

  lemma ProgressExtracted(cfg: Config, init: seq<Action>, m: Machine, j: nat)
    requires AllExtracted(cfg, init, m) && j < |m.procs|
    ensures AllExtracted(cfg, init + [Progress(j)], Apply(cfg, m, Progress(j)))
  {
    var n := Advance(cfg, m.store, m.procs[j]);
    AdvanceKeepsPage(cfg, m.store, m.procs[j]);
    AdvanceAppends(cfg, m.store, m.procs[j]);
    AllLater(cfg, init, Progress(j), m);
    if PageAtHand(n.proc).Some? {
      StillExtracted(cfg, init, Progress(j), PageAtHand(m.procs[j]).value, PageAtHand(n.proc).value);
    }
    if |n.store.log| > |m.store.log| && PageIn(n.store.log[|m.store.log|]).Some? {
      StillExtracted(cfg, init, Progress(j), PageAtHand(m.procs[j]).value, PageIn(n.store.log[|m.store.log|]).value);
    }
  }

  lemma AllLater(cfg: Config, init: seq<Action>, a: Action, m: Machine)
    requires AllExtracted(cfg, init, m)
    ensures AllExtracted(cfg, init + [a], m)
  {
    forall i | 0 <= i < |m.store.log| && PageIn(m.store.log[i]).Some?
      ensures Extracted(cfg, init + [a], PageIn(m.store.log[i]).value)
    {
      StillExtracted(cfg, init, a, PageIn(m.store.log[i]).value, PageIn(m.store.log[i]).value);
    }
    forall i | 0 <= i < |m.procs| && PageAtHand(m.procs[i]).Some?
      ensures Extracted(cfg, init + [a], PageAtHand(m.procs[i]).value)
    {
      StillExtracted(cfg, init, a, PageAtHand(m.procs[i]).value, PageAtHand(m.procs[i]).value);
    }
  }

  lemma DeliveryPage(s: Store, m: Message, input: Input)
    ensures var page := PageAtHand(Deliver(s, m, input).proc);
            page.Some? ==>
              if m.OnFetched? then ParsedFrom(m.fetched, page.value) && input.parse == ParseReturns(page.value.page)
              else page == PageIn(m)
  {
  }

  lemma DeliveryExtracted(cfg: Config, init: seq<Action>, at: nat, input: Input)
    requires var m := Run(cfg, INITIAL, init); AllExtracted(cfg, init, m) && at < |m.store.log|
    ensures AllExtracted(cfg, init + [Delivery(at, input)], Apply(cfg, Run(cfg, INITIAL, init), Delivery(at, input)))
  {
    var m, a := Run(cfg, INITIAL, init), Delivery(at, input);
    var x := m.store.log[at];
    var p := Deliver(m.store, x, input).proc;
    AllLater(cfg, init, a, m);
    DeliveryPage(m.store, x, input);
    if PageAtHand(p).Some? && x.OnFetched? {
      assert (init + [a])[..|init|] == init;
      assert ExtractedAt(cfg, init + [a], |init|, PageAtHand(p).value);
    }
  }

  // ---------------------------------------------------------------- whole runs

  lemma {:induction false} RunExtracted(cfg: Config, actions: seq<Action>)
    ensures AllExtracted(cfg, actions, Run(cfg, INITIAL, actions))
  {
    if actions != [] {
      var init, a := actions[..|actions| - 1], actions[|actions| - 1];
      var m := Run(cfg, INITIAL, init);
      RunExtracted(cfg, init);
      assert actions == init + [a];
      AllLater(cfg, init, a, m);
      match a
      case Delivery(at, input) =>
        if at < |m.store.log| { DeliveryExtracted(cfg, init, at, input); }
      case Progress(j) =>
        if j < |m.procs| { ProgressExtracted(cfg, init, m, j); }
      case _ =>
    }
  }

  /** In every run, for each page on the log, in a cleaner's failure or in a dead letter: a delivery of the fetch it
      comes from had an extraction that returned exactly its content. */
  lemma {:induction false} ContentIsExtracted(cfg: Config, actions: seq<Action>, i: nat) returns (n: nat)
    requires i < |Run(cfg, INITIAL, actions).store.log| && PageIn(Run(cfg, INITIAL, actions).store.log[i]).Some?
    ensures ExtractedAt(cfg, actions, n, PageIn(Run(cfg, INITIAL, actions).store.log[i]).value)
  {
    RunExtracted(cfg, actions);
    var page := PageIn(Run(cfg, INITIAL, actions).store.log[i]).value;
    assert Extracted(cfg, actions, page);
    n :| ExtractedAt(cfg, actions, n, page);
  }
}
