/** The crawler feeds its own topic, and still every run is finite: a weight over everything in flight
    strictly falls on each step that changes the state. */
module Termination {
  import opened Wrappers
  import opened Events
  import opened Links
  import opened Store
  import opened Handlers
  import opened Machine
  import opened Lineage
  import opened LineageSteps

  // ---------------------------------------------------------------- weights

  /** Link levels below a page. */
  function Levels(maxDepth: int, depth: int): nat {
    if maxDepth > depth then maxDepth - depth else 0
  }

  /** Attempts left after this one. */
  function Left(cfg: Config, attempt: int): nat {
    if cfg.maxAttempts > attempt then cfg.maxAttempts - attempt else 0
  }

  /** An undelivered UrlDiscovered: a fetched page, fifty links a level lower with all their attempts, and
      two failures (one after the page was published), each one attempt shorter. */
  function CrawlWeight(cfg: Config, levels: nat, left: nat): nat
    decreases levels, left, 1
  {
    50 * (LinkWeight(cfg, levels) + 4) + 2 * FailureWeight(cfg, levels, left) + 20
  }

  function LinkWeight(cfg: Config, levels: nat): nat
    decreases levels, 0, 0
  {
    if levels == 0 then 0 else CrawlWeight(cfg, levels - 1, Left(cfg, 1))
  }

  /** A failure event, or the dead letter that takes its place. */
  function FailureWeight(cfg: Config, levels: nat, left: nat): nat
    decreases levels, left, 0
  {
    if left == 0 then 4 else 2 + CrawlWeight(cfg, levels, left - 1)
  }

  function EventWeight(cfg: Config, e: UrlDiscovered): nat {
    CrawlWeight(cfg, Levels(e.maxDepth, e.depth), Left(cfg, e.attempt))
  }

  function EventFailure(cfg: Config, e: UrlDiscovered): nat {
    FailureWeight(cfg, Levels(e.maxDepth, e.depth), Left(cfg, e.attempt))
  }

  function PageFailure(cfg: Config, e: HtmlFetched): nat {
    FailureWeight(cfg, Levels(e.maxDepth, e.depth), Left(cfg, e.attempt))
  }

  function EventLink(cfg: Config, e: UrlDiscovered): nat {
    LinkWeight(cfg, Levels(e.maxDepth, e.depth))
  }

  function FailedWeight(cfg: Config, f: UrlFailed): nat {
    if f.stage == Cleaner then 2 else FailureWeight(cfg, Levels(f.maxDepth, f.depth), Left(cfg, f.attempt))
  }

  /** A message whose event is in the ledger, or that was taken, weighs nothing. */
  function MessageWeight(cfg: Config, ledger: set<Claim>, taken: bool, m: Message): nat {
    match m
    case OnDiscovered(e, _) => if Claim(e.eventId, Crawler) in ledger then 0 else EventWeight(cfg, e)
    case OnFetched(e) => if Claim(e.eventId, Parser) in ledger then 0 else 11 + PageFailure(cfg, e)
    case OnParsed(e) => if Claim(e.eventId, Cleaner) in ledger then 0 else 8
    case OnFailed(f) => if taken then 0 else FailedWeight(cfg, f)
    case OnDlq(_) => if taken then 0 else 4
  }

  function SeedsWeight(cfg: Config, o: Order, seeds: seq<Seed>): nat {
    if seeds == [] then 0
    else SeedWeight(cfg, o, seeds[0]) + 4 + SeedsWeight(cfg, o, seeds[1..])
  }

  function SeedWeight(cfg: Config, o: Order, seed: Seed): nat {
    CrawlWeight(cfg, Levels(o.maxDepth, SeedDepth(o, seed)), Left(cfg, 1))
  }

  /** n * w */
  function Times(n: nat, w: nat): nat {
    if n == 0 then 0 else w + Times(n - 1, w)
  }

  function LoopWeight(cfg: Config, ev: UrlDiscovered, links: seq<Link>): nat {
    Times(|links|, EventLink(cfg, ev) + 4) + 3 + EventFailure(cfg, ev)
  }

  function ProcWeight(cfg: Config, p: Proc): nat {
    match p
    case Idle => 0
    case CrawlGate(ev, _) => 50 * (EventLink(cfg, ev) + 4) + 2 * EventFailure(cfg, ev) + 19
    case CrawlSkip(_, _) => 1
    case CrawlFetch(ev, _) => 50 * (EventLink(cfg, ev) + 4) + 2 * EventFailure(cfg, ev) + 17
    case CrawlUnchanged(ev, _, _) => 3 + EventFailure(cfg, ev)
    case CrawlPublish(ev, _, _, _, _) => 50 * (EventLink(cfg, ev) + 4) + 2 * EventFailure(cfg, ev) + 16
    case CrawlMark(ev, _, _, _, _) => 50 * (EventLink(cfg, ev) + 4) + EventFailure(cfg, ev) + 4
    case CrawlLinks(ev, links, _) => LoopWeight(cfg, ev, links)
    case CrawlQueue(ev, _, links, _) => LoopWeight(cfg, ev, links) + EventLink(cfg, ev) + 3
    case CrawlEmit(ev, _, links, _) => LoopWeight(cfg, ev, links) + EventLink(cfg, ev) + 2
    case CrawlFail(ev, _) => 2 + EventFailure(cfg, ev)
    case CrawlReport(ev, _) => 1 + EventFailure(cfg, ev)
    case ParseBody(ev, _) => 10 + PageFailure(cfg, ev)
    case ParseReport(ev, _) => 1 + PageFailure(cfg, ev)
    case CleanBody(_, _) => 7
    case CleanFail(_, _) => 6
    case CleanReport(_, _) => 5
    case RetryBody(f) => if f.stage == Cleaner then 1 else FailedWeight(cfg, f) - 1
    case ReplayCounting(_) => 3
    case ReplayPublishing(_) => 1
    case SubmitLoop(o, seeds, _) => SeedsWeight(cfg, o, seeds) + 1
    case SubmitQueue(o, seed, seeds, _) => SeedsWeight(cfg, o, seeds) + SeedWeight(cfg, o, seed) + 4
    case SubmitEmit(o, seed, seeds, _) => SeedsWeight(cfg, o, seeds) + SeedWeight(cfg, o, seed) + 3
  }

  function LogWeight(cfg: Config, ledger: set<Claim>, taken: set<nat>, log: seq<Message>): nat {
    if log == [] then 0
    else
      var n := |log| - 1;
      LogWeight(cfg, ledger, taken, log[..n]) + MessageWeight(cfg, ledger, n in taken, log[n])
  }

  function ProcsWeight(cfg: Config, procs: seq<Proc>): nat {
    if procs == [] then 0
    else ProcsWeight(cfg, procs[..|procs| - 1]) + ProcWeight(cfg, procs[|procs| - 1])
  }

  /** The Redis keys that expiry may still remove count as well. */
  function KeysHeld(s: Store): nat {
    |s.held| + |s.replays|
  }

  function Measure(cfg: Config, m: Machine): nat {
    LogWeight(cfg, m.store.ledger, m.taken, m.store.log) + ProcsWeight(cfg, m.procs) + KeysHeld(m.store)
  }

  // ---------------------------------------------------------------- sums

  lemma {:induction false} ProcsUpdated(cfg: Config, procs: seq<Proc>, j: nat, p: Proc)
    requires j < |procs|
    ensures ProcsWeight(cfg, procs[j := p]) + ProcWeight(cfg, procs[j]) == ProcsWeight(cfg, procs) + ProcWeight(cfg, p)
  {
    var n := |procs| - 1;
    if j == n {
      assert procs[j := p][..n] == procs[..n];
    } else {
      ProcsUpdated(cfg, procs[..n], j, p);
      assert procs[j := p][..n] == procs[..n][j := p];
    }
  }

  /** A larger ledger or taken set only lightens the log; the message at i by all it weighed, if it now
      weighs nothing. */
  lemma {:induction false} LogLightened(cfg: Config, ledger: set<Claim>, ledger': set<Claim>,
                                        taken: set<nat>, taken': set<nat>, log: seq<Message>, i: nat)
    requires ledger <= ledger' && taken <= taken'
    ensures LogWeight(cfg, ledger', taken', log) <= LogWeight(cfg, ledger, taken, log)
    ensures i < |log| && MessageWeight(cfg, ledger', i in taken', log[i]) == 0 ==>
              LogWeight(cfg, ledger', taken', log) + MessageWeight(cfg, ledger, i in taken, log[i])
              <= LogWeight(cfg, ledger, taken, log)
  {
    if log != [] {
      var n := |log| - 1;
      LogLightened(cfg, ledger, ledger', taken, taken', log[..n], i);
      if i < n {
        assert log[..n][i] == log[i];
      }
    }
  }

  lemma LogAppended(cfg: Config, ledger: set<Claim>, taken: set<nat>, log: seq<Message>, m: Message)
    ensures LogWeight(cfg, ledger, taken, log + [m]) <=
            LogWeight(cfg, ledger, taken, log) + MessageWeight(cfg, ledger, false, m)
  {
    assert (log + [m])[..|log|] == log;
  }

  // ---------------------------------------------------------------- micro steps

  /** The weight of the message a step published, if it published one. */
  function Published(cfg: Config, s: Store, s': Store): nat {
    if |s'.log| > |s.log| then MessageWeight(cfg, s'.ledger, false, s'.log[|s.log|]) else 0
  }

  ghost predicate Falls(cfg: Config, s: Store, p: Proc, n: Next) {
    Published(cfg, s, n.store) + ProcWeight(cfg, n.proc) + KeysHeld(n.store) < ProcWeight(cfg, p) + KeysHeld(s)
  }

  lemma GateFalls(cfg: Config, s: Store, ev: UrlDiscovered, input: CrawlInput)
    ensures Falls(cfg, s, CrawlGate(ev, input), StepGate(s, ev, input))
  {
  }

  lemma FetchFalls(cfg: Config, s: Store, ev: UrlDiscovered, input: CrawlInput)
    ensures Falls(cfg, s, CrawlFetch(ev, input), StepFetch(s, ev, input))
  {
  }

  lemma CrawlStartFalls(cfg: Config, s: Store, p: Proc)
    requires p.CrawlGate? || p.CrawlSkip? || p.CrawlFetch? || p.CrawlUnchanged? || p.CrawlFail?
    ensures Falls(cfg, s, p, Advance(cfg, s, p))
  {
    if p.CrawlGate? {
      GateFalls(cfg, s, p.ev, p.input);
    } else if p.CrawlFetch? {
      FetchFalls(cfg, s, p.ev, p.input);
    }
  }

  lemma CrawlPublishFalls(cfg: Config, s: Store, p: Proc)
    requires p.CrawlPublish?
    ensures Falls(cfg, s, p, Advance(cfg, s, p))
  {
  }

  /** At most fifty links are followed. */
  lemma FollowedWeight(cfg: Config, ev: UrlDiscovered, links: seq<Link>)
    ensures LoopWeight(cfg, ev, LinksToFollow(ev, links)) <= 50 * (EventLink(cfg, ev) + 4) + 3 + EventFailure(cfg, ev)
  {
    TimesAtMost(|LinksToFollow(ev, links)|, 50, EventLink(cfg, ev) + 4);
    TimesIsProduct(50, EventLink(cfg, ev) + 4);
  }

  lemma {:induction false} TimesAtMost(a: nat, b: nat, w: nat)
    requires a <= b
    ensures Times(a, w) <= Times(b, w)
  {
    if a > 0 {
      TimesAtMost(a - 1, b - 1, w);
    }
  }

  lemma {:induction false} TimesIsProduct(n: nat, w: nat)
    ensures Times(n, w) == n * w
  {
    if n > 0 {
      TimesIsProduct(n - 1, w);
      assert n * w == w + (n - 1) * w;
    }
  }

  lemma CrawlMarkFalls(cfg: Config, s: Store, p: Proc)
    requires p.CrawlMark?
    ensures Falls(cfg, s, p, Advance(cfg, s, p))
  {
    if Strikes(p.luck) {
      MarkStrikeFalls(cfg, s, p);
    } else {
      FollowedProc(cfg, p.ev, p.storageKey, p.checksum, p.links, p.luck);
      SameLogFalls(cfg, s, p, StepMark(s, p.ev, p.storageKey, p.checksum, p.links, p.luck));
    }
  }

  lemma MarkStrikeFalls(cfg: Config, s: Store, p: Proc)
    requires p.CrawlMark? && Strikes(p.luck)
    ensures Falls(cfg, s, p, Advance(cfg, s, p))
  {
  }

  lemma FollowedProc(cfg: Config, ev: UrlDiscovered, key: string, checksum: string, links: seq<Link>, luck: Luck)
    requires !Strikes(luck)
    ensures ProcWeight(cfg, CrawlLinks(ev, LinksToFollow(ev, links), Spend(luck))) <
            ProcWeight(cfg, CrawlMark(ev, key, checksum, links, luck))
  {
    FollowedWeight(cfg, ev, links);
  }

  /** A step that publishes nothing and holds no more keys falls with its handler. */
  lemma SameLogFalls(cfg: Config, s: Store, p: Proc, n: Next)
    requires n.store.log == s.log && KeysHeld(n.store) == KeysHeld(s)
    requires ProcWeight(cfg, n.proc) < ProcWeight(cfg, p)
    ensures Falls(cfg, s, p, n)
  {
  }

  lemma CrawlReportFalls(cfg: Config, s: Store, p: Proc)
    requires p.CrawlReport?
    ensures Falls(cfg, s, p, Advance(cfg, s, p))
  {
  }

  lemma OneLinkMore(cfg: Config, ev: UrlDiscovered, link: Link, links: seq<Link>)
    ensures LoopWeight(cfg, ev, [link] + links) == LoopWeight(cfg, ev, links) + EventLink(cfg, ev) + 4
  {
  }

  lemma CrawlLinksFalls(cfg: Config, s: Store, p: Proc)
    requires p.CrawlLinks?
    ensures Falls(cfg, s, p, Advance(cfg, s, p))
  {
    if p.links != [] {
      assert p.links == [p.links[0]] + p.links[1..];
      OneLinkMore(cfg, p.ev, p.links[0], p.links[1..]);
    }
  }

  lemma CrawlQueueFalls(cfg: Config, s: Store, p: Proc)
    requires p.CrawlQueue?
    ensures Falls(cfg, s, p, Advance(cfg, s, p))
  {
  }

  /** The child's event weighs what its parent kept for one link. */
  lemma ChildWeight(cfg: Config, ev: UrlDiscovered, link: Link, id: EventId)
    requires ev.depth < ev.maxDepth
    ensures EventWeight(cfg, ChildEvent(ev, link, id)) == EventLink(cfg, ev)
  {
  }

  lemma CrawlEmitFalls(cfg: Config, s: Store, p: Proc)
    requires p.CrawlEmit? && p.ev.depth < p.ev.maxDepth
    ensures Falls(cfg, s, p, Advance(cfg, s, p))
  {
    ChildWeight(cfg, p.ev, p.link, s.nextId);
    var n := StepEmit(s, p.ev, p.link, p.links, p.luck);
    if !Strikes(p.luck) {
      assert Published(cfg, s, n.store) <= EventLink(cfg, p.ev);
      assert ProcWeight(cfg, n.proc) == LoopWeight(cfg, p.ev, p.links);
    }
  }

  lemma ParseFalls(cfg: Config, s: Store, p: Proc)
    requires p.ParseBody? || p.ParseReport?
    ensures Falls(cfg, s, p, Advance(cfg, s, p))
  {
  }

  lemma CleanFalls(cfg: Config, s: Store, p: Proc)
    requires p.CleanBody? || p.CleanFail? || p.CleanReport?
    ensures Falls(cfg, s, p, Advance(cfg, s, p))
  {
  }

  lemma RetryFalls(cfg: Config, s: Store, f: UrlFailed)
    requires FailedOk(cfg, s, f)
    ensures Falls(cfg, s, RetryBody(f), Next(RetryStep(cfg, s, f), Idle))
  {
  }

  lemma ReplayFalls(cfg: Config, s: Store, letter: DeadLetter)
    requires LedgerOk(s) && LetterOk(cfg, s, letter)
    ensures Falls(cfg, s, ReplayPublishing(letter), Next(ReplayStep(s, letter), Idle))
  {
    ReplayShapes(letter, s.nextId);
  }

  lemma CountingFalls(cfg: Config, s: Store, letter: DeadLetter)
    ensures Falls(cfg, s, ReplayCounting(letter), StepCounting(cfg, s, letter))
  {
  }

  lemma ReplayerFalls(cfg: Config, s: Store, p: Proc)
    requires LedgerOk(s) && DutyOk(cfg, s, DutyOf(p))
    requires p.ReplayCounting? || p.ReplayPublishing?
    ensures Falls(cfg, s, p, Advance(cfg, s, p))
  {
    if p.ReplayCounting? {
      CountingFalls(cfg, s, p.letter);
    } else {
      ReplayFalls(cfg, s, p.letter);
    }
  }

  lemma SubmitLoopFalls(cfg: Config, s: Store, p: Proc)
    requires p.SubmitLoop?
    ensures Falls(cfg, s, p, Advance(cfg, s, p))
  {
  }

  lemma SubmitEmitFalls(cfg: Config, s: Store, p: Proc)
    requires p.SubmitEmit?
    ensures Falls(cfg, s, p, Advance(cfg, s, p))
  {
  }

  lemma SubmitFalls(cfg: Config, s: Store, p: Proc)
    requires p.SubmitLoop? || p.SubmitQueue? || p.SubmitEmit?
    ensures Falls(cfg, s, p, Advance(cfg, s, p))
  {
    if p.SubmitLoop? {
      SubmitLoopFalls(cfg, s, p);
    } else if p.SubmitEmit? {
      SubmitEmitFalls(cfg, s, p);
    }
  }

  lemma CrawlFalls(cfg: Config, s: Store, p: Proc)
    requires DutyOf(p).Crawls? && Following(DutyOf(p).ev, LinksAhead(p))
    ensures Falls(cfg, s, p, Advance(cfg, s, p))
  {
    match p
    case CrawlPublish(_, _, _, _, _) => CrawlPublishFalls(cfg, s, p);
    case CrawlMark(_, _, _, _, _) => CrawlMarkFalls(cfg, s, p);
    case CrawlLinks(_, _, _) => CrawlLinksFalls(cfg, s, p);
    case CrawlQueue(_, _, _, _) => CrawlQueueFalls(cfg, s, p);
    case CrawlEmit(_, _, _, _) => CrawlEmitFalls(cfg, s, p);
    case CrawlReport(_, _) => CrawlReportFalls(cfg, s, p);
    case _ => CrawlStartFalls(cfg, s, p);
  }

  lemma AdvanceFalls(cfg: Config, s: Store, p: Proc)
    requires LedgerOk(s) && ProcOk(cfg, s, p) && p != Idle
    ensures Falls(cfg, s, p, Advance(cfg, s, p))
  {
    match DutyOf(p)
    case Crawls(_) => CrawlFalls(cfg, s, p);
    case Parses(_) => ParseFalls(cfg, s, p);
    case Cleans(_) => CleanFalls(cfg, s, p);
    case Submits(_) => SubmitFalls(cfg, s, p);
    case Retries(f) => RetryFalls(cfg, s, f);
    case _ => ReplayerFalls(cfg, s, p);
  }

  // ---------------------------------------------------------------- machine steps

  /** No new job, and no second delivery of a failure or DLQ message. */
  ghost predicate Ordinary(m: Machine, a: Action) {
    && !a.Submission?
    && (a.Delivery? && a.at < |m.store.log| && StageClaim(m.store.log[a.at]).None? ==> a.at !in m.taken)
  }

  lemma ProgressFalls(cfg: Config, m: Machine, j: nat)
    requires cfg.maxAttempts >= 1 && Inv(cfg, m) && j < |m.procs| && m.procs[j] != Idle
    ensures Measure(cfg, Apply(cfg, m, Progress(j))) < Measure(cfg, m)
  {
    var s, p := m.store, m.procs[j];
    var n := Advance(cfg, s, p);
    AdvanceFalls(cfg, s, p);
    AdvanceAppends(cfg, s, p);
    StepWeighs(cfg, m, j, n);
  }

  /** A handler's step changes its own weight, the log's by what it published, and the keys held. */
  lemma StepWeighs(cfg: Config, m: Machine, j: nat, n: Next)
    requires j < |m.procs| && n.store.ledger == m.store.ledger
    requires n.store.log == m.store.log ||
             (|n.store.log| == |m.store.log| + 1 && n.store.log == m.store.log + [n.store.log[|m.store.log|]])
    ensures Measure(cfg, m.(store := n.store, procs := m.procs[j := n.proc])) + ProcWeight(cfg, m.procs[j]) +
            KeysHeld(m.store) <=
            Measure(cfg, m) + Published(cfg, m.store, n.store) + ProcWeight(cfg, n.proc) + KeysHeld(n.store)
  {
    ProcsUpdated(cfg, m.procs, j, n.proc);
    if |n.store.log| > |m.store.log| {
      LogAppended(cfg, m.store.ledger, m.taken, m.store.log, n.store.log[|m.store.log|]);
    }
  }

  lemma BusyWeighs(cfg: Config, p: Proc)
    ensures p != Idle ==> ProcWeight(cfg, p) > 0
  {
  }

  lemma CrashFalls(cfg: Config, m: Machine, j: nat)
    requires j < |m.procs| && m.procs[j] != Idle
    ensures Measure(cfg, Apply(cfg, m, Crash(j))) < Measure(cfg, m)
  {
    BusyWeighs(cfg, m.procs[j]);
    StepWeighs(cfg, m, j, Next(m.store, Idle));
  }

  /** A handler that a delivery starts weighs less than the message did. */
  lemma BeginWeighsLess(cfg: Config, msg: Message, input: Input, ledger: set<Claim>)
    requires StageClaim(msg).Some? ==> StageClaim(msg).value !in ledger
    ensures ProcWeight(cfg, Begin(msg, input)) < MessageWeight(cfg, ledger, false, msg)
  {
  }

  lemma ProcStarted(cfg: Config, procs: seq<Proc>, p: Proc)
    ensures ProcsWeight(cfg, Started(procs, p)) == ProcsWeight(cfg, procs) + ProcWeight(cfg, p)
  {
    if p != Idle {
      assert (procs + [p])[..|procs|] == procs;
    }
  }

  /** What a delivery does to the parts of the measure. */
  ghost predicate DeliveredTo(m: Machine, i: nat, input: Input, m': Machine)
    requires i < |m.store.log|
  {
    var msg := m.store.log[i];
    && m'.store.log == m.store.log && m'.store.held == m.store.held && m'.store.replays == m.store.replays
    && m'.store.ledger == (if StageClaim(msg).Some? then m.store.ledger + {StageClaim(msg).value} else m.store.ledger)
    && m'.taken == (if StageClaim(msg).None? then m.taken + {i} else m.taken)
    && m'.procs == Started(m.procs, Begin(msg, input))
  }

  lemma DeliveryParts(cfg: Config, m: Machine, i: nat, input: Input)
    requires i < |m.store.log|
    requires StageClaim(m.store.log[i]).Some? ==> StageClaim(m.store.log[i]).value !in m.store.ledger
    ensures DeliveredTo(m, i, input, Apply(cfg, m, Delivery(i, input)))
  {
  }

  lemma DeliveredWeighsLess(cfg: Config, m: Machine, i: nat, input: Input, m': Machine)
    requires i < |m.store.log| && Ordinary(m, Delivery(i, input)) && DeliveredTo(m, i, input, m')
    requires StageClaim(m.store.log[i]).Some? ==> StageClaim(m.store.log[i]).value !in m.store.ledger
    ensures Measure(cfg, m') < Measure(cfg, m)
  {
    var s, msg := m.store, m.store.log[i];
    BeginWeighsLess(cfg, msg, input, s.ledger);
    ProcStarted(cfg, m.procs, Begin(msg, input));
    LogLightened(cfg, s.ledger, m'.store.ledger, m.taken, m'.taken, s.log, i);
  }

  lemma DeliveryFalls(cfg: Config, m: Machine, i: nat, input: Input)
    requires i < |m.store.log| && Ordinary(m, Delivery(i, input))
    requires StageClaim(m.store.log[i]).Some? ==> StageClaim(m.store.log[i]).value !in m.store.ledger
    ensures Measure(cfg, Apply(cfg, m, Delivery(i, input))) < Measure(cfg, m)
  {
    DeliveryParts(cfg, m, i, input);
    DeliveredWeighsLess(cfg, m, i, input, Apply(cfg, m, Delivery(i, input)));
  }

  lemma HoldExpiryFalls(cfg: Config, m: Machine, u: Url)
    ensures u in m.store.held ==> Measure(cfg, Apply(cfg, m, ExpireHold(u))) < Measure(cfg, m)
    ensures u !in m.store.held ==> Apply(cfg, m, ExpireHold(u)) == m
  {
    assert u !in m.store.held ==> m.store.held - {u} == m.store.held;
  }

  lemma ReplayExpiryFalls(cfg: Config, m: Machine, e: EventId)
    ensures e in m.store.replays ==> Measure(cfg, Apply(cfg, m, ExpireReplays(e))) < Measure(cfg, m)
    ensures e !in m.store.replays ==> Apply(cfg, m, ExpireReplays(e)) == m
  {
    var r := m.store.replays;
    assert e !in r ==> r - {e} == r;
    assert e in r ==> (r - {e}).Keys == r.Keys - {e};
    assert |r - {e}| == |(r - {e}).Keys| && |r| == |r.Keys|;
  }

  lemma IdleUnchanged(cfg: Config, m: Machine, j: nat)
    requires j < |m.procs| && m.procs[j] == Idle
    ensures Apply(cfg, m, Progress(j)) == m && Apply(cfg, m, Crash(j)) == m
  {
    assert m.procs[j := Idle] == m.procs;
  }

  /** Every ordinary step that changes the state makes the measure smaller. */
  lemma MeasureFalls(cfg: Config, m: Machine, a: Action)
    requires cfg.maxAttempts >= 1 && Inv(cfg, m) && Ordinary(m, a) && Apply(cfg, m, a) != m
    ensures Measure(cfg, Apply(cfg, m, a)) < Measure(cfg, m)
  {
    match a
    case Delivery(i, input) => DeliveryFalls(cfg, m, i, input);
    case Progress(j) =>
      if m.procs[j] == Idle { IdleUnchanged(cfg, m, j); } else { ProgressFalls(cfg, m, j); }
    case Crash(j) =>
      if m.procs[j] == Idle { IdleUnchanged(cfg, m, j); } else { CrashFalls(cfg, m, j); }
    case ExpireHold(u) => HoldExpiryFalls(cfg, m, u);
    case ExpireReplays(e) => ReplayExpiryFalls(cfg, m, e);
  }

  // ---------------------------------------------------------------- runs

  /** Every action of the run is ordinary and changes the state. */
  ghost predicate Productive(cfg: Config, m: Machine, actions: seq<Action>) {
    forall k :: 0 <= k < |actions| ==>
      var before := Run(cfg, m, actions[..k]);
      Ordinary(before, actions[k]) && Apply(cfg, before, actions[k]) != before
  }

  lemma ProductivePrefix(cfg: Config, m: Machine, actions: seq<Action>)
    requires actions != [] && Productive(cfg, m, actions)
    ensures var init, last := actions[..|actions| - 1], actions[|actions| - 1];
            && Productive(cfg, m, init)
            && Ordinary(Run(cfg, m, init), last) && Apply(cfg, Run(cfg, m, init), last) != Run(cfg, m, init)
  {
    var init := actions[..|actions| - 1];
    forall k | 0 <= k < |init|
      ensures var before := Run(cfg, m, init[..k]);
              Ordinary(before, init[k]) && Apply(cfg, before, init[k]) != before
    {
      assert init[..k] == actions[..k];
    }
  }

  lemma {:induction false} ProductiveRunFalls(cfg: Config, m: Machine, actions: seq<Action>)
    requires cfg.maxAttempts >= 1 && Inv(cfg, m) && Productive(cfg, m, actions)
    ensures |actions| + Measure(cfg, Run(cfg, m, actions)) <= Measure(cfg, m)
  {
    if actions != [] {
      var init, last := actions[..|actions| - 1], actions[|actions| - 1];
      ProductivePrefix(cfg, m, actions);
      ProductiveRunFalls(cfg, m, init);
      RunInv(cfg, m, init);
      MeasureFalls(cfg, Run(cfg, m, init), last);
    }
  }

  /** From any reachable state, a run without new jobs and without redelivered failures or dead letters
      changes the state at most Measure times: every crawl ends, also with crashes and key expiry. */
  lemma {:induction false} RunsAreFinite(cfg: Config, before: seq<Action>, actions: seq<Action>)
    requires cfg.maxAttempts >= 1 && Productive(cfg, Run(cfg, INITIAL, before), actions)
    ensures |actions| <= Measure(cfg, Run(cfg, INITIAL, before))
  {
    RunInv(cfg, INITIAL, before);
    ProductiveRunFalls(cfg, Run(cfg, INITIAL, before), actions);
  }
}
