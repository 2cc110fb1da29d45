/** One page per event id: which handler may still publish the fetch or the parse of an event. */
module PageFlow {
  import opened Wrappers
  import opened Events
  import opened Store
  import opened Handlers
  import opened Machine
  import opened Lineage
  import opened LineageSteps

  predicate IsFetch(m: Message, e: EventId) {
    m.OnFetched? && m.fetched.eventId == e
  }

  predicate IsParse(m: Message, e: EventId) {
    m.OnParsed? && m.parsed.eventId == e
  }

  ghost predicate FetchOnLog(log: seq<Message>, e: EventId) {
    exists i :: 0 <= i < |log| && IsFetch(log[i], e)
  }

  ghost predicate ParseOnLog(log: seq<Message>, e: EventId) {
    exists i :: 0 <= i < |log| && IsParse(log[i], e)
  }

  /** The event whose fetch the handler has yet to publish. */
  function Fetching(p: Proc): Option<EventId> {
    if p.CrawlGate? || p.CrawlFetch? || p.CrawlPublish? then Some(p.ev.eventId) else None
  }

  /** The event whose parse the handler has yet to publish. */
  function Parsing(p: Proc): Option<EventId> {
    if p.ParseBody? then Some(p.page.eventId) else None
  }

  /** The page a crawler is about to mark as fetched is on the log. */
  ghost predicate MarkBacked(log: seq<Message>, p: Proc) {
    p.CrawlMark? ==>
      exists i :: 0 <= i < |log| && IsFetch(log[i], p.ev.eventId) && MessageKey(log[i]) == KeyOf(p.ev)
  }

  ghost predicate ProcFlow(log: seq<Message>, p: Proc) {
    && (Fetching(p).Some? ==> !FetchOnLog(log, Fetching(p).value))
    && (Parsing(p).Some? ==> !ParseOnLog(log, Parsing(p).value))
    && MarkBacked(log, p)
  }

  predicate Distinct(p: Proc, q: Proc) {
    && (Fetching(p).Some? ==> Fetching(p) != Fetching(q))
    && (Parsing(p).Some? ==> Parsing(p) != Parsing(q))
  }

  ghost predicate ClaimFlow(s: Store) {
    && (forall e :: Claim(e, Parser) in s.ledger ==> FetchOnLog(s.log, e))
    && (forall e :: Claim(e, Cleaner) in s.ledger ==> ParseOnLog(s.log, e))
  }

  ghost predicate Flow(m: Machine) {
    && ClaimFlow(m.store)
    && (forall j :: 0 <= j < |m.procs| ==> ProcFlow(m.store.log, m.procs[j]))
    && (forall i, j :: 0 <= i < j < |m.procs| ==> Distinct(m.procs[i], m.procs[j]))
    && (forall i :: i in m.taken ==> i < |m.store.log|)
  }

  // ---------------------------------------------------------------- what a micro step publishes

  /** A step publishes a fetch or a parse only as the handler that was to, or a parse that the cleaner had claimed. */
  ghost predicate FlowStep(s: Store, p: Proc, n: Next) {
    && (Fetching(n.proc).Some? ==> Fetching(n.proc) == Fetching(p))
    && Parsing(n.proc) == None
    && (|n.store.log| > |s.log| ==>
          var x := n.store.log[|s.log|];
          && (x.OnFetched? ==> Fetching(p) == Some(x.fetched.eventId) && Fetching(n.proc) == None)
          && (x.OnParsed? ==>
                Parsing(p) == Some(x.parsed.eventId) || Claim(x.parsed.eventId, Cleaner) in s.ledger))
    && (n.proc.CrawlMark? ==>
          |n.store.log| > |s.log| && IsFetch(n.store.log[|s.log|], n.proc.ev.eventId) &&
          MessageKey(n.store.log[|s.log|]) == KeyOf(n.proc.ev))
  }

  lemma FollowerFlow(cfg: Config, s: Store, p: Proc)
    requires p.CrawlLinks? || p.CrawlQueue? || p.CrawlEmit?
    ensures FlowStep(s, p, Advance(cfg, s, p))
  {
  }

  lemma CrawlerFlow(cfg: Config, s: Store, p: Proc)
    requires DutyOf(p).Crawls?
    ensures FlowStep(s, p, Advance(cfg, s, p))
  {
    if p.CrawlLinks? || p.CrawlQueue? || p.CrawlEmit? {
      FollowerFlow(cfg, s, p);
    }
  }

  lemma RetryFlow(cfg: Config, s: Store, f: UrlFailed)
    requires FailedOk(cfg, s, f)
    ensures FlowStep(s, RetryBody(f), Next(RetryStep(cfg, s, f), Idle))
  {
  }

  lemma ReplayFlow(cfg: Config, s: Store, letter: DeadLetter)
    requires LetterOk(cfg, s, letter)
    ensures FlowStep(s, ReplayPublishing(letter), Next(ReplayStep(s, letter), Idle))
  {
    ReplayShapes(letter, s.nextId);
  }

  lemma OtherFlow(cfg: Config, s: Store, p: Proc)
    requires !DutyOf(p).Crawls? && !DutyOf(p).Retries? && !p.ReplayPublishing? && p != Idle
    ensures FlowStep(s, p, Advance(cfg, s, p))
  {
  }

  lemma AdvanceFlow(cfg: Config, s: Store, p: Proc)
    requires ProcOk(cfg, s, p) && p != Idle
    ensures FlowStep(s, p, Advance(cfg, s, p))
  {
    if DutyOf(p).Crawls? {
      CrawlerFlow(cfg, s, p);
    } else if p.RetryBody? {
      RetryFlow(cfg, s, p.failed);
    } else if p.ReplayPublishing? {
      ReplayFlow(cfg, s, p.letter);
    } else {
      OtherFlow(cfg, s, p);
    }
  }

  // ---------------------------------------------------------------- every step keeps it

  lemma LogKeeps(log: seq<Message>, log': seq<Message>, e: EventId)
    requires log <= log'
    ensures FetchOnLog(log, e) ==> FetchOnLog(log', e)
    ensures ParseOnLog(log, e) ==> ParseOnLog(log', e)
  {
    if FetchOnLog(log, e) {
      var i :| 0 <= i < |log| && IsFetch(log[i], e);
      assert IsFetch(log'[i], e);
    }
    if ParseOnLog(log, e) {
      var i :| 0 <= i < |log| && IsParse(log[i], e);
      assert IsParse(log'[i], e);
    }
  }

  /** What one more message puts on the log. */
  lemma LogGains(log: seq<Message>, x: Message, e: EventId)
    ensures FetchOnLog(log + [x], e) <==> FetchOnLog(log, e) || IsFetch(x, e)
    ensures ParseOnLog(log + [x], e) <==> ParseOnLog(log, e) || IsParse(x, e)
  {
    LogKeeps(log, log + [x], e);
    assert (log + [x])[|log|] == x;
  }

  lemma MarkKept(log: seq<Message>, log': seq<Message>, p: Proc)
    requires log <= log' && MarkBacked(log, p)
    ensures MarkBacked(log', p)
  {
    if p.CrawlMark? {
      var i :| 0 <= i < |log| && IsFetch(log[i], p.ev.eventId) && MessageKey(log[i]) == KeyOf(p.ev);
      assert IsFetch(log'[i], p.ev.eventId) && MessageKey(log'[i]) == KeyOf(p.ev);
    }
  }

  /** A handler q is not disturbed by the step of another handler p. */
  lemma OtherProcFlow(s: Store, p: Proc, n: Next, q: Proc)
    requires ClaimFlow(s) && FlowStep(s, p, n) && ProcFlow(s.log, q) && Distinct(p, q) && Distinct(q, p)
    requires n.store.log == s.log || (|n.store.log| == |s.log| + 1 && n.store.log == s.log + [n.store.log[|s.log|]])
    ensures ProcFlow(n.store.log, q) && Distinct(n.proc, q) && Distinct(q, n.proc)
  {
    MarkKept(s.log, n.store.log, q);
    if n.store.log != s.log {
      var x := n.store.log[|s.log|];
      if Fetching(q).Some? {
        LogGains(s.log, x, Fetching(q).value);
      }
      if Parsing(q).Some? {
        LogGains(s.log, x, Parsing(q).value);
      }
    }
  }

  lemma OwnProcFlow(s: Store, p: Proc, n: Next)
    requires FlowStep(s, p, n) && ProcFlow(s.log, p)
    requires n.store.log == s.log || (|n.store.log| == |s.log| + 1 && n.store.log == s.log + [n.store.log[|s.log|]])
    ensures ProcFlow(n.store.log, n.proc)
  {
    if n.store.log != s.log && Fetching(n.proc).Some? {
      LogGains(s.log, n.store.log[|s.log|], Fetching(n.proc).value);
    }
  }

  lemma ProgressFlow(cfg: Config, m: Machine, j: nat)
    requires Inv(cfg, m) && Flow(m) && j < |m.procs| && m.procs[j] != Idle
    ensures Flow(Apply(cfg, m, Progress(j)))
  {
    var s, p := m.store, m.procs[j];
    var n := Advance(cfg, s, p);
    assert ProcOk(cfg, s, p);
    AdvanceFlow(cfg, s, p);
    AdvanceAppends(cfg, s, p);
    StepFlow(m, j, n);
  }

  lemma StepFlow(m: Machine, j: nat, n: Next)
    requires Flow(m) && j < |m.procs| && FlowStep(m.store, m.procs[j], n) && n.store.ledger == m.store.ledger
    requires n.store.log == m.store.log ||
             (|n.store.log| == |m.store.log| + 1 && n.store.log == m.store.log + [n.store.log[|m.store.log|]])
    ensures Flow(m.(store := n.store, procs := m.procs[j := n.proc]))
  {
    var s, p := m.store, m.procs[j];
    OwnProcFlow(s, p, n);
    forall i | 0 <= i < |m.procs| && i != j
      ensures ProcFlow(n.store.log, m.procs[i]) && Distinct(n.proc, m.procs[i]) && Distinct(m.procs[i], n.proc)
    {
      assert Distinct(p, m.procs[i]) && Distinct(m.procs[i], p) by {
        if i < j { assert Distinct(m.procs[i], m.procs[j]); } else { assert Distinct(m.procs[j], m.procs[i]); }
      }
      OtherProcFlow(s, p, n, m.procs[i]);
    }
    ClaimFlowKept(s, n.store);
  }

  lemma ClaimFlowKept(s: Store, s': Store)
    requires ClaimFlow(s) && s'.ledger == s.ledger && s.log <= s'.log
    ensures ClaimFlow(s')
  {
    forall e
      ensures Claim(e, Parser) in s'.ledger ==> FetchOnLog(s'.log, e)
      ensures Claim(e, Cleaner) in s'.ledger ==> ParseOnLog(s'.log, e)
    {
      LogKeeps(s.log, s'.log, e);
    }
  }

  lemma PagesAreClaimed(cfg: Config, s: Store, e: EventId)
    requires StoreOk(cfg, s)
    ensures FetchOnLog(s.log, e) ==> Claim(e, Crawler) in s.ledger
    ensures ParseOnLog(s.log, e) ==> Claim(e, Parser) in s.ledger
  {
    assert forall i :: 0 <= i < |s.log| ==> MessageOk(cfg, s, s.log[i]);
  }

  /** A handler that a claim has just started is the only one for its event. */
  lemma BeginFlow(cfg: Config, s: Store, i: nat, input: Input, q: Proc)
    requires StoreOk(cfg, s) && i < |s.log| && StageClaim(s.log[i]).Some? && StageClaim(s.log[i]).value !in s.ledger
    requires ProcOk(cfg, s, q)
    ensures ProcFlow(s.log, Begin(s.log[i], input))
    ensures Distinct(q, Begin(s.log[i], input)) && Distinct(Begin(s.log[i], input), q)
  {
    var m := s.log[i];
    assert MessageOk(cfg, s, m);
    if m.OnDiscovered? {
      BeginCrawlFlow(cfg, s, m.discovered, input.crawl, q);
    } else if m.OnFetched? {
      BeginParseFlow(cfg, s, m.fetched, input.parse, q);
    }
  }

  lemma BeginCrawlFlow(cfg: Config, s: Store, d: UrlDiscovered, input: CrawlInput, q: Proc)
    requires StoreOk(cfg, s) && ProcOk(cfg, s, q) && Claim(d.eventId, Crawler) !in s.ledger
    ensures ProcFlow(s.log, CrawlGate(d, input))
    ensures Distinct(q, CrawlGate(d, input)) && Distinct(CrawlGate(d, input), q)
  {
    PagesAreClaimed(cfg, s, d.eventId);
  }

  lemma BeginParseFlow(cfg: Config, s: Store, h: HtmlFetched, input: ParseInput, q: Proc)
    requires StoreOk(cfg, s) && ProcOk(cfg, s, q) && Claim(h.eventId, Parser) !in s.ledger
    ensures ProcFlow(s.log, ParseBody(h, input))
    ensures Distinct(q, ParseBody(h, input)) && Distinct(ParseBody(h, input), q)
  {
    PagesAreClaimed(cfg, s, h.eventId);
  }

  /** A new handler joins that competes with no other. */
  lemma StartedFlow(m: Machine, s': Store, taken': set<nat>, p: Proc)
    requires Flow(m) && ClaimFlow(s') && s'.log == m.store.log && forall i :: i in taken' ==> i < |s'.log|
    requires ProcFlow(s'.log, p)
    requires forall j :: 0 <= j < |m.procs| ==> Distinct(m.procs[j], p)
    ensures Flow(Machine(s', taken', Started(m.procs, p)))
  {
  }

  lemma ClaimBacked(s: Store, i: nat)
    requires ClaimFlow(s) && i < |s.log|
    ensures ClaimFlow(ClaimTransaction(s, s.log[i])) && ClaimTransaction(s, s.log[i]).log == s.log
  {
    var msg := s.log[i];
    assert msg.OnFetched? ==> IsFetch(s.log[i], msg.fetched.eventId);
    assert msg.OnParsed? ==> IsParse(s.log[i], msg.parsed.eventId);
  }

  lemma DeliveryFlow(cfg: Config, m: Machine, i: nat, input: Input)
    requires Inv(cfg, m) && Flow(m) && i < |m.store.log|
    ensures Flow(Apply(cfg, m, Delivery(i, input)))
  {
    var s, msg := m.store, m.store.log[i];
    var n := Deliver(s, msg, input);
    ClaimBacked(s, i);
    if StageClaim(msg).Some? && StageClaim(msg).value !in s.ledger {
      BeginFlow(cfg, s, i, input, Idle);
      forall j | 0 <= j < |m.procs|
        ensures Distinct(m.procs[j], n.proc)
      {
        assert ProcOk(cfg, s, m.procs[j]);
        BeginFlow(cfg, s, i, input, m.procs[j]);
      }
    }
    StartedFlow(m, n.store, Apply(cfg, m, Delivery(i, input)).taken, n.proc);
  }

  lemma ApplyFlow(cfg: Config, m: Machine, a: Action)
    requires Inv(cfg, m) && Flow(m)
    ensures Flow(Apply(cfg, m, a))
  {
    match a
    case Delivery(i, input) =>
      if i < |m.store.log| { DeliveryFlow(cfg, m, i, input); }
    case Progress(j) =>
      if j < |m.procs| && m.procs[j] != Idle {
        ProgressFlow(cfg, m, j);
      } else if j < |m.procs| {
        assert m.procs[j := Idle] == m.procs;
      }
    case Crash(j) => CrashFlow(cfg, m, j);
    case Submission(r) =>
      ClaimFlowKept(m.store, Submit(m.store, r).store);
      StartedFlow(m, Submit(m.store, r).store, m.taken, Submit(m.store, r).proc);
    case _ =>
  }

  lemma CrashFlow(cfg: Config, m: Machine, j: nat)
    requires Flow(m)
    ensures Flow(Apply(cfg, m, Crash(j)))
  {
  }

  lemma {:induction false} RunFlow(cfg: Config, actions: seq<Action>)
    requires cfg.maxAttempts >= 1
    ensures Inv(cfg, Run(cfg, INITIAL, actions)) && Flow(Run(cfg, INITIAL, actions))
  {
    RunInv(cfg, INITIAL, actions);
    if actions != [] {
      var init := actions[..|actions| - 1];
      RunFlow(cfg, init);
      ApplyFlow(cfg, Run(cfg, INITIAL, init), actions[|actions| - 1]);
    }
  }
}
