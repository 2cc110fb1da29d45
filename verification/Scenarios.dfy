/** Concrete runs from the empty pipeline in which the code does less than its documentation promises. */
module Scenarios {
  import opened Wrappers
  import opened Events
  import opened Links
  import opened Store
  import opened Handlers
  import opened Machine
  import opened NoSilentLoss
  import Scheduler

  // ---------------------------------------------------------------- runs step by step

  /** What a scenario needs to know of a machine. */
  datatype View = View(
    jobs: map<JobId, Job>, rows: map<RowKey, Row>, ledger: set<Claim>, seen: set<RowKey>, held: set<Url>,
    log: seq<Message>, nextId: nat, taken: set<nat>, procs: seq<Proc>)

  function ViewOf(m: Machine): View {
    View(m.store.jobs, m.store.rows, m.store.ledger, m.store.seen, m.store.held, m.store.log, m.store.nextId, m.taken,
         m.procs)
  }

  predicate CrashFree(actions: seq<Action>) {
    forall i :: 0 <= i < |actions| ==> !actions[i].Crash?
  }

  /** Some run from the empty pipeline, in which nothing crashes, ends in such a machine. */
  ghost predicate Reached(cfg: Config, v: View) {
    exists actions :: CrashFree(actions) && ViewOf(Run(cfg, INITIAL, actions)) == v
  }

  ghost predicate Leads(cfg: Config, v: View, a: Action, v': View) {
    forall m :: ViewOf(m) == v ==> ViewOf(Apply(cfg, m, a)) == v'
  }

  lemma OneMoreStep(cfg: Config, actions: seq<Action>, v: View, a: Action, v': View)
    requires ViewOf(Run(cfg, INITIAL, actions)) == v && Leads(cfg, v, a, v')
    ensures ViewOf(Run(cfg, INITIAL, actions + [a])) == v'
  {
    assert (actions + [a])[..|actions|] == actions;
  }

  lemma Follow(cfg: Config, v: View, a: Action, v': View)
    requires Reached(cfg, v) && Leads(cfg, v, a, v') && !a.Crash?
    ensures Reached(cfg, v')
  {
    var actions :| CrashFree(actions) && ViewOf(Run(cfg, INITIAL, actions)) == v;
    OneMoreStep(cfg, actions, v, a, v');
    CrashFreeOn(actions, a);
  }

  lemma CrashFreeOn(actions: seq<Action>, a: Action)
    requires CrashFree(actions) && !a.Crash?
    ensures CrashFree(actions + [a])
  {
  }

  /** The store part of a view. */
  predicate Shows(s: Store, v: View) {
    && s.jobs == v.jobs && s.rows == v.rows && s.ledger == v.ledger && s.seen == v.seen && s.held == v.held
    && s.log == v.log && s.nextId == v.nextId
  }

  /** A step of handler j, by what it does to any store that the view shows. */
  lemma ProgressLeads(cfg: Config, v: View, j: nat, p': Proc, v': View)
    requires j < |v.procs| && v'.taken == v.taken && v'.procs == v.procs[j := p']
    requires forall s :: Shows(s, v) ==>
               Shows(Advance(cfg, s, v.procs[j]).store, v') && Advance(cfg, s, v.procs[j]).proc == p'
    ensures Leads(cfg, v, Progress(j), v')
  {
    forall m | ViewOf(m) == v
      ensures ViewOf(Apply(cfg, m, Progress(j))) == v'
    {
      assert Shows(m.store, v);
    }
  }

  /** The delivery of a message that a stage claims, likewise. */
  lemma ClaimLeads(cfg: Config, v: View, i: nat, input: Input, p: Proc, v': View)
    requires i < |v.log| && StageClaim(v.log[i]).Some? && p != Idle
    requires v'.taken == v.taken && v'.procs == v.procs + [p]
    requires forall s :: Shows(s, v) ==>
               Shows(Deliver(s, v.log[i], input).store, v') && Deliver(s, v.log[i], input).proc == p
    ensures Leads(cfg, v, Delivery(i, input), v')
  {
    forall m | ViewOf(m) == v
      ensures ViewOf(Apply(cfg, m, Delivery(i, input))) == v'
    {
      assert Shows(m.store, v);
    }
  }

  const EMPTY_VIEW := View(map[], map[], {}, {}, {}, [], 0, {}, [])

  lemma StartReached(cfg: Config)
    ensures Reached(cfg, EMPTY_VIEW)
  {
    assert CrashFree([]) && ViewOf(Run(cfg, INITIAL, [])) == EMPTY_VIEW;
  }

  // ---------------------------------------------------------------- one seed, crawled until its page is published

  /** One seed, and what the page behind it is like. */
  datatype Site = Site(
    seed: Seed, domains: seq<string>, storageKey: string, checksum: string, content: PageContent, luck: Luck)

  function RequestOf(x: Site): SubmitRequest {
    SubmitRequest([x.seed], x.domains, 0, [], false)
  }

  function CrawlOf(x: Site): CrawlInput {
    CrawlInput(true, FetchReturns(200, x.checksum, None, x.storageKey, [], x.luck))
  }

  function InputOf(x: Site): Input {
    Input(CrawlOf(x), ParseReturns(x.content), CleanCommits)
  }

  function RowOf(x: Site): RowKey {
    RowKey(0, x.seed.normalized)
  }

  function OrderFor(x: Site): Order {
    Order(0, 0, x.domains, false)
  }

  function Discovery(x: Site): UrlDiscovered {
    UrlDiscovered(1, 0, x.seed.url, x.seed.normalized, 1, 0, 0, x.domains, false)
  }

  function Page(x: Site): HtmlFetched {
    FetchedEvent(Discovery(x), x.storageKey, x.checksum)
  }

  function JobsOf(x: Site, status: JobStatus, queued: nat): map<JobId, Job> {
    map[0 := Job(0, x.domains, false, status, queued)]
  }

  function RowsAs(x: Site, status: Status, error: Option<Error>, checkpoint: Option<Checkpoint>): map<RowKey, Row> {
    map[RowOf(x) := Row(0, status, error, checkpoint)]
  }

  function Submitted(x: Site): View {
    EMPTY_VIEW.(jobs := JobsOf(x, Running, 0), nextId := 1, procs := [SubmitLoop(OrderFor(x), [x.seed], 0)])
  }

  function Seen(x: Site): View {
    Submitted(x).(seen := {RowOf(x)}, procs := [SubmitQueue(OrderFor(x), x.seed, [], 0)])
  }

  function Inserted(x: Site): View {
    Seen(x).(rows := RowsAs(x, Queued, None, None), procs := [SubmitEmit(OrderFor(x), x.seed, [], 0)])
  }

  function Announced(x: Site): View {
    Inserted(x).(log := [OnDiscovered(Discovery(x), Seeded)], nextId := 2,
                  procs := [SubmitLoop(OrderFor(x), [], 1)])
  }

  function Recorded(x: Site): View {
    Announced(x).(jobs := JobsOf(x, Running, 1), procs := [Idle])
  }

  function Gated(x: Site): View {
    Recorded(x).(rows := RowsAs(x, Claimed, None, Some(AtStage(Crawler))), ledger := {Claim(1, Crawler)},
                  procs := [Idle, CrawlGate(Discovery(x), CrawlOf(x))])
  }

  function Held(x: Site): View {
    Gated(x).(held := {x.seed.normalized}, procs := [Idle, CrawlFetch(Discovery(x), CrawlOf(x))])
  }

  function Downloaded(x: Site): View {
    Held(x).(procs := [Idle, CrawlPublish(Discovery(x), x.storageKey, x.checksum, [], x.luck)])
  }

  function Published(x: Site): View
    requires !Strikes(x.luck)
  {
    Downloaded(x).(log := [OnDiscovered(Discovery(x), Seeded), OnFetched(Page(x))],
                   procs := [Idle, CrawlMark(Discovery(x), x.storageKey, x.checksum, [], Spend(x.luck))])
  }

  lemma SubmitStep(cfg: Config, x: Site)
    ensures Leads(cfg, EMPTY_VIEW, Submission(RequestOf(x)), Submitted(x))
  {
  }

  lemma SeeStep(cfg: Config, x: Site)
    ensures Leads(cfg, Submitted(x), Progress(0), Seen(x))
  {
    assert [x.seed][1..] == [];
  }

  lemma InsertStep(cfg: Config, x: Site)
    ensures Leads(cfg, Seen(x), Progress(0), Inserted(x))
  {
  }

  lemma AnnounceStep(cfg: Config, x: Site)
    ensures Leads(cfg, Inserted(x), Progress(0), Announced(x))
  {
  }

  lemma RecordStep(cfg: Config, x: Site)
    ensures Leads(cfg, Announced(x), Progress(0), Recorded(x))
  {
  }

  lemma GateStep(cfg: Config, x: Site)
    ensures Leads(cfg, Recorded(x), Delivery(0, InputOf(x)), Gated(x))
  {
  }

  lemma HoldStep(cfg: Config, x: Site)
    ensures Leads(cfg, Gated(x), Progress(1), Held(x))
  {
  }

  lemma DownloadStep(cfg: Config, x: Site)
    ensures Leads(cfg, Held(x), Progress(1), Downloaded(x))
  {
  }

  lemma PublishStep(cfg: Config, x: Site)
    requires !Strikes(x.luck)
    ensures Leads(cfg, Downloaded(x), Progress(1), Published(x))
  {
  }

  lemma PublishedReached(cfg: Config, x: Site)
    requires !Strikes(x.luck)
    ensures Reached(cfg, Published(x))
  {
    StartReached(cfg);
    SubmitStep(cfg, x);
    Follow(cfg, EMPTY_VIEW, Submission(RequestOf(x)), Submitted(x));
    SeeStep(cfg, x);
    Follow(cfg, Submitted(x), Progress(0), Seen(x));
    InsertStep(cfg, x);
    Follow(cfg, Seen(x), Progress(0), Inserted(x));
    AnnounceStep(cfg, x);
    Follow(cfg, Inserted(x), Progress(0), Announced(x));
    RecordStep(cfg, x);
    Follow(cfg, Announced(x), Progress(0), Recorded(x));
    GateStep(cfg, x);
    Follow(cfg, Recorded(x), Delivery(0, InputOf(x)), Gated(x));
    HoldStep(cfg, x);
    Follow(cfg, Gated(x), Progress(1), Held(x));
    DownloadStep(cfg, x);
    Follow(cfg, Held(x), Progress(1), Downloaded(x));
    PublishStep(cfg, x);
    Follow(cfg, Downloaded(x), Progress(1), Published(x));
  }

  // ---------------------------------------------------------------- a late mark

  function ParsedPage(x: Site): PageParsed {
    ParsedEvent(Page(x), x.content)
  }

  /** The three claims on the page's event. */
  const ALL_CLAIMS := {Claim(1, Crawler), Claim(1, Parser), Claim(1, Cleaner)}

  function ParserStarted(x: Site): View
    requires !Strikes(x.luck)
  {
    Published(x).(ledger := {Claim(1, Crawler), Claim(1, Parser)},
                  procs := Published(x).procs + [ParseBody(Page(x), ParseReturns(x.content))])
  }

  function PageOut(x: Site): View
    requires !Strikes(x.luck)
  {
    ParserStarted(x).(log := Published(x).log + [OnParsed(ParsedPage(x))], procs := Published(x).procs + [Idle])
  }

  function CleanerStarted(x: Site): View
    requires !Strikes(x.luck)
  {
    PageOut(x).(ledger := ALL_CLAIMS, procs := PageOut(x).procs + [CleanBody(ParsedPage(x), CleanCommits)])
  }

  function Cleaned(x: Site): View
    requires !Strikes(x.luck)
  {
    CleanerStarted(x).(rows := RowsAs(x, Parsed, None, Some(AtStage(Crawler))), jobs := JobsOf(x, Completed, 1),
                        procs := PageOut(x).procs + [Idle])
  }

  function MarkedLate(x: Site): View
    requires x.luck == Fine
  {
    Cleaned(x).(rows := RowsAs(x, Fetched, None, Some(Stored(x.storageKey, x.checksum))),
                 procs := [Idle, CrawlLinks(Discovery(x), [], Fine), Idle, Idle])
  }

  function AllDone(x: Site): View
    requires x.luck == Fine
  {
    MarkedLate(x).(procs := [Idle, Idle, Idle, Idle])
  }

  lemma ParserStep(cfg: Config, x: Site)
    requires !Strikes(x.luck)
    ensures Leads(cfg, Published(x), Delivery(1, InputOf(x)), ParserStarted(x))
  {
  }

  lemma PageOutStep(cfg: Config, x: Site)
    requires !Strikes(x.luck)
    ensures Leads(cfg, ParserStarted(x), Progress(2), PageOut(x))
  {
  }

  lemma CleanerStep(cfg: Config, x: Site)
    requires !Strikes(x.luck)
    ensures Leads(cfg, PageOut(x), Delivery(2, InputOf(x)), CleanerStarted(x))
  {
  }

  lemma OneRowDone(x: Site, s: Store)
    requires s.jobs == JobsOf(x, Running, 1) && s.rows.Keys == {RowOf(x)} && Terminal(s.rows[RowOf(x)].status)
    ensures RefreshJob(s, 0) == s.(jobs := JobsOf(x, Completed, 1))
  {
    assert RowOf(x) in RowsOf(s.rows, 0);
  }

  /** The commit of the page settles the only row, and completes the job. */
  lemma CommitCompletes(x: Site, s: Store, st: Status, error: Option<Error>)
    requires s.jobs == JobsOf(x, Running, 1) && s.rows == RowsAs(x, st, error, Some(AtStage(Crawler)))
    ensures StepClean(s, ParsedPage(x), CleanCommits) ==
            Next(s.(rows := RowsAs(x, Parsed, error, Some(AtStage(Crawler))), jobs := JobsOf(x, Completed, 1)), Idle)
  {
    var marked := Mark(s, RowOf(x), Parsed, None, None);
    assert marked.rows == RowsAs(x, Parsed, error, Some(AtStage(Crawler)));
    OneRowDone(x, marked);
  }

  lemma CleanedStep(cfg: Config, x: Site)
    requires !Strikes(x.luck)
    ensures Leads(cfg, CleanerStarted(x), Progress(3), Cleaned(x))
  {
    var v := CleanerStarted(x);
    forall s | Shows(s, v)
      ensures Shows(Advance(cfg, s, v.procs[3]).store, Cleaned(x)) && Advance(cfg, s, v.procs[3]).proc == Idle
    {
      CommitCompletes(x, s, Claimed, None);
    }
    ProgressLeads(cfg, v, 3, Idle, Cleaned(x));
  }

  lemma LateMarkStep(cfg: Config, x: Site)
    requires x.luck == Fine
    ensures Leads(cfg, Cleaned(x), Progress(1), MarkedLate(x))
  {
  }

  lemma DoneStep(cfg: Config, x: Site)
    requires x.luck == Fine
    ensures Leads(cfg, MarkedLate(x), Progress(1), AllDone(x))
  {
  }

  lemma AllDoneReached(cfg: Config, x: Site)
    requires x.luck == Fine
    ensures Reached(cfg, AllDone(x))
  {
    PublishedReached(cfg, x);
    ParserStep(cfg, x);
    Follow(cfg, Published(x), Delivery(1, InputOf(x)), ParserStarted(x));
    PageOutStep(cfg, x);
    Follow(cfg, ParserStarted(x), Progress(2), PageOut(x));
    CleanerStep(cfg, x);
    Follow(cfg, PageOut(x), Delivery(2, InputOf(x)), CleanerStarted(x));
    CleanedStep(cfg, x);
    Follow(cfg, CleanerStarted(x), Progress(3), Cleaned(x));
    LateMarkStep(cfg, x);
    Follow(cfg, Cleaned(x), Progress(1), MarkedLate(x));
    DoneStep(cfg, x);
    Follow(cfg, MarkedLate(x), Progress(1), AllDone(x));
  }

  lemma NothingLive(x: Site, m: Machine)
    requires x.luck == Fine && ViewOf(m) == AllDone(x)
    ensures !Live(m.store, m.taken, RowOf(x)) && !DeadPage(m.store, RowOf(x))
    ensures RowOf(x) in m.store.rows && m.store.rows[RowOf(x)].status == Fetched
    ensures 0 in m.store.jobs && m.store.jobs[0].status == Completed
    ensures forall j :: 0 <= j < |m.procs| ==> m.procs[j] == Idle
  {
    assert m.procs == [Idle, Idle, Idle, Idle];
    assert m.store.log == [OnDiscovered(Discovery(x), Seeded), OnFetched(Page(x)), OnParsed(ParsedPage(x))];
    assert m.store.ledger == ALL_CLAIMS;
  }

  /** For any one-page site: parser and cleaner finish between the crawler's publication and its mark, and a run that
      nothing disturbs ends with every handler done, the job completed and the row `fetched`, with no live message and
      no dead letter. */
  lemma LateMarkLosesRow(cfg: Config, x: Site)
    requires x.luck == Fine
    ensures exists actions :: CrashFree(actions) && var m := Run(cfg, INITIAL, actions);
              && (forall j :: 0 <= j < |m.procs| ==> m.procs[j] == Idle)
              && 0 in m.store.jobs && m.store.jobs[0].status == Completed
              && RowOf(x) in m.store.rows && m.store.rows[RowOf(x)].status == Fetched
              && !Live(m.store, m.taken, RowOf(x)) && !DeadPage(m.store, RowOf(x))
  {
    AllDoneReached(cfg, x);
    var actions :| CrashFree(actions) && ViewOf(Run(cfg, INITIAL, actions)) == AllDone(x);
    NothingLive(x, Run(cfg, INITIAL, actions));
  }

  // ---------------------------------------------------------------- a completed job with a claimed row

  /** The handler raises after its page is published. */
  predicate BreaksLater(x: Site) {
    x.luck.RaisesAfter? && x.luck.steps == 1
  }

  function Failure(x: Site): UrlFailed
    requires BreaksLater(x)
  {
    CrawlFailure(Discovery(x), x.luck.error, 2)
  }

  function Retried(x: Site): UrlDiscovered
    requires BreaksLater(x)
  {
    RetriedEvent(Failure(x), 3)
  }

  function Raised(x: Site): View
    requires BreaksLater(x)
  {
    Published(x).(procs := [Idle, CrawlFail(Discovery(x), x.luck.error)])
  }

  function MarkedFailed(x: Site): View
    requires BreaksLater(x)
  {
    Raised(x).(rows := RowsAs(x, Failed, Some(x.luck.error), Some(AtStage(Crawler))),
              procs := [Idle, CrawlReport(Discovery(x), x.luck.error)])
  }

  function Reported(x: Site): View
    requires BreaksLater(x)
  {
    MarkedFailed(x).(log := Published(x).log + [OnFailed(Failure(x))], nextId := 3, procs := [Idle, Idle])
  }

  function ParserCalled(x: Site): View
    requires BreaksLater(x)
  {
    Reported(x).(ledger := {Claim(1, Crawler), Claim(1, Parser)},
                 procs := [Idle, Idle, ParseBody(Page(x), ParseReturns(x.content))])
  }

  function PageParsedLate(x: Site): View
    requires BreaksLater(x)
  {
    ParserCalled(x).(log := Reported(x).log + [OnParsed(ParsedPage(x))], procs := [Idle, Idle, Idle])
  }

  function CleanerCalled(x: Site): View
    requires BreaksLater(x)
  {
    PageParsedLate(x).(ledger := ALL_CLAIMS, procs := [Idle, Idle, Idle, CleanBody(ParsedPage(x), CleanCommits)])
  }

  function JobDone(x: Site): View
    requires BreaksLater(x)
  {
    CleanerCalled(x).(rows := RowsAs(x, Parsed, Some(x.luck.error), Some(AtStage(Crawler))),
                     jobs := JobsOf(x, Completed, 1), procs := [Idle, Idle, Idle, Idle])
  }

  function RetryCalled(x: Site): View
    requires BreaksLater(x)
  {
    JobDone(x).(taken := {2}, procs := JobDone(x).procs + [RetryBody(Failure(x))])
  }

  function RetryOut(x: Site): View
    requires BreaksLater(x)
  {
    RetryCalled(x).(log := JobDone(x).log + [OnDiscovered(Retried(x), Via.Retried)], nextId := 4,
                   procs := JobDone(x).procs + [Idle])
  }

  function Reopened(x: Site): View
    requires BreaksLater(x)
  {
    RetryOut(x).(ledger := ALL_CLAIMS + {Claim(3, Crawler)},
               rows := RowsAs(x, Claimed, Some(x.luck.error), Some(AtStage(Crawler))),
               procs := RetryOut(x).procs + [CrawlGate(Retried(x), CrawlOf(x))])
  }

  lemma RaiseStep(cfg: Config, x: Site)
    requires BreaksLater(x)
    ensures Leads(cfg, Published(x), Progress(1), Raised(x))
  {
  }

  lemma FailStep(cfg: Config, x: Site)
    requires BreaksLater(x)
    ensures Leads(cfg, Raised(x), Progress(1), MarkedFailed(x))
  {
  }

  lemma ReportStep(cfg: Config, x: Site)
    requires BreaksLater(x) && cfg.maxAttempts >= 2
    ensures Leads(cfg, MarkedFailed(x), Progress(1), Reported(x))
  {
  }

  lemma ParserCallStep(cfg: Config, x: Site)
    requires BreaksLater(x)
    ensures Leads(cfg, Reported(x), Delivery(1, InputOf(x)), ParserCalled(x))
  {
  }

  lemma ParsedLateStep(cfg: Config, x: Site)
    requires BreaksLater(x)
    ensures Leads(cfg, ParserCalled(x), Progress(2), PageParsedLate(x))
  {
  }

  lemma CleanerCallStep(cfg: Config, x: Site)
    requires BreaksLater(x)
    ensures Leads(cfg, PageParsedLate(x), Delivery(3, InputOf(x)), CleanerCalled(x))
  {
  }

  lemma JobDoneStep(cfg: Config, x: Site)
    requires BreaksLater(x)
    ensures Leads(cfg, CleanerCalled(x), Progress(3), JobDone(x))
  {
    var v := CleanerCalled(x);
    forall s | Shows(s, v)
      ensures Shows(Advance(cfg, s, v.procs[3]).store, JobDone(x)) && Advance(cfg, s, v.procs[3]).proc == Idle
    {
      CommitCompletes(x, s, Failed, Some(x.luck.error));
    }
    ProgressLeads(cfg, v, 3, Idle, JobDone(x));
  }

  lemma RetryCallStep(cfg: Config, x: Site)
    requires BreaksLater(x)
    ensures Leads(cfg, JobDone(x), Delivery(2, InputOf(x)), RetryCalled(x))
  {
    assert JobDone(x).log[2] == OnFailed(Failure(x));
    assert JobDone(x).taken + {2} == {2};
  }

  lemma RetryOutStep(cfg: Config, x: Site)
    requires BreaksLater(x) && cfg.maxAttempts >= 2
    ensures Leads(cfg, RetryCalled(x), Progress(4), RetryOut(x))
  {
  }

  lemma ReopenStep(cfg: Config, x: Site)
    requires BreaksLater(x)
    ensures Leads(cfg, RetryOut(x), Delivery(4, InputOf(x)), Reopened(x))
  {
    var v, p := RetryOut(x), CrawlGate(Retried(x), CrawlOf(x));
    forall s | Shows(s, v)
      ensures Shows(Deliver(s, v.log[4], InputOf(x)).store, Reopened(x)) && Deliver(s, v.log[4], InputOf(x)).proc == p
    {
      assert v.log[4] == OnDiscovered(Retried(x), Via.Retried);
    }
    ClaimLeads(cfg, v, 4, InputOf(x), p, Reopened(x));
  }

  /** Some run reaches v and, continued, v'. */
  ghost predicate Continues(cfg: Config, v: View, v': View) {
    exists done, more :: CrashFree(done + more) &&
      ViewOf(Run(cfg, INITIAL, done)) == v && ViewOf(Run(cfg, INITIAL, done + more)) == v'
  }

  lemma ContinueFrom(cfg: Config, v: View)
    requires Reached(cfg, v)
    ensures Continues(cfg, v, v)
  {
    var done :| CrashFree(done) && ViewOf(Run(cfg, INITIAL, done)) == v;
    assert done + [] == done;
  }

  lemma FollowFrom(cfg: Config, done: seq<Action>, more: seq<Action>, v: View, v1: View, a: Action, v2: View)
    requires CrashFree(done + more) && !a.Crash? && Leads(cfg, v1, a, v2)
    requires ViewOf(Run(cfg, INITIAL, done)) == v && ViewOf(Run(cfg, INITIAL, done + more)) == v1
    ensures Continues(cfg, v, v2)
  {
    OneMoreStep(cfg, done + more, v1, a, v2);
    CrashFreeOn(done + more, a);
    assert done + more + [a] == done + (more + [a]);
  }

  lemma FollowOn(cfg: Config, v: View, v1: View, a: Action, v2: View)
    requires Continues(cfg, v, v1) && Leads(cfg, v1, a, v2) && !a.Crash?
    ensures Continues(cfg, v, v2)
  {
    var done, more :| CrashFree(done + more) &&
                      ViewOf(Run(cfg, INITIAL, done)) == v && ViewOf(Run(cfg, INITIAL, done + more)) == v1;
    FollowFrom(cfg, done, more, v, v1, a, v2);
  }

  lemma JobDoneReached(cfg: Config, x: Site)
    requires BreaksLater(x) && cfg.maxAttempts >= 2
    ensures Reached(cfg, JobDone(x))
  {
    PublishedReached(cfg, x);
    RaiseStep(cfg, x);
    Follow(cfg, Published(x), Progress(1), Raised(x));
    FailStep(cfg, x);
    Follow(cfg, Raised(x), Progress(1), MarkedFailed(x));
    ReportStep(cfg, x);
    Follow(cfg, MarkedFailed(x), Progress(1), Reported(x));
    ParserCallStep(cfg, x);
    Follow(cfg, Reported(x), Delivery(1, InputOf(x)), ParserCalled(x));
    ParsedLateStep(cfg, x);
    Follow(cfg, ParserCalled(x), Progress(2), PageParsedLate(x));
    CleanerCallStep(cfg, x);
    Follow(cfg, PageParsedLate(x), Delivery(3, InputOf(x)), CleanerCalled(x));
    JobDoneStep(cfg, x);
    Follow(cfg, CleanerCalled(x), Progress(3), JobDone(x));
  }

  lemma ReopenedLater(cfg: Config, x: Site)
    requires BreaksLater(x) && cfg.maxAttempts >= 2
    ensures Continues(cfg, JobDone(x), Reopened(x))
  {
    JobDoneReached(cfg, x);
    ContinueFrom(cfg, JobDone(x));
    RetryCallStep(cfg, x);
    FollowOn(cfg, JobDone(x), JobDone(x), Delivery(2, InputOf(x)), RetryCalled(x));
    RetryOutStep(cfg, x);
    FollowOn(cfg, JobDone(x), RetryCalled(x), Progress(4), RetryOut(x));
    ReopenStep(cfg, x);
    FollowOn(cfg, JobDone(x), RetryOut(x), Delivery(4, InputOf(x)), Reopened(x));
  }

  lemma DoneThenClaimed(x: Site, m: Machine, m': Machine)
    requires BreaksLater(x) && ViewOf(m) == JobDone(x) && ViewOf(m') == Reopened(x)
    ensures 0 in m.store.jobs && m.store.jobs[0].status == Completed
    ensures RowOf(x) in m.store.rows && AllTerminal(m.store.rows, 0)
    ensures 0 in m'.store.jobs && m'.store.jobs[0].status == Completed
    ensures RowOf(x) in m'.store.rows && m'.store.rows[RowOf(x)].status == Claimed
  {
    assert m.store.jobs == JobsOf(x, Completed, 1) == m'.store.jobs;
    assert m.store.rows == RowsAs(x, Parsed, Some(x.luck.error), Some(AtStage(Crawler)));
    assert m'.store.rows == RowsAs(x, Claimed, Some(x.luck.error), Some(AtStage(Crawler)));
  }

  /** For any one-page site whose crawl raises after the page is published: a run completes the job with all its rows
      terminal, and, continued, claims the row again for the retry while the job stays completed. */
  lemma CompletedJobReopens(cfg: Config, x: Site)
    requires BreaksLater(x) && cfg.maxAttempts >= 2
    ensures exists done, more :: CrashFree(done + more) &&
              var s, s' := Run(cfg, INITIAL, done).store, Run(cfg, INITIAL, done + more).store;
              && 0 in s.jobs && s.jobs[0].status == Completed && RowOf(x) in s.rows && AllTerminal(s.rows, 0)
              && 0 in s'.jobs && s'.jobs[0].status == Completed
              && RowOf(x) in s'.rows && s'.rows[RowOf(x)].status == Claimed
  {
    ReopenedLater(cfg, x);
    var done, more :| CrashFree(done + more) && ViewOf(Run(cfg, INITIAL, done)) == JobDone(x) &&
                      ViewOf(Run(cfg, INITIAL, done + more)) == Reopened(x);
    DoneThenClaimed(x, Run(cfg, INITIAL, done), Run(cfg, INITIAL, done + more));
  }

  // ---------------------------------------------------------------- two seeds, the first linking to the second

  /** Seeds a and b; the page at a holds one link, to b. */
  datatype Pair = Pair(a: Seed, b: Seed, link: Link, domains: seq<string>, storageKey: string, checksum: string)

  predicate Linked(y: Pair) {
    && y.a.normalized != y.b.normalized && y.link.normalized == y.b.normalized
    && DomainAllowed(HostOf(y.link.url), y.domains)
  }

  function PairRequest(y: Pair): SubmitRequest {
    SubmitRequest([y.a, y.b], y.domains, 1, [], false)
  }

  function PairCrawl(y: Pair): CrawlInput {
    CrawlInput(true, FetchReturns(200, y.checksum, None, y.storageKey, [y.link], Fine))
  }

  function PairInput(y: Pair): Input {
    Input(PairCrawl(y), ParseRaises(HttpStatus(500)), CleanCommits)
  }

  function PairOrder(y: Pair): Order {
    Order(0, 1, y.domains, false)
  }

  function FirstSeed(y: Pair): UrlDiscovered {
    UrlDiscovered(1, 0, y.a.url, y.a.normalized, 1, 0, 1, y.domains, false)
  }

  function PairJobs(y: Pair, queued: nat): map<JobId, Job> {
    map[0 := Job(1, y.domains, false, Running, queued)]
  }

  function PairRows(y: Pair, status: Status, checkpoint: Option<Checkpoint>): map<RowKey, Row> {
    map[RowKey(0, y.a.normalized) := Row(0, status, None, checkpoint)]
  }

  function PairSubmitted(y: Pair): View {
    EMPTY_VIEW.(jobs := PairJobs(y, 0), nextId := 1, procs := [SubmitLoop(PairOrder(y), [y.a, y.b], 0)])
  }

  function PairSeen(y: Pair): View {
    PairSubmitted(y).(seen := {RowKey(0, y.a.normalized)}, procs := [SubmitQueue(PairOrder(y), y.a, [y.b], 0)])
  }

  function PairInserted(y: Pair): View {
    PairSeen(y).(rows := PairRows(y, Queued, None), procs := [SubmitEmit(PairOrder(y), y.a, [y.b], 0)])
  }

  function FirstOut(y: Pair): View {
    PairInserted(y).(log := [OnDiscovered(FirstSeed(y), Seeded)], nextId := 2,
                      procs := [SubmitLoop(PairOrder(y), [y.b], 1)])
  }

  function FirstGated(y: Pair): View {
    FirstOut(y).(rows := PairRows(y, Claimed, Some(AtStage(Crawler))), ledger := {Claim(1, Crawler)},
                  procs := [SubmitLoop(PairOrder(y), [y.b], 1),
                            CrawlGate(FirstSeed(y), PairCrawl(y))])
  }

  function FirstHeld(y: Pair): View {
    FirstGated(y).(held := {y.a.normalized},
                   procs := [SubmitLoop(PairOrder(y), [y.b], 1),
                             CrawlFetch(FirstSeed(y), PairCrawl(y))])
  }

  function FirstDownloaded(y: Pair): View {
    FirstHeld(y).(procs := [SubmitLoop(PairOrder(y), [y.b], 1),
                            CrawlPublish(FirstSeed(y), y.storageKey, y.checksum, [y.link], Fine)])
  }

  /** What the log holds from then on. */
  function FirstLog(y: Pair): seq<Message> {
    [OnDiscovered(FirstSeed(y), Seeded), OnFetched(FetchedEvent(FirstSeed(y), y.storageKey, y.checksum))]
  }

  function FirstPublished(y: Pair): View {
    View(PairJobs(y, 0), PairRows(y, Claimed, Some(AtStage(Crawler))), {Claim(1, Crawler)},
         {RowKey(0, y.a.normalized)}, {y.a.normalized}, FirstLog(y), 2, {},
         [SubmitLoop(PairOrder(y), [y.b], 1), CrawlMark(FirstSeed(y), y.storageKey, y.checksum, [y.link], Fine)])
  }

  function FirstMarked(y: Pair): View {
    FirstPublished(y).(rows := PairRows(y, Fetched, Some(Stored(y.storageKey, y.checksum))),
                       procs := [SubmitLoop(PairOrder(y), [y.b], 1),
                                 CrawlLinks(FirstSeed(y), [y.link], Fine)])
  }

  function LinkSeen(y: Pair): View {
    View(PairJobs(y, 0), PairRows(y, Fetched, Some(Stored(y.storageKey, y.checksum))), {Claim(1, Crawler)},
         {RowKey(0, y.a.normalized), RowKey(0, y.b.normalized)}, {y.a.normalized}, FirstLog(y), 2, {},
         [SubmitLoop(PairOrder(y), [y.b], 1), CrawlQueue(FirstSeed(y), y.link, [], Fine)])
  }

  function SecondSkipped(y: Pair): View {
    LinkSeen(y).(procs := [SubmitLoop(PairOrder(y), [], 1), CrawlQueue(FirstSeed(y), y.link, [], Fine)])
  }

  function PairRecorded(y: Pair): View {
    SecondSkipped(y).(jobs := PairJobs(y, 1), procs := [Idle, CrawlQueue(FirstSeed(y), y.link, [], Fine)])
  }

  lemma PairSubmitStep(cfg: Config, y: Pair)
    ensures Leads(cfg, EMPTY_VIEW, Submission(PairRequest(y)), PairSubmitted(y))
  {
  }

  lemma PairSeeStep(cfg: Config, y: Pair)
    ensures Leads(cfg, PairSubmitted(y), Progress(0), PairSeen(y))
  {
    assert [y.a, y.b][1..] == [y.b];
  }

  lemma PairInsertStep(cfg: Config, y: Pair)
    ensures Leads(cfg, PairSeen(y), Progress(0), PairInserted(y))
  {
  }

  lemma FirstOutStep(cfg: Config, y: Pair)
    ensures Leads(cfg, PairInserted(y), Progress(0), FirstOut(y))
  {
  }

  lemma FirstGateStep(cfg: Config, y: Pair)
    ensures Leads(cfg, FirstOut(y), Delivery(0, PairInput(y)), FirstGated(y))
  {
  }

  lemma FirstHoldStep(cfg: Config, y: Pair)
    ensures Leads(cfg, FirstGated(y), Progress(1), FirstHeld(y))
  {
  }

  lemma FirstDownloadStep(cfg: Config, y: Pair)
    ensures Leads(cfg, FirstHeld(y), Progress(1), FirstDownloaded(y))
  {
  }

  lemma FirstPublishStep(cfg: Config, y: Pair)
    ensures Leads(cfg, FirstDownloaded(y), Progress(1), FirstPublished(y))
  {
  }

  lemma OneLink(y: Pair)
    requires Linked(y)
    ensures LinksToFollow(FirstSeed(y), [y.link]) == [y.link]
  {
    assert [y.link][..0] == [] && FilterLinks([y.link], y.domains) == [] + [y.link];
  }

  lemma MarkFollows(y: Pair, s: Store)
    requires Linked(y) && s.rows == PairRows(y, Claimed, Some(AtStage(Crawler)))
    ensures StepMark(s, FirstSeed(y), y.storageKey, y.checksum, [y.link], Fine) ==
            Next(s.(rows := PairRows(y, Fetched, Some(Stored(y.storageKey, y.checksum)))),
                 CrawlLinks(FirstSeed(y), [y.link], Fine))
  {
    OneLink(y);
  }

  lemma FirstMarkStep(cfg: Config, y: Pair)
    requires Linked(y)
    ensures Leads(cfg, FirstPublished(y), Progress(1), FirstMarked(y))
  {
    var v, p' := FirstPublished(y), CrawlLinks(FirstSeed(y), [y.link], Fine);
    forall s | Shows(s, v)
      ensures Shows(Advance(cfg, s, v.procs[1]).store, FirstMarked(y)) && Advance(cfg, s, v.procs[1]).proc == p'
    {
      MarkFollows(y, s);
    }
    ProgressLeads(cfg, v, 1, p', FirstMarked(y));
  }

  lemma LinkIsNew(y: Pair, s: Store)
    requires Linked(y) && s.seen == {RowKey(0, y.a.normalized)}
    ensures StepLinks(s, FirstSeed(y), [y.link], Fine) ==
            Next(AddSeen(s, RowKey(0, y.b.normalized)), CrawlQueue(FirstSeed(y), y.link, [], Fine))
  {
    assert [y.link][1..] == [];
  }

  lemma LinkSeenStep(cfg: Config, y: Pair)
    requires Linked(y)
    ensures Leads(cfg, FirstMarked(y), Progress(1), LinkSeen(y))
  {
    var v, p' := FirstMarked(y), CrawlQueue(FirstSeed(y), y.link, [], Fine);
    forall s | Shows(s, v)
      ensures Shows(Advance(cfg, s, v.procs[1]).store, LinkSeen(y)) && Advance(cfg, s, v.procs[1]).proc == p'
    {
      LinkIsNew(y, s);
    }
    ProgressLeads(cfg, v, 1, p', LinkSeen(y));
  }

  lemma SecondSkipStep(cfg: Config, y: Pair)
    requires Linked(y)
    ensures Leads(cfg, LinkSeen(y), Progress(0), SecondSkipped(y))
  {
    var v, p' := LinkSeen(y), SubmitLoop(PairOrder(y), [], 1);
    forall s | Shows(s, v)
      ensures Shows(Advance(cfg, s, v.procs[0]).store, SecondSkipped(y)) && Advance(cfg, s, v.procs[0]).proc == p'
    {
      SecondIsSeen(y, s);
    }
    ProgressLeads(cfg, v, 0, p', SecondSkipped(y));
  }

  lemma SecondIsSeen(y: Pair, s: Store)
    requires RowKey(0, y.b.normalized) in s.seen
    ensures StepSeeds(s, PairOrder(y), [y.b], 1) == Next(s, SubmitLoop(PairOrder(y), [], 1))
  {
    assert [y.b][1..] == [];
  }

  lemma PairRecordStep(cfg: Config, y: Pair)
    ensures Leads(cfg, SecondSkipped(y), Progress(0), PairRecorded(y))
  {
  }

  lemma PairRecordedReached(cfg: Config, y: Pair)
    requires Linked(y)
    ensures Reached(cfg, PairRecorded(y))
  {
    StartReached(cfg);
    PairSubmitStep(cfg, y);
    Follow(cfg, EMPTY_VIEW, Submission(PairRequest(y)), PairSubmitted(y));
    PairSeeStep(cfg, y);
    Follow(cfg, PairSubmitted(y), Progress(0), PairSeen(y));
    PairInsertStep(cfg, y);
    Follow(cfg, PairSeen(y), Progress(0), PairInserted(y));
    FirstOutStep(cfg, y);
    Follow(cfg, PairInserted(y), Progress(0), FirstOut(y));
    FirstGateStep(cfg, y);
    Follow(cfg, FirstOut(y), Delivery(0, PairInput(y)), FirstGated(y));
    FirstHoldStep(cfg, y);
    Follow(cfg, FirstGated(y), Progress(1), FirstHeld(y));
    FirstDownloadStep(cfg, y);
    Follow(cfg, FirstHeld(y), Progress(1), FirstDownloaded(y));
    FirstPublishStep(cfg, y);
    Follow(cfg, FirstDownloaded(y), Progress(1), FirstPublished(y));
    FirstMarkStep(cfg, y);
    Follow(cfg, FirstPublished(y), Progress(1), FirstMarked(y));
    LinkSeenStep(cfg, y);
    Follow(cfg, FirstMarked(y), Progress(1), LinkSeen(y));
    SecondSkipStep(cfg, y);
    Follow(cfg, LinkSeen(y), Progress(0), SecondSkipped(y));
    PairRecordStep(cfg, y);
    Follow(cfg, SecondSkipped(y), Progress(0), PairRecorded(y));
  }

  lemma TwoUrls(y: Pair)
    requires Linked(y)
    ensures Scheduler.DistinctUrls([y.a, y.b]) == {y.a.normalized, y.b.normalized}
  {
  }

  lemma OneQueued(y: Pair, m: Machine)
    requires ViewOf(m) == PairRecorded(y)
    ensures |m.procs| > 0 && m.procs[0] == Idle && 0 in m.store.jobs && m.store.jobs[0].urlsQueued == 1
  {
    assert m.store.jobs == PairJobs(y, 1) && m.procs == PairRecorded(y).procs;
  }

  /** For any two different seeds, the page at the first linking to the second: a run records `urls_queued` 1 for two
      distinct seeds, because the crawler marks the second as seen before the loop reaches it. */
  lemma StolenSeedIsNotCounted(cfg: Config, y: Pair)
    requires Linked(y)
    ensures Scheduler.DistinctUrls([y.a, y.b]) == {y.a.normalized, y.b.normalized}
    ensures |Scheduler.DistinctUrls([y.a, y.b])| == 2
    ensures exists actions :: CrashFree(actions) && var m := Run(cfg, INITIAL, actions);
              && |m.procs| > 0 && m.procs[0] == Idle && 0 in m.store.jobs && m.store.jobs[0].urlsQueued == 1
  {
    TwoUrls(y);
    PairRecordedReached(cfg, y);
    var actions :| CrashFree(actions) && ViewOf(Run(cfg, INITIAL, actions)) == PairRecorded(y);
    OneQueued(y, Run(cfg, INITIAL, actions));
  }
}
