/** Job submissions among everything else that runs: what `urls_queued` counts, and when it is the number of
    distinct seeds. */
module Submissions {
  import opened Wrappers
  import opened Events
  import opened Store
  import opened Handlers
  import opened Machine
  import opened Lineage
  import opened LineageSteps
  import opened Scheduler

  // ---------------------------------------------------------------- a submission in progress

  /** The order of the submission that the handler carries out. */
  function OrderOf(p: Proc): Option<Order> {
    match p
    case SubmitLoop(o, _, _) => Some(o)
    case SubmitQueue(o, _, _, _) => Some(o)
    case SubmitEmit(o, _, _, _) => Some(o)
    case _ => None
  }

  predicate Submitting(p: Proc) {
    OrderOf(p).Some?
  }

  function QueuedSoFar(p: Proc): nat
    requires Submitting(p)
  {
    p.queued
  }

  function SeedsAhead(p: Proc): seq<Seed>
    requires Submitting(p)
  {
    p.seeds
  }

  /** One seed is in hand between its seen mark and its publication. */
  function InHand(p: Proc): nat {
    if p.SubmitQueue? || p.SubmitEmit? then 1 else 0
  }

  // ---------------------------------------------------------------- the count is the messages published

  predicate IsSeedOf(m: Message, job: JobId) {
    m.OnDiscovered? && m.via == Seeded && m.discovered.jobId == job
  }

  function SeededCount(log: seq<Message>, job: JobId): nat {
    if log == [] then 0
    else SeededCount(log[..|log| - 1], job) + if IsSeedOf(log[|log| - 1], job) then 1 else 0
  }

  ghost predicate ProcCounts(s: Store, p: Proc) {
    Submitting(p) ==>
      var job := OrderOf(p).value.job;
      && QueuedSoFar(p) == SeededCount(s.log, job)
      && job in s.jobs && s.jobs[job].urlsQueued == 0
  }

  ghost predicate JobCounts(s: Store, job: JobId)
    requires job in s.jobs
  {
    s.jobs[job].urlsQueued == 0 || s.jobs[job].urlsQueued == SeededCount(s.log, job)
  }

  predicate OtherJob(p: Proc, q: Proc) {
    Submitting(p) && Submitting(q) ==> OrderOf(p).value.job != OrderOf(q).value.job
  }

  ghost predicate Counted(m: Machine) {
    && (forall job :: job in m.store.jobs ==> JobCounts(m.store, job))
    && (forall i :: 0 <= i < |m.procs| ==> ProcCounts(m.store, m.procs[i]))
    && (forall i, j :: 0 <= i < j < |m.procs| ==> OtherJob(m.procs[i], m.procs[j]))
  }

  /** What a micro step does to the counts: a seed is published, and counted, only by its own submission, which
      alone records the count, when it ends. */
  ghost predicate CountStep(s: Store, p: Proc, n: Next) {
    && (Submitting(n.proc) ==> OrderOf(n.proc) == OrderOf(p))
    && (Submitting(n.proc) ==>
          var job := OrderOf(p).value.job;
          QueuedSoFar(n.proc) == QueuedSoFar(p) +
            if |n.store.log| > |s.log| && IsSeedOf(n.store.log[|s.log|], job) then 1 else 0)
    && (|n.store.log| > |s.log| ==>
          forall job :: IsSeedOf(n.store.log[|s.log|], job) ==> Submitting(n.proc) && OrderOf(p).value.job == job)
    && n.store.jobs.Keys == s.jobs.Keys
    && (forall job :: job in s.jobs ==>
          || n.store.jobs[job].urlsQueued == s.jobs[job].urlsQueued
          || (Submitting(p) && !Submitting(n.proc) && OrderOf(p).value.job == job &&
                n.store.jobs[job].urlsQueued == QueuedSoFar(p) && n.store.log == s.log))
  }

  lemma SubmitterCounts(cfg: Config, s: Store, p: Proc)
    requires Submitting(p)
    ensures CountStep(s, p, Advance(cfg, s, p))
  {
  }

  lemma CrawlerKeepsJobs(cfg: Config, s: Store, p: Proc)
    requires DutyOf(p).Crawls?
    ensures Advance(cfg, s, p).store.jobs == s.jobs && !Submitting(Advance(cfg, s, p).proc)
  {
  }

  lemma CrawlerSeedsNothing(cfg: Config, s: Store, p: Proc)
    requires DutyOf(p).Crawls?
    ensures var s' := Advance(cfg, s, p).store;
            |s'.log| > |s.log| && s'.log[|s.log|].OnDiscovered? ==> s'.log[|s.log|].via == Linked
  {
  }

  lemma CrawlerCounts(cfg: Config, s: Store, p: Proc)
    requires DutyOf(p).Crawls?
    ensures CountStep(s, p, Advance(cfg, s, p))
  {
    CrawlerKeepsJobs(cfg, s, p);
    CrawlerSeedsNothing(cfg, s, p);
  }

  lemma RepairCounts(cfg: Config, s: Store, p: Proc)
    requires p.RetryBody? || p.ReplayCounting? || p.ReplayPublishing?
    ensures CountStep(s, p, Advance(cfg, s, p))
  {
    if p.ReplayPublishing? {
      ReplayShapes(p.letter, s.nextId);
    }
  }

  lemma StageKeepsJobs(cfg: Config, s: Store, p: Proc)
    requires DutyOf(p).Parses? || DutyOf(p).Cleans? || p == Idle
    ensures var n := Advance(cfg, s, p);
            && !Submitting(n.proc) && n.store.jobs.Keys == s.jobs.Keys
            && forall job :: job in s.jobs ==> n.store.jobs[job].urlsQueued == s.jobs[job].urlsQueued
  {
    if p.CleanBody? {
      assert Advance(cfg, s, p) == StepClean(s, p.parsed, p.clean);
    } else {
      assert Advance(cfg, s, p).store.jobs == s.jobs;
    }
  }

  lemma StageSeedsNothing(cfg: Config, s: Store, p: Proc)
    requires DutyOf(p).Parses? || DutyOf(p).Cleans? || p == Idle
    ensures var s' := Advance(cfg, s, p).store;
            |s'.log| > |s.log| ==> !s'.log[|s.log|].OnDiscovered?
  {
  }

  lemma StageCounts(cfg: Config, s: Store, p: Proc)
    requires DutyOf(p).Parses? || DutyOf(p).Cleans? || p == Idle
    ensures CountStep(s, p, Advance(cfg, s, p))
  {
    StageKeepsJobs(cfg, s, p);
    StageSeedsNothing(cfg, s, p);
  }

  lemma AdvanceCounts(cfg: Config, s: Store, p: Proc)
    ensures CountStep(s, p, Advance(cfg, s, p))
  {
    match DutyOf(p)
    case Crawls(_) => CrawlerCounts(cfg, s, p);
    case Submits(_) => SubmitterCounts(cfg, s, p);
    case Retries(_) => RepairCounts(cfg, s, p);
    case Replays(_) => RepairCounts(cfg, s, p);
    case _ => StageCounts(cfg, s, p);
  }

  lemma SeededStep(log: seq<Message>, x: Message, job: JobId)
    ensures SeededCount(log + [x], job) == SeededCount(log, job) + if IsSeedOf(x, job) then 1 else 0
  {
    assert (log + [x])[..|log|] == log;
  }

  lemma CountAfter(s: Store, n: Next, job: JobId)
    requires n.store.log == s.log || (|n.store.log| == |s.log| + 1 && n.store.log == s.log + [n.store.log[|s.log|]])
    ensures SeededCount(n.store.log, job) == SeededCount(s.log, job) +
            if |n.store.log| > |s.log| && IsSeedOf(n.store.log[|s.log|], job) then 1 else 0
  {
    if n.store.log != s.log {
      SeededStep(s.log, n.store.log[|s.log|], job);
    }
  }

  lemma ProgressCounted(cfg: Config, m: Machine, j: nat)
    requires Counted(m) && j < |m.procs|
    ensures Counted(Apply(cfg, m, Progress(j)))
  {
    var s, p := m.store, m.procs[j];
    var n := Advance(cfg, s, p);
    AdvanceCounts(cfg, s, p);
    AdvanceAppends(cfg, s, p);
    assert ProcCounts(s, p);
    forall job | job in n.store.jobs
      ensures JobCounts(n.store, job)
    {
      CountAfter(s, n, job);
      assert JobCounts(s, job);
    }
    forall i | 0 <= i < |m.procs|
      ensures ProcCounts(n.store, if i == j then n.proc else m.procs[i])
      ensures i != j ==> OtherJob(m.procs[i], n.proc) && OtherJob(n.proc, m.procs[i])
    {
      assert ProcCounts(s, m.procs[i]);
      if i != j {
        assert OtherJob(m.procs[i], p) && OtherJob(p, m.procs[i]) by {
          if i < j { assert OtherJob(m.procs[i], m.procs[j]); } else { assert OtherJob(m.procs[j], m.procs[i]); }
        }
      }
      if Submitting(m.procs[i]) {
        CountAfter(s, n, OrderOf(m.procs[i]).value.job);
      }
    }
  }

  lemma {:induction false} NoSeedsOf(log: seq<Message>, job: JobId)
    requires forall i :: 0 <= i < |log| ==> MessageKey(log[i]).job != job
    ensures SeededCount(log, job) == 0
  {
    if log != [] {
      NoSeedsOf(log[..|log| - 1], job);
    }
  }

  lemma NewJobHasNoSeeds(cfg: Config, s: Store)
    requires StoreOk(cfg, s)
    ensures SeededCount(s.log, s.nextId) == 0
  {
    forall i | 0 <= i < |s.log|
      ensures MessageKey(s.log[i]).job != s.nextId
    {
      assert MessageOk(cfg, s, s.log[i]);
    }
    NoSeedsOf(s.log, s.nextId);
  }

  lemma SubmissionCounted(cfg: Config, m: Machine, r: SubmitRequest)
    requires Inv(cfg, m) && Counted(m)
    ensures Counted(Apply(cfg, m, Submission(r)))
  {
    var s, n := m.store, Submit(m.store, r);
    NewJobHasNoSeeds(cfg, s);
    forall job | job in n.store.jobs
      ensures JobCounts(n.store, job)
    {
      assert job in s.jobs ==> JobCounts(s, job);
    }
    forall i | 0 <= i < |m.procs|
      ensures ProcCounts(n.store, m.procs[i]) && OtherJob(m.procs[i], n.proc)
    {
      assert ProcCounts(s, m.procs[i]) && ProcOk(cfg, s, m.procs[i]);
    }
  }

  lemma DeliveryCounted(cfg: Config, m: Machine, i: nat, input: Input)
    requires Counted(m) && i < |m.store.log|
    ensures Counted(Apply(cfg, m, Delivery(i, input)))
  {
    var s, n := m.store, Deliver(m.store, m.store.log[i], input);
    assert n.store.jobs == s.jobs && n.store.log == s.log && !Submitting(n.proc);
    assert forall j :: 0 <= j < |m.procs| ==> ProcCounts(s, m.procs[j]);
    assert forall job :: job in s.jobs ==> JobCounts(s, job) && JobCounts(n.store, job);
  }

  lemma {:induction false} RunCounted(cfg: Config, actions: seq<Action>)
    requires cfg.maxAttempts >= 1
    ensures Counted(Run(cfg, INITIAL, actions))
  {
    if actions != [] {
      var init, a := actions[..|actions| - 1], actions[|actions| - 1];
      var m := Run(cfg, INITIAL, init);
      RunCounted(cfg, init);
      RunInv(cfg, INITIAL, init);
      match a
      case Submission(r) => SubmissionCounted(cfg, m, r);
      case Delivery(i, input) =>
        if i < |m.store.log| { DeliveryCounted(cfg, m, i, input); }
      case Progress(j) =>
        if j < |m.procs| { ProgressCounted(cfg, m, j); }
      case _ => OtherwiseCounted(cfg, m, a);
    }
  }

  lemma OtherwiseCounted(cfg: Config, m: Machine, a: Action)
    requires Counted(m) && (a.Crash? || a.ExpireHold? || a.ExpireReplays?)
    ensures Counted(Apply(cfg, m, a))
  {
    var m' := Apply(cfg, m, a);
    assert m'.store.jobs == m.store.jobs && m'.store.log == m.store.log;
    assert forall j :: 0 <= j < |m.procs| ==> ProcCounts(m.store, m.procs[j]);
    assert forall job :: job in m.store.jobs ==> JobCounts(m.store, job) && JobCounts(m'.store, job);
  }

  /** In every run, whatever is interleaved: a submission in progress has counted exactly the seed messages its job
      has on the log, and `urls_queued` is that number, or 0 when the submission has not ended or never did. */
  lemma {:induction false} QueuedIsPublished(cfg: Config, actions: seq<Action>, job: JobId)
    requires cfg.maxAttempts >= 1 && job in Run(cfg, INITIAL, actions).store.jobs
    ensures var m := Run(cfg, INITIAL, actions);
            && (m.store.jobs[job].urlsQueued == 0 || m.store.jobs[job].urlsQueued == SeededCount(m.store.log, job))
            && forall i :: 0 <= i < |m.procs| && Submitting(m.procs[i]) && OrderOf(m.procs[i]).value.job == job ==>
                 QueuedSoFar(m.procs[i]) == SeededCount(m.store.log, job)
  {
    RunCounted(cfg, actions);
    var m := Run(cfg, INITIAL, actions);
    assert JobCounts(m.store, job);
    assert forall i :: 0 <= i < |m.procs| ==> ProcCounts(m.store, m.procs[i]);
  }

  // ---------------------------------------------------------------- when the count is the number of distinct seeds

  /** What the count can still become: published seeds, the one in hand, and the URLs ahead that the job has not
      seen. */
  function Potential(s: Store, p: Proc): nat
    requires Submitting(p)
  {
    QueuedSoFar(p) + InHand(p) + |NewKeys(OrderOf(p).value, SeedsAhead(p), s.seen)|
  }

  /** Another handler marks as seen a seed's URL that the loop of handler q has yet to reach. */
  ghost predicate Steals(cfg: Config, m: Machine, a: Action, q: nat)
    requires q < |m.procs| && Submitting(m.procs[q])
  {
    a != Progress(q) &&
    exists k :: k in NewKeys(OrderOf(m.procs[q]).value, SeedsAhead(m.procs[q]), m.store.seen)
                && k in Apply(cfg, m, a).store.seen
  }

  /** The submission's own steps keep the potential. */
  lemma OwnStepKeeps(cfg: Config, s: Store, p: Proc)
    requires Submitting(p) && Submitting(Advance(cfg, s, p).proc)
    ensures OrderOf(Advance(cfg, s, p).proc) == OrderOf(p)
    ensures Potential(Advance(cfg, s, p).store, Advance(cfg, s, p).proc) == Potential(s, p)
  {
    if p.SubmitLoop? {
      assert Advance(cfg, s, p) == StepSeeds(s, p.order, p.seeds, p.queued);
      LoopStepKeeps(s, p.order, p.seeds, p.queued);
    }
  }

  lemma LoopCounts(s: Store, o: Order, seeds: seq<Seed>, queued: nat)
    ensures Potential(s, SubmitLoop(o, seeds, queued)) == queued + |NewKeys(o, seeds, s.seen)|
  {
  }

  lemma LoopStepKeeps(s: Store, o: Order, seeds: seq<Seed>, queued: nat)
    requires seeds != []
    ensures var n := StepSeeds(s, o, seeds, queued);
            Submitting(n.proc) && Potential(n.store, n.proc) == Potential(s, SubmitLoop(o, seeds, queued))
  {
    var n := StepSeeds(s, o, seeds, queued);
    if SeedKey(o, seeds[0]) in s.seen {
      assert n == Next(s, SubmitLoop(o, seeds[1..], queued));
      PassedSeedKeeps(s, o, seeds, queued);
    } else {
      assert n == Next(AddSeen(s, SeedKey(o, seeds[0])), SubmitQueue(o, seeds[0], seeds[1..], queued));
      TakenSeedKeeps(s, o, seeds, queued);
    }
  }

  lemma PassedSeedKeeps(s: Store, o: Order, seeds: seq<Seed>, queued: nat)
    requires seeds != [] && SeedKey(o, seeds[0]) in s.seen
    ensures Potential(s, SubmitLoop(o, seeds[1..], queued)) == Potential(s, SubmitLoop(o, seeds, queued))
  {
    LoopCounts(s, o, seeds, queued);
    LoopCounts(s, o, seeds[1..], queued);
    HeadCount(o, seeds, s.seen);
  }

  lemma TakenSeedKeeps(s: Store, o: Order, seeds: seq<Seed>, queued: nat)
    requires seeds != [] && SeedKey(o, seeds[0]) !in s.seen
    ensures Potential(AddSeen(s, SeedKey(o, seeds[0])), SubmitQueue(o, seeds[0], seeds[1..], queued)) ==
            Potential(s, SubmitLoop(o, seeds, queued))
  {
    LoopCounts(s, o, seeds, queued);
    InHandCounts(AddSeen(s, SeedKey(o, seeds[0])), o, seeds[0], seeds[1..], queued);
    HeadCount(o, seeds, s.seen);
  }

  lemma InHandCounts(s: Store, o: Order, seed: Seed, seeds: seq<Seed>, queued: nat)
    ensures Potential(s, SubmitQueue(o, seed, seeds, queued)) == queued + 1 + |NewKeys(o, seeds, s.seen)|
  {
  }

  lemma HeadCount(o: Order, seeds: seq<Seed>, seen: set<RowKey>)
    requires seeds != []
    ensures var k := SeedKey(o, seeds[0]);
            |NewKeys(o, seeds, seen)| ==
            if k in seen then |NewKeys(o, seeds[1..], seen)| else |NewKeys(o, seeds[1..], seen + {k})| + 1
  {
    var k := SeedKey(o, seeds[0]);
    NewKeysOfHead(o, seeds, seen);
    if k !in seen {
      OneMoreKey(NewKeys(o, seeds[1..], seen + {k}), k);
    }
  }

  lemma OneMoreKey(ks: set<RowKey>, k: RowKey)
    requires k !in ks
    ensures |ks + {k}| == |ks| + 1
  {
  }

  /** A step of anything else lowers it by one if it steals, and keeps it otherwise. */
  lemma OtherStepLowers(cfg: Config, m: Machine, a: Action, q: nat)
    requires q < |m.procs| && Submitting(m.procs[q]) && a != Progress(q)
    ensures var s' := Apply(cfg, m, a).store;
            Potential(s', m.procs[q]) <= Potential(m.store, m.procs[q]) &&
            (Potential(s', m.procs[q]) == Potential(m.store, m.procs[q]) <==> !Steals(cfg, m, a, q))
  {
    var s, s', p := m.store, Apply(cfg, m, a).store, m.procs[q];
    var ahead := NewKeys(OrderOf(p).value, SeedsAhead(p), s.seen);
    var ahead' := NewKeys(OrderOf(p).value, SeedsAhead(p), s'.seen);
    SeenGrows(cfg, m, a);
    assert ahead' <= ahead;
    if Steals(cfg, m, a, q) {
      var k :| k in ahead && k in s'.seen;
      assert ahead' <= ahead - {k};
      SubsetSmaller(ahead', ahead - {k});
    } else {
      assert ahead' == ahead;
    }
  }

  lemma SubsetSmaller(a: set<RowKey>, b: set<RowKey>)
    requires a <= b
    ensures |a| <= |b|
  {
    assert b == a + (b - a) && a !! (b - a);
  }

  lemma SeenGrows(cfg: Config, m: Machine, a: Action)
    ensures m.store.seen <= Apply(cfg, m, a).store.seen
  {
    if a.Progress? && a.proc < |m.procs| {
      AdvanceSees(cfg, m.store, m.procs[a.proc]);
    }
  }

  /** A handler that submits after a step was the same submission before it. */
  lemma SameSubmission(cfg: Config, m: Machine, a: Action, q: nat)
    requires q < |m.procs| && Submitting(Apply(cfg, m, a).procs[q])
    ensures Submitting(m.procs[q]) && OrderOf(m.procs[q]) == OrderOf(Apply(cfg, m, a).procs[q])
    ensures a != Progress(q) ==> Apply(cfg, m, a).procs[q] == m.procs[q]
  {
    if a == Progress(q) {
      AdvanceCounts(cfg, m.store, m.procs[q]);
    }
  }

  lemma ProcsGrow(cfg: Config, m: Machine, a: Action)
    ensures |m.procs| <= |Apply(cfg, m, a).procs|
  {
  }

  ghost predicate StealsAt(cfg: Config, m: Machine, a: Action, q: nat) {
    q < |m.procs| && Submitting(m.procs[q]) && Steals(cfg, m, a, q)
  }

  /** No step of the run steals from submission q. */
  ghost predicate NothingStolen(cfg: Config, m: Machine, actions: seq<Action>, q: nat) {
    actions != [] ==>
      var init, last := actions[..|actions| - 1], actions[|actions| - 1];
      NothingStolen(cfg, m, init, q) && !StealsAt(cfg, Run(cfg, m, init), last, q)
  }

  lemma {:induction false} PotentialFalls(cfg: Config, m: Machine, actions: seq<Action>, q: nat)
    requires q < |m.procs| && q < |Run(cfg, m, actions).procs| && Submitting(Run(cfg, m, actions).procs[q])
    ensures Submitting(m.procs[q]) && OrderOf(Run(cfg, m, actions).procs[q]) == OrderOf(m.procs[q])
    ensures var m' := Run(cfg, m, actions);
            Potential(m'.store, m'.procs[q]) <= Potential(m.store, m.procs[q]) &&
            (Potential(m'.store, m'.procs[q]) == Potential(m.store, m.procs[q]) <==> NothingStolen(cfg, m, actions, q))
  {
    if actions != [] {
      var init, a := actions[..|actions| - 1], actions[|actions| - 1];
      var before := Run(cfg, m, init);
      RunGrowsProcs(cfg, m, init);
      SameSubmission(cfg, before, a, q);
      PotentialFalls(cfg, m, init, q);
      PotentialStep(cfg, before, a, q);
    }
  }

  lemma PotentialStep(cfg: Config, m: Machine, a: Action, q: nat)
    requires q < |m.procs| && q < |Apply(cfg, m, a).procs|
    requires Submitting(m.procs[q]) && Submitting(Apply(cfg, m, a).procs[q])
    ensures var m' := Apply(cfg, m, a);
            && Potential(m'.store, m'.procs[q]) <= Potential(m.store, m.procs[q])
            && (Potential(m'.store, m'.procs[q]) == Potential(m.store, m.procs[q]) <==> !StealsAt(cfg, m, a, q))
  {
    SameSubmission(cfg, m, a, q);
    if a == Progress(q) {
      OwnProgressKeeps(cfg, m, q);
    } else {
      OtherStepLowers(cfg, m, a, q);
    }
  }

  lemma OwnProgressKeeps(cfg: Config, m: Machine, q: nat)
    requires q < |m.procs| && Submitting(m.procs[q]) && Submitting(Apply(cfg, m, Progress(q)).procs[q])
    ensures var m' := Apply(cfg, m, Progress(q));
            Potential(m'.store, m'.procs[q]) == Potential(m.store, m.procs[q])
  {
    var n := Advance(cfg, m.store, m.procs[q]);
    assert Apply(cfg, m, Progress(q)).store == n.store && Apply(cfg, m, Progress(q)).procs[q] == n.proc;
    OwnStepKeeps(cfg, m.store, m.procs[q]);
  }

  lemma {:induction false} RunGrowsProcs(cfg: Config, m: Machine, actions: seq<Action>)
    ensures |m.procs| <= |Run(cfg, m, actions).procs|
  {
    if actions != [] {
      RunGrowsProcs(cfg, m, actions[..|actions| - 1]);
      ProcsGrow(cfg, Run(cfg, m, actions[..|actions| - 1]), actions[|actions| - 1]);
    }
  }

  /** The state in which request r has just been accepted, after any run; its handler is the last one. */
  function Accepted(cfg: Config, actions: seq<Action>, r: SubmitRequest): Machine {
    Apply(cfg, Run(cfg, INITIAL, actions), Submission(r))
  }

  /** Exactly when `urls_queued` is the number of distinct seeds: let a submission go through all its seeds while
      anything else runs. The number it is about to record is the number of distinct normalized seeds if and only if
      no other handler marked a seed's URL as seen before the loop reached it. */
  lemma {:induction false} CountsDistinctSeedsIff(cfg: Config, actions: seq<Action>, r: SubmitRequest,
                                                  after: seq<Action>, queued: nat)
    requires cfg.maxAttempts >= 1 && !Refused(r)
    requires var q := |Run(cfg, INITIAL, actions).procs|; var m := Run(cfg, Accepted(cfg, actions, r), after);
             var o := Order(Run(cfg, INITIAL, actions).store.nextId, r.maxDepth, RequestDomains(r), r.incremental);
             q < |m.procs| && m.procs[q] == SubmitLoop(o, [], queued)
    ensures queued <= |DistinctUrls(r.seeds)|
    ensures queued == |DistinctUrls(r.seeds)| <==>
            NothingStolen(cfg, Accepted(cfg, actions, r), after, |Run(cfg, INITIAL, actions).procs|)
  {
    var m0 := Run(cfg, INITIAL, actions);
    var m1, q := Accepted(cfg, actions, r), |m0.procs|;
    var o := Order(m0.store.nextId, r.maxDepth, RequestDomains(r), r.incremental);
    assert m1.procs[q] == SubmitLoop(o, r.seeds, 0);
    PotentialFalls(cfg, m1, after, q);
    FreshSubmission(cfg, actions, o, r.seeds);
    assert KeysOf(o, []) == {};
  }

  lemma FreshSubmission(cfg: Config, actions: seq<Action>, o: Order, seeds: seq<Seed>)
    requires cfg.maxAttempts >= 1 && o.job == Run(cfg, INITIAL, actions).store.nextId
    ensures |NewKeys(o, seeds, Run(cfg, INITIAL, actions).store.seen)| == |DistinctUrls(seeds)|
  {
    var s := Run(cfg, INITIAL, actions).store;
    RunInv(cfg, INITIAL, actions);
    forall k | k in s.seen
      ensures k.job != o.job
    {
      SeenHasJob(cfg, actions, k);
    }
    assert NewKeys(o, seeds, s.seen) == KeysOf(o, seeds);
    KeysCountUrls(o, seeds);
  }
}
