/** Where jobs come from: behind each job, and each seed message, stands a submission with its terms. */
module Requests {
  import opened Wrappers
  import opened Events
  import opened Store
  import opened Handlers
  import opened Machine
  import opened Lineage
  import opened LineageSteps
  import opened Scheduler
  import opened Submissions
  import Guarantees

  /** The n-th action of the run is the submission of r that made job j. */
  ghost predicate Made(cfg: Config, actions: seq<Action>, n: nat, j: JobId, r: SubmitRequest) {
    n < |actions| && actions[n] == Submission(r) && !Refused(r) && Run(cfg, INITIAL, actions[..n]).store.nextId == j
  }

  /** The job has the terms of the request. */
  predicate OnTerms(job: Job, r: SubmitRequest) {
    job.maxDepth == r.maxDepth && DomainsFor(r, job.domains) && job.incremental == r.incremental
  }

  /** The event is a seed of the request: with its URL, at depth 0 or its row's depth, on the terms of the request. */
  predicate OfRequest(d: UrlDiscovered, r: SubmitRequest) {
    && (exists seed :: seed in r.seeds && d.url == seed.url && d.normalized == seed.normalized
                       && d.depth == if r.incremental then seed.depth else 0)
    && d.maxDepth == r.maxDepth && DomainsFor(r, d.domains) && d.force == r.incremental && d.attempt == 1
  }

  /** A submission of job j carries out that request. */
  ghost predicate CarriesOut(p: Proc, j: JobId, r: SubmitRequest) {
    Submitting(p) && OrderOf(p).value.job == j ==>
      var o := OrderOf(p).value;
      && o.maxDepth == r.maxDepth && DomainsFor(r, o.domains) && o.force == r.incremental
      && (forall seed :: seed in SeedsAhead(p) ==> seed in r.seeds)
      && (p.SubmitQueue? || p.SubmitEmit? ==> p.seed in r.seeds)
  }

  ghost predicate AllFrom(m: Machine, j: JobId, r: SubmitRequest) {
    && j in m.store.jobs && OnTerms(m.store.jobs[j], r)
    && (forall i :: 0 <= i < |m.store.log| && IsSeedOf(m.store.log[i], j) ==> OfRequest(m.store.log[i].discovered, r))
    && (forall i :: 0 <= i < |m.procs| ==> CarriesOut(m.procs[i], j, r))
  }

  // ---------------------------------------------------------------- one step

  lemma SubmitterFollows(cfg: Config, s: Store, p: Proc, j: JobId, r: SubmitRequest)
    requires Submitting(p) && CarriesOut(p, j, r)
    ensures var n := Advance(cfg, s, p);
            && CarriesOut(n.proc, j, r)
            && (|n.store.log| > |s.log| && IsSeedOf(n.store.log[|s.log|], j) ==>
                 OfRequest(n.store.log[|s.log|].discovered, r))
  {
  }

  lemma CleanerKeepsTerms(cfg: Config, s: Store, p: Proc, j: JobId)
    requires j in s.jobs && p.CleanBody?
    ensures j in Advance(cfg, s, p).store.jobs && SameTerms(s.jobs[j], Advance(cfg, s, p).store.jobs[j])
  {
    assert Advance(cfg, s, p) == StepClean(s, p.parsed, p.clean);
  }

  lemma SubmitterKeepsTerms(cfg: Config, s: Store, p: Proc, j: JobId)
    requires j in s.jobs && Submitting(p)
    ensures j in Advance(cfg, s, p).store.jobs && SameTerms(s.jobs[j], Advance(cfg, s, p).store.jobs[j])
  {
  }

  lemma OthersKeepJobs(cfg: Config, s: Store, p: Proc)
    requires !p.CleanBody? && !Submitting(p) && !DutyOf(p).Crawls?
    ensures Advance(cfg, s, p).store.jobs == s.jobs
  {
  }

  /** The terms of a job never change. */
  lemma TermsStay(cfg: Config, s: Store, p: Proc, j: JobId)
    requires j in s.jobs
    ensures j in Advance(cfg, s, p).store.jobs && SameTerms(s.jobs[j], Advance(cfg, s, p).store.jobs[j])
  {
    if DutyOf(p).Crawls? {
      CrawlerKeepsJobs(cfg, s, p);
    } else if p.CleanBody? {
      CleanerKeepsTerms(cfg, s, p, j);
    } else if Submitting(p) {
      SubmitterKeepsTerms(cfg, s, p, j);
    } else {
      OthersKeepJobs(cfg, s, p);
    }
  }

  lemma LogFollows(log: seq<Message>, log': seq<Message>, j: JobId, r: SubmitRequest)
    requires forall i :: 0 <= i < |log| && IsSeedOf(log[i], j) ==> OfRequest(log[i].discovered, r)
    requires log' == log || (|log'| == |log| + 1 && log' == log + [log'[|log|]])
    requires |log'| > |log| && IsSeedOf(log'[|log|], j) ==> OfRequest(log'[|log|].discovered, r)
    ensures forall i :: 0 <= i < |log'| && IsSeedOf(log'[i], j) ==> OfRequest(log'[i].discovered, r)
  {
  }

  lemma StepFollows(cfg: Config, s: Store, p: Proc, j: JobId, r: SubmitRequest)
    requires CarriesOut(p, j, r)
    ensures var n := Advance(cfg, s, p);
            && CarriesOut(n.proc, j, r)
            && (|n.store.log| > |s.log| && IsSeedOf(n.store.log[|s.log|], j) ==>
                 OfRequest(n.store.log[|s.log|].discovered, r))
  {
    AdvanceCounts(cfg, s, p);
    if Submitting(p) {
      SubmitterFollows(cfg, s, p, j, r);
    }
  }

  lemma ProgressFollows(cfg: Config, m: Machine, i: nat, j: JobId, r: SubmitRequest)
    requires AllFrom(m, j, r) && i < |m.procs|
    ensures AllFrom(Apply(cfg, m, Progress(i)), j, r)
  {
    var s, p := m.store, m.procs[i];
    var n := Advance(cfg, s, p);
    assert CarriesOut(p, j, r);
    StepFollows(cfg, s, p, j, r);
    TermsStay(cfg, s, p, j);
    AdvanceAppends(cfg, s, p);
    LogFollows(s.log, n.store.log, j, r);
  }

  lemma SubmissionFollows(cfg: Config, m: Machine, other: SubmitRequest, j: JobId, r: SubmitRequest)
    requires AllFrom(m, j, r) && j < m.store.nextId
    ensures AllFrom(Apply(cfg, m, Submission(other)), j, r)
  {
    assert CarriesOut(Submit(m.store, other).proc, j, r);
  }

  lemma DeliveryFollows(cfg: Config, m: Machine, i: nat, input: Input, j: JobId, r: SubmitRequest)
    requires AllFrom(m, j, r)
    ensures AllFrom(Apply(cfg, m, Delivery(i, input)), j, r)
  {
    if i < |m.store.log| {
      var n := Deliver(m.store, m.store.log[i], input);
      assert n.store.jobs == m.store.jobs && n.store.log == m.store.log && !Submitting(n.proc);
      assert CarriesOut(n.proc, j, r);
    }
  }

  lemma ActionFollows(cfg: Config, m: Machine, a: Action, j: JobId, r: SubmitRequest)
    requires AllFrom(m, j, r) && j < m.store.nextId
    ensures AllFrom(Apply(cfg, m, a), j, r)
  {
    match a
    case Submission(other) => SubmissionFollows(cfg, m, other, j, r);
    case Delivery(i, input) => DeliveryFollows(cfg, m, i, input, j, r);
    case Progress(i) =>
      if i < |m.procs| { ProgressFollows(cfg, m, i, j, r); }
    case Crash(i) => assert CarriesOut(Idle, j, r);
    case _ =>
  }

  lemma OnlySubmissionsMakeJobs(cfg: Config, m: Machine, a: Action, j: JobId)
    requires j !in m.store.jobs && j in Apply(cfg, m, a).store.jobs
    ensures a.Submission? && !Refused(a.request) && j == m.store.nextId
  {
    if a.Progress? && a.proc < |m.procs| {
      AdvanceCounts(cfg, m.store, m.procs[a.proc]);
    }
  }

  /** The new job is on the terms of its request, and nothing is known of it yet. */
  lemma StartFollows(cfg: Config, m: Machine, r: SubmitRequest)
    requires Inv(cfg, m) && !Refused(r) && m.store.nextId !in m.store.jobs
    ensures AllFrom(Apply(cfg, m, Submission(r)), m.store.nextId, r)
  {
    var j := m.store.nextId;
    forall i | 0 <= i < |m.store.log|
      ensures !IsSeedOf(m.store.log[i], j)
    {
      assert MessageOk(cfg, m.store, m.store.log[i]);
    }
    forall i | 0 <= i < |m.procs|
      ensures CarriesOut(m.procs[i], j, r)
    {
      assert ProcOk(cfg, m.store, m.procs[i]);
    }
    assert CarriesOut(Submit(m.store, r).proc, j, r);
  }

  // ---------------------------------------------------------------- whole runs

  /** In every run, behind every job stands the submission that made it. The job has the depth limit, the kind and the
      domains of that request, and every seed message of the job is one of its seeds: with the URL and, in a re-crawl,
      the depth of that seed, and on the same terms. */
  lemma {:induction false} JobsAreRequested(cfg: Config, actions: seq<Action>, j: JobId)
    returns (n: nat, r: SubmitRequest)
    requires cfg.maxAttempts >= 1 && j in Run(cfg, INITIAL, actions).store.jobs
    ensures Made(cfg, actions, n, j, r)
    ensures AllFrom(Run(cfg, INITIAL, actions), j, r)
  {
    var init, a := actions[..|actions| - 1], actions[|actions| - 1];
    var m := Run(cfg, INITIAL, init);
    Guarantees.RunsKeepInv(cfg, init);
    if j in m.store.jobs {
      n, r := JobsAreRequested(cfg, init, j);
      assert actions[..n] == init[..n];
      ActionFollows(cfg, m, a, j, r);
    } else {
      OnlySubmissionsMakeJobs(cfg, m, a, j);
      n, r := |init|, a.request;
      StartFollows(cfg, m, r);
    }
  }
}
