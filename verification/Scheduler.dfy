/** Job submission: the loop over the seeds, and the counts it leaves behind. */
module Scheduler {
  import opened Wrappers
  import opened Events
  import opened Store
  import opened Handlers
  import opened Platform
  import opened Machine
  import opened Lineage
  import opened Discoveries
  import Guarantees
  import Jobs
  import Unrolling

  // ---------------------------------------------------------------- the loop as a fold

  function AfterSeed(s: Store, o: Order, seed: Seed): Store {
    var s1 := EnsureQueued(AddSeen(s, SeedKey(o, seed)), SeedKey(o, seed), SeedDepth(o, seed));
    PublishFresh(s1, OnDiscovered(SeedEvent(o, seed, s1.nextId), Seeded))
  }

  function QueueSeeds(s: Store, o: Order, seeds: seq<Seed>): Store
    decreases |seeds|
  {
    if seeds == [] then s
    else QueueSeeds(if SeedKey(o, seeds[0]) in s.seen then s else AfterSeed(s, o, seeds[0]), o, seeds[1..])
  }

  function CountNew(s: Store, o: Order, seeds: seq<Seed>): nat
    decreases |seeds|
  {
    if seeds == [] then 0
    else if SeedKey(o, seeds[0]) in s.seen then CountNew(s, o, seeds[1..])
    else 1 + CountNew(AfterSeed(s, o, seeds[0]), o, seeds[1..])
  }

  lemma UnrollEmit(cfg: Config, s: Store, o: Order, seed: Seed, seeds: seq<Seed>, queued: nat)
    ensures RunAlone(cfg, s, SubmitEmit(o, seed, seeds, queued)) ==
            RunAlone(cfg, PublishFresh(s, OnDiscovered(SeedEvent(o, seed, s.nextId), Seeded)),
                     SubmitLoop(o, seeds, queued + 1))
  {
    var s' := PublishFresh(s, OnDiscovered(SeedEvent(o, seed, s.nextId), Seeded));
    Unrolling.UnrollTo(cfg, s, SubmitEmit(o, seed, seeds, queued), Next(s', SubmitLoop(o, seeds, queued + 1)));
  }

  /** Queueing and publishing one new seed. */
  lemma UnrollNewSeed(cfg: Config, s: Store, o: Order, seed: Seed, seeds: seq<Seed>, queued: nat)
    ensures RunAlone(cfg, AddSeen(s, SeedKey(o, seed)), SubmitQueue(o, seed, seeds, queued)) ==
            RunAlone(cfg, AfterSeed(s, o, seed), SubmitLoop(o, seeds, queued + 1))
  {
    var s1 := AddSeen(s, SeedKey(o, seed));
    var s2 := EnsureQueued(s1, SeedKey(o, seed), SeedDepth(o, seed));
    Unrolling.UnrollTo(cfg, s1, SubmitQueue(o, seed, seeds, queued), Next(s2, SubmitEmit(o, seed, seeds, queued)));
    UnrollEmit(cfg, s2, o, seed, seeds, queued);
  }

  lemma UnrollLoop(cfg: Config, s: Store, o: Order, seeds: seq<Seed>, queued: nat)
    requires seeds != []
    ensures RunAlone(cfg, s, SubmitLoop(o, seeds, queued)) ==
            if SeedKey(o, seeds[0]) in s.seen then RunAlone(cfg, s, SubmitLoop(o, seeds[1..], queued))
            else RunAlone(cfg, AfterSeed(s, o, seeds[0]), SubmitLoop(o, seeds[1..], queued + 1))
  {
    if SeedKey(o, seeds[0]) in s.seen {
      Unrolling.UnrollTo(cfg, s, SubmitLoop(o, seeds, queued), Next(s, SubmitLoop(o, seeds[1..], queued)));
    } else {
      var s1 := AddSeen(s, SeedKey(o, seeds[0]));
      Unrolling.UnrollTo(cfg, s, SubmitLoop(o, seeds, queued), Next(s1, SubmitQueue(o, seeds[0], seeds[1..], queued)));
      UnrollNewSeed(cfg, s, o, seeds[0], seeds[1..], queued);
    }
  }

  /** The handler's loop ends as the fold says. */
  lemma {:induction false} LoopIsFold(cfg: Config, s: Store, o: Order, seeds: seq<Seed>, queued: nat,
                                      end: Store, s': Store, count: nat)
    requires end == RunAlone(cfg, s, SubmitLoop(o, seeds, queued))
    requires s' == QueueSeeds(s, o, seeds) && count == CountNew(s, o, seeds)
    ensures end == RecordQueued(s', o.job, queued + count)
    decreases |seeds|
  {
    if seeds == [] {
      Unrolling.UnrollTo(cfg, s, SubmitLoop(o, seeds, queued), Next(RecordQueued(s, o.job, queued), Idle));
    } else {
      UnrollLoop(cfg, s, o, seeds, queued);
      if SeedKey(o, seeds[0]) in s.seen {
        LoopIsFold(cfg, s, o, seeds[1..], queued, end, s', count);
      } else {
        LoopIsFold(cfg, AfterSeed(s, o, seeds[0]), o, seeds[1..], queued + 1, end, s', count - 1);
      }
    }
  }

  /** A re-crawl that is left without any domain to stay in. */
  predicate Refused(r: SubmitRequest) {
    r.incremental && r.allowed == [] && r.seedDomains == []
  }

  /** The store a submission reaches when it runs alone. */
  function SubmittedAlone(cfg: Config, s: Store, r: SubmitRequest): Store {
    RunAlone(cfg, Submit(s, r).store, Submit(s, r).proc)
  }

  lemma RefusedRuns(cfg: Config, s: Store, r: SubmitRequest)
    requires Refused(r)
    ensures SubmittedAlone(cfg, s, r) == s
  {
  }

  lemma AcceptedRuns(cfg: Config, s: Store, r: SubmitRequest, s0: Store, o: Order, s': Store, count: nat)
    requires Submit(s, r) == Next(s0, SubmitLoop(o, r.seeds, 0))
    requires s' == QueueSeeds(s0, o, r.seeds) && count == CountNew(s0, o, r.seeds)
    ensures SubmittedAlone(cfg, s, r) == RecordQueued(s', o.job, count)
  {
    LoopIsFold(cfg, s0, o, r.seeds, 0, SubmittedAlone(cfg, s, r), s', count);
  }

  // ---------------------------------------------------------------- what a submission leaves behind

  /** A request's seeds as targets: a seed starts at depth 0, a stale URL at the depth of its `urls` row. */
  function SeedTargets(seeds: seq<Seed>, stale: bool): (xs: seq<Target>)
    ensures |xs| == |seeds|
    ensures forall i :: 0 <= i < |seeds| ==>
              xs[i] == Target(seeds[i].url, seeds[i].normalized, if stale then seeds[i].depth else 0)
  {
    seq(|seeds|, i requires 0 <= i < |seeds| => Target(seeds[i].url, seeds[i].normalized,
                                                       if stale then seeds[i].depth else 0))
  }

  /** The domains of the job: those asked for, or else the seeds'. */
  predicate DomainsFor(r: SubmitRequest, domains: seq<string>) {
    if r.allowed != [] then domains == r.allowed else domains == r.seedDomains
  }

  /** The table of jobs with a new one for r. */
  predicate JobInserted(jobs: map<JobId, Job>, jobs': map<JobId, Job>, id: JobId, r: SubmitRequest, count: nat) {
    && id in jobs' && jobs' == jobs[id := jobs'[id]]
    && jobs'[id].maxDepth == r.maxDepth && DomainsFor(r, jobs'[id].domains) && jobs'[id].incremental == r.incremental
    && jobs'[id].status == Running && jobs'[id].urlsQueued == count
  }

  /** There is a new job on the request's terms; s0 has it, with nothing counted; then each seed was offered. */
  ghost predicate Accepted(s: Store, s0: Store, s1: Store, s': Store, r: SubmitRequest, picks: seq<nat>) {
    && JobInserted(s.jobs, s0.jobs, s.nextId, r, 0) && s0 == s.(jobs := s0.jobs, nextId := s.nextId + 1)
    && Picked(s.nextId, SeedTargets(r.seeds, r.incremental), 0, s.seen, picks)
    && AllOffered(s0, s1, SeedTerms(s.nextId, s0.jobs[s.nextId]), SeedTargets(r.seeds, r.incremental), 0, picks)
    && JobInserted(s.jobs, s'.jobs, s.nextId, r, |picks|) && s' == s1.(jobs := s'.jobs)
  }

  /** The request is refused, or accepted, and then each new URL among the seeds is counted. */
  ghost predicate SubmitOutcome(s: Store, s': Store, r: SubmitRequest, count: nat) {
    if Refused(r) then s' == s && count == 0
    else exists s0, s1, picks :: Accepted(s, s0, s1, s', r, picks) && count == |picks|
  }

  /** Seeds are published on the job's terms; those of a re-crawl are forced. */
  function SeedTerms(id: JobId, job: Job): Terms {
    Terms(job := id, maxDepth := job.maxDepth, domains := job.domains, force := job.incremental, via := Seeded)
  }

  lemma SeedOffered(s: Store, o: Order, seed: Seed, t: Terms, x: Target)
    requires SeedKey(o, seed) !in s.seen && t == Terms(o.job, o.maxDepth, o.domains, o.force, Seeded)
    requires x == Target(seed.url, seed.normalized, if o.force then seed.depth else 0)
    ensures OneOffered(s, AfterSeed(s, o, seed), t, x)
  {
  }

  /** The fold from a position on. */
  lemma {:induction false} SeedsOffered(s: Store, o: Order, seeds: seq<Seed>, from: nat, s': Store, count: nat,
                                        t: Terms)
    returns (picks: seq<nat>)
    requires from <= |seeds| && s' == QueueSeeds(s, o, seeds[from..]) && count == CountNew(s, o, seeds[from..])
    requires t == Terms(o.job, o.maxDepth, o.domains, o.force, Seeded)
    ensures Picked(o.job, SeedTargets(seeds, o.force), from, s.seen, picks) && count == |picks|
    ensures AllOffered(s, s', t, SeedTargets(seeds, o.force), from, picks)
    decreases |seeds| - from
  {
    var xs := SeedTargets(seeds, o.force);
    if from == |seeds| {
      assert seeds[from..] == [];
      NothingOffered(s, t, xs);
      return [];
    }
    assert seeds[from..][0] == seeds[from] && seeds[from..][1..] == seeds[from + 1..];
    if SeedKey(o, seeds[from]) in s.seen {
      picks := SeedsOffered(s, o, seeds, from + 1, s', count, t);
      SkipPicks(o.job, xs, from, s.seen, picks);
      SeenOffered(s, s', t, xs, from, picks);
    } else {
      var s1 := AfterSeed(s, o, seeds[from]);
      SeedOffered(s, o, seeds[from], t, xs[from]);
      var later := SeedsOffered(s1, o, seeds, from + 1, s', count - 1, t);
      picks := [from] + later;
      TakePick(o.job, xs, from, s.seen, later, picks);
      NewOffered(s, s1, s', t, xs, from, later, picks);
    }
  }

  lemma Recorded(s: Store, s0: Store, s1: Store, s': Store, r: SubmitRequest, job: Job, picks: seq<nat>)
    requires s0 == CreateJob(s, job) && s' == RecordQueued(s1, s.nextId, |picks|)
    requires JobInserted(s.jobs, s0.jobs, s.nextId, r, 0)
    requires Picked(s.nextId, SeedTargets(r.seeds, r.incremental), 0, s.seen, picks)
    requires AllOffered(s0, s1, SeedTerms(s.nextId, job), SeedTargets(r.seeds, r.incremental), 0, picks)
    ensures Accepted(s, s0, s1, s', r, picks)
  {
    assert s0.jobs[s.nextId] == job && s1.jobs == s0.jobs;
    assert s'.jobs == s.jobs[s.nextId := job.(urlsQueued := |picks|)];
  }

  /** For any request and store: what a submission leaves behind that nothing disturbs. */
  lemma {:induction false} SubmitRuns(cfg: Config, s: Store, s': Store, r: SubmitRequest) returns (count: nat)
    requires s' == SubmittedAlone(cfg, s, r)
    ensures SubmitOutcome(s, s', r, count)
    ensures !Refused(r) ==> count == CountNew(Submit(s, r).store, Submit(s, r).proc.order, r.seeds)
  {
    if Refused(r) {
      RefusedRuns(cfg, s, r);
      return 0;
    }
    var domains := if r.allowed != [] then r.allowed else r.seedDomains;
    var o := Order(s.nextId, r.maxDepth, domains, r.incremental);
    var job := Job(r.maxDepth, domains, r.incremental, Running, 0);
    var s0 := CreateJob(s, job);
    assert Submit(s, r) == Next(s0, SubmitLoop(o, r.seeds, 0));
    count := CountNew(s0, o, r.seeds);
    AcceptedRuns(cfg, s, r, s0, o, QueueSeeds(s0, o, r.seeds), count);
    LoopAccepts(s, s0, s', r, job, o, count);
  }

  lemma LoopAccepts(s: Store, s0: Store, s': Store, r: SubmitRequest, job: Job, o: Order, count: nat)
    requires !Refused(r) && s0 == CreateJob(s, job) && JobInserted(s.jobs, s0.jobs, s.nextId, r, 0)
    requires o == Order(s.nextId, job.maxDepth, job.domains, job.incremental) && count == CountNew(s0, o, r.seeds)
    requires s' == RecordQueued(QueueSeeds(s0, o, r.seeds), s.nextId, count)
    ensures SubmitOutcome(s, s', r, count)
  {
    var s1 := QueueSeeds(s0, o, r.seeds);
    assert r.seeds[0..] == r.seeds;
    var picks := SeedsOffered(s0, o, r.seeds, 0, s1, count, SeedTerms(s.nextId, job));
    Recorded(s, s0, s1, s', r, job, picks);
  }

  // ---------------------------------------------------------------- submit_job_internal

  class JobScheduler {
    const platform: Platform
    const cfg: Config

    constructor (platform: Platform, cfg: Config)
      ensures this.platform == platform && this.cfg == cfg
    {
      this.platform := platform;
      this.cfg := cfg;
    }

    /** The number of URLs queued, or None for the two cases answered with an error. */
    method SubmitJob(r: SubmitRequest) returns (queued: Option<nat>)
      modifies platform
      ensures platform.Snapshot() == SubmittedAlone(cfg, old(platform.Snapshot()), r)
      ensures queued.Some? ==> queued.value > 0
      ensures SubmitOutcome(old(platform.Snapshot()), platform.Snapshot(), r, if queued.Some? then queued.value else 0)
    {
      ghost var n := SubmitRuns(cfg, platform.Snapshot(), SubmittedAlone(cfg, platform.Snapshot(), r), r);
      var domains := if r.allowed != [] then r.allowed else r.seedDomains;
      if r.incremental && domains == [] {
        RefusedRuns(cfg, platform.Snapshot(), r);
        return None;
      }
      var id := platform.InsertJob(Job(r.maxDepth, domains, r.incremental, Running, 0));
      var o := Order(id, r.maxDepth, domains, r.incremental);
      ghost var s0 := platform.Snapshot();
      assert Submit(old(platform.Snapshot()), r) == Next(s0, SubmitLoop(o, r.seeds, 0));
      var count := QueueAll(o, r.seeds);
      AcceptedRuns(cfg, old(platform.Snapshot()), r, s0, o, platform.Snapshot(), count);
      if count == 0 {
        return None;
      }
      platform.RecordUrlsQueued(id, count);
      queued := Some(count);
    }

    method QueueAll(o: Order, seeds: seq<Seed>) returns (count: nat)
      modifies platform
      ensures platform.Snapshot() == QueueSeeds(old(platform.Snapshot()), o, seeds)
      ensures count == CountNew(old(platform.Snapshot()), o, seeds)
      ensures exists picks ::
        Picked(o.job, SeedTargets(seeds, o.force), 0, old(platform.seen), picks) && count == |picks|
        && AllOffered(old(platform.Snapshot()), platform.Snapshot(),
                      Terms(o.job, o.maxDepth, o.domains, o.force, Seeded), SeedTargets(seeds, o.force), 0, picks)
      ensures platform.jobs == old(platform.jobs)
    {
      count := 0;
      ghost var s0 := platform.Snapshot();
      var i := 0;
      while i < |seeds|
        invariant i <= |seeds| && platform.jobs == s0.jobs
        invariant QueueSeeds(platform.Snapshot(), o, seeds[i..]) == QueueSeeds(s0, o, seeds)
        invariant count + CountNew(platform.Snapshot(), o, seeds[i..]) == CountNew(s0, o, seeds)
      {
        assert seeds[i..][0] == seeds[i] && seeds[i..][1..] == seeds[i + 1..];
        var added := QueueSeed(o, seeds[i]);
        if added {
          count := count + 1;
        }
        i := i + 1;
      }
      assert seeds[i..] == [] && seeds[0..] == seeds;
      ghost var picks := SeedsOffered(s0, o, seeds, 0, platform.Snapshot(), count,
                                      Terms(o.job, o.maxDepth, o.domains, o.force, Seeded));
    }

    method QueueSeed(o: Order, seed: Seed) returns (added: bool)
      modifies platform
      ensures added == (SeedKey(o, seed) !in old(platform.seen))
      ensures platform.Snapshot() ==
              if added then AfterSeed(old(platform.Snapshot()), o, seed) else old(platform.Snapshot())
      ensures platform.jobs == old(platform.jobs)
    {
      added := platform.MarkSeen(RowKey(o.job, seed.normalized));
      if added {
        var depth := if o.force then seed.depth else 0;
        var _ := platform.QueueUrl(RowKey(o.job, seed.normalized), depth);
        var event := UrlDiscovered(platform.nextId, o.job, seed.url, seed.normalized, 1, depth, o.maxDepth,
                                   o.domains, o.force);
        platform.PublishNewEvent(OnDiscovered(event, Seeded));
      }
    }
  }

  // ---------------------------------------------------------------- what the count counts

  function KeysOf(o: Order, seeds: seq<Seed>): set<RowKey> {
    set seed | seed in seeds :: SeedKey(o, seed)
  }

  predicate IsSeedEvent(o: Order, m: Message) {
    m.OnDiscovered? && m.via == Seeded && m.discovered.maxDepth == o.maxDepth && m.discovered.domains == o.domains
  }

  /** The log grew by one seed event for each of the keys ks. */
  ghost predicate Announced(log: seq<Message>, log': seq<Message>, o: Order, ks: set<RowKey>) {
    && log <= log' && |log'| == |log| + |ks|
    && forall i :: |log| <= i < |log'| ==> IsSeedEvent(o, log'[i]) && MessageKey(log'[i]) in ks
  }

  /** s' is s after a loop that found exactly the keys ks new: it saw them, created their rows, and
      published one seed event for each. */
  ghost predicate QueuedAll(s: Store, s': Store, o: Order, ks: set<RowKey>) {
    && s'.seen == s.seen + ks
    && s'.rows.Keys == s.rows.Keys + ks
    && s'.jobs == s.jobs
    && Announced(s.log, s'.log, o, ks)
  }

  lemma NothingQueued(s: Store, o: Order)
    ensures QueuedAll(s, s, o, {})
  {
  }

  lemma AnnouncedOne(log: seq<Message>, m: Message, o: Order)
    requires IsSeedEvent(o, m)
    ensures Announced(log, log + [m], o, {MessageKey(m)})
  {
  }

  lemma AfterSeedQueued(s: Store, o: Order, seed: Seed)
    requires SeedKey(o, seed) !in s.seen && s.rows.Keys <= s.seen
    ensures QueuedAll(s, AfterSeed(s, o, seed), o, {SeedKey(o, seed)})
  {
    var s1 := EnsureQueued(AddSeen(s, SeedKey(o, seed)), SeedKey(o, seed), SeedDepth(o, seed));
    AnnouncedOne(s.log, OnDiscovered(SeedEvent(o, seed, s1.nextId), Seeded), o);
  }

  lemma AnnouncedBoth(log: seq<Message>, log1: seq<Message>, log': seq<Message>, o: Order, k: RowKey, ks: set<RowKey>)
    requires k !in ks && Announced(log, log1, o, {k}) && Announced(log1, log', o, ks)
    ensures Announced(log, log', o, ks + {k})
  {
    assert log'[|log|] == log1[|log|];
  }

  lemma AddedBoth(a: set<RowKey>, b: set<RowKey>, c: set<RowKey>, k: RowKey, ks: set<RowKey>)
    requires b == a + {k} && c == b + ks
    ensures c == a + (ks + {k})
  {
  }

  lemma QueuedBoth(s: Store, s1: Store, s': Store, o: Order, k: RowKey, ks: set<RowKey>)
    requires k !in ks && QueuedAll(s, s1, o, {k}) && QueuedAll(s1, s', o, ks)
    ensures QueuedAll(s, s', o, ks + {k})
    ensures |ks + {k}| == |ks| + 1
  {
    AddedBoth(s.seen, s1.seen, s'.seen, k, ks);
    AddedBoth(s.rows.Keys, s1.rows.Keys, s'.rows.Keys, k, ks);
    AnnouncedBoth(s.log, s1.log, s'.log, o, k, ks);
  }

  /** The keys of the seeds that a job with the seen set `seen` has yet to see. */
  function NewKeys(o: Order, seeds: seq<Seed>, seen: set<RowKey>): set<RowKey> {
    KeysOf(o, seeds) - seen
  }

  lemma NewKeysOfHead(o: Order, seeds: seq<Seed>, seen: set<RowKey>)
    requires seeds != []
    ensures var k := SeedKey(o, seeds[0]);
            NewKeys(o, seeds, seen) ==
            if k in seen then NewKeys(o, seeds[1..], seen) else NewKeys(o, seeds[1..], seen + {k}) + {k}
  {
    assert seeds == [seeds[0]] + seeds[1..];
    assert KeysOf(o, seeds) == KeysOf(o, seeds[1..]) + {SeedKey(o, seeds[0])};
  }

  /** The loop finds new exactly the keys of its seeds that the job had not seen. */
  lemma {:induction false} LoopQueues(s: Store, o: Order, seeds: seq<Seed>, s': Store, count: nat)
    requires s.rows.Keys <= s.seen
    requires s' == QueueSeeds(s, o, seeds) && count == CountNew(s, o, seeds)
    ensures QueuedAll(s, s', o, NewKeys(o, seeds, s.seen))
    ensures count == |NewKeys(o, seeds, s.seen)|
    decreases |seeds|, 1
  {
    if seeds == [] {
      NothingQueued(s, o);
      assert NewKeys(o, seeds, s.seen) == {};
    } else if SeedKey(o, seeds[0]) in s.seen {
      NewKeysOfHead(o, seeds, s.seen);
      LoopQueues(s, o, seeds[1..], s', count);
    } else {
      AfterSeedQueued(s, o, seeds[0]);
      LoopQueuesNew(s, AfterSeed(s, o, seeds[0]), o, seeds, s', count - 1);
    }
  }

  lemma {:induction false} LoopQueuesNew(s: Store, s1: Store, o: Order, seeds: seq<Seed>, s': Store, count: nat)
    requires s.rows.Keys <= s.seen && seeds != [] && SeedKey(o, seeds[0]) !in s.seen
    requires QueuedAll(s, s1, o, {SeedKey(o, seeds[0])})
    requires s' == QueueSeeds(s1, o, seeds[1..]) && count == CountNew(s1, o, seeds[1..])
    ensures QueuedAll(s, s', o, NewKeys(o, seeds, s.seen))
    ensures count + 1 == |NewKeys(o, seeds, s.seen)|
    decreases |seeds|, 0
  {
    NewKeysOfHead(o, seeds, s.seen);
    LoopQueues(s1, o, seeds[1..], s', count);
    QueuedBoth(s, s1, s', o, SeedKey(o, seeds[0]), NewKeys(o, seeds[1..], s1.seen));
  }

  function DistinctUrls(seeds: seq<Seed>): set<Url> {
    set seed | seed in seeds :: seed.normalized
  }

  lemma {:induction false} KeysCountUrls(o: Order, seeds: seq<Seed>)
    ensures |KeysOf(o, seeds)| == |DistinctUrls(seeds)|
  {
    if seeds != [] {
      var init, last := seeds[..|seeds| - 1], seeds[|seeds| - 1];
      assert seeds == init + [last];
      assert KeysOf(o, seeds) == KeysOf(o, init) + {SeedKey(o, last)};
      assert DistinctUrls(seeds) == DistinctUrls(init) + {last.normalized};
      if last.normalized in DistinctUrls(init) {
        assert KeysOf(o, seeds) == KeysOf(o, init);
        assert DistinctUrls(seeds) == DistinctUrls(init);
      } else {
        assert SeedKey(o, last) !in KeysOf(o, init);
      }
      KeysCountUrls(o, init);
    }
  }

  /** s' has, beyond s, a row for each of the URLs and as many messages about them, in a job that records their
      number. */
  predicate Submitted(s: Store, s': Store, urls: set<Url>) {
    && s'.rows.Keys == s.rows.Keys + RowsFor(s.nextId, urls)
    && |s'.rows.Keys - s.rows.Keys| == |urls|
    && |s'.log| == |s.log| + |urls|
    && (forall i :: |s.log| <= i < |s'.log| ==> MessageKey(s'.log[i]) in RowsFor(s.nextId, urls))
    && s.nextId in s'.jobs && s'.jobs[s.nextId].urlsQueued == |urls|
  }

  /** For a new job the distinct normalized seeds, the rows created, the messages published and the
      recorded urls_queued are the same number, and the rows are the seeds'. */
  lemma {:induction false} SubmissionCounts(cfg: Config, s: Store, r: SubmitRequest)
    requires !Refused(r)
    requires s.rows.Keys <= s.seen
    requires forall k :: k in s.seen ==> k.job != s.nextId
    ensures Submitted(s, SubmittedAlone(cfg, s, r), DistinctUrls(r.seeds))
  {
    var n := Submit(s, r);
    var o := Order(s.nextId, r.maxDepth, RequestDomains(r), r.incremental);
    SubmissionFrom(cfg, s, n.store, o, r.seeds, RunAlone(cfg, n.store, n.proc),
                   QueueSeeds(n.store, o, r.seeds), CountNew(n.store, o, r.seeds));
  }

  lemma SubmissionFrom(cfg: Config, s: Store, s0: Store, o: Order, seeds: seq<Seed>, end: Store,
                       s1: Store, count: nat)
    requires s1 == QueueSeeds(s0, o, seeds) && count == CountNew(s0, o, seeds)
    requires s.rows.Keys <= s.seen && forall k :: k in s.seen ==> k.job != s.nextId
    requires o.job == s.nextId && s0.rows == s.rows && s0.log == s.log && s0.seen == s.seen
    requires o.job in s0.jobs && s0.jobs[o.job].urlsQueued == 0
    requires end == RunAlone(cfg, s0, SubmitLoop(o, seeds, 0))
    ensures Submitted(s, end, DistinctUrls(seeds))
  {
    LoopIsFold(cfg, s0, o, seeds, 0, end, s1, count);
    LoopQueues(s0, o, seeds, s1, count);
    KeysCountUrls(o, seeds);
    FreshKeys(o, seeds, s.seen, s.rows.Keys);
    RecordedCounts(s, s0, s1, o, count, DistinctUrls(seeds));
  }

  lemma RecordedCounts(s: Store, s0: Store, s1: Store, o: Order, count: nat, urls: set<Url>)
    requires o.job == s.nextId && s0.rows == s.rows && s0.log == s.log
    requires o.job in s0.jobs && s0.jobs[o.job].urlsQueued == 0
    requires QueuedAll(s0, s1, o, RowsFor(o.job, urls)) && count == |RowsFor(o.job, urls)| == |urls|
    requires (s.rows.Keys + RowsFor(o.job, urls)) - s.rows.Keys == RowsFor(o.job, urls)
    ensures Submitted(s, RecordQueued(s1, o.job, count), urls)
  {
  }

  function RowsFor(job: JobId, urls: set<Url>): set<RowKey> {
    set u | u in urls :: RowKey(job, u)
  }

  lemma FreshKeys(o: Order, seeds: seq<Seed>, seen: set<RowKey>, rows: set<RowKey>)
    requires rows <= seen && forall k :: k in seen ==> k.job != o.job
    ensures NewKeys(o, seeds, seen) == KeysOf(o, seeds) == RowsFor(o.job, DistinctUrls(seeds))
    ensures (rows + KeysOf(o, seeds)) - rows == KeysOf(o, seeds)
  {
    forall k | k in RowsFor(o.job, DistinctUrls(seeds))
      ensures k in KeysOf(o, seeds)
    {
      var seed :| seed in seeds && seed.normalized == k.url;
      assert SeedKey(o, seed) == k;
    }
  }

  // ---------------------------------------------------------------- in every run

  lemma CrawlerSeesOwnJob(cfg: Config, s: Store, p: Proc, k: RowKey)
    requires ProcOk(cfg, s, p) && k in Advance(cfg, s, p).store.seen && k !in s.seen && DutyOf(p).Crawls?
    ensures k.job in s.jobs
  {
  }

  lemma AdvanceSeesOwnJob(cfg: Config, s: Store, p: Proc, k: RowKey)
    requires ProcOk(cfg, s, p) && k in Advance(cfg, s, p).store.seen && k !in s.seen
    ensures k.job in s.jobs
  {
    if DutyOf(p).Crawls? {
      CrawlerSeesOwnJob(cfg, s, p, k);
    }
  }

  /** Only URLs of existing jobs are ever marked as seen. */
  lemma {:induction false} SeenHasJob(cfg: Config, actions: seq<Action>, k: RowKey)
    requires cfg.maxAttempts >= 1 && k in Run(cfg, INITIAL, actions).store.seen
    ensures k.job in Run(cfg, INITIAL, actions).store.jobs
  {
    if actions != [] {
      var init, a := actions[..|actions| - 1], actions[|actions| - 1];
      var m := Run(cfg, INITIAL, init);
      Guarantees.RunsKeepInv(cfg, init);
      Jobs.StatusChanges(cfg, init, a, k.job);
      if k in m.store.seen {
        SeenHasJob(cfg, init, k);
      } else {
        assert a.Progress? && a.proc < |m.procs|;
        AdvanceSeesOwnJob(cfg, m.store, m.procs[a.proc], k);
      }
    }
  }

  /** Whatever ran before: a submission that is not refused and runs undisturbed creates one row and publishes
      one message for each distinct normalized seed, and records their number as urls_queued. */
  lemma {:induction false} EverySubmissionCounts(cfg: Config, actions: seq<Action>, r: SubmitRequest)
    requires cfg.maxAttempts >= 1 && !Refused(r)
    ensures var s := Run(cfg, INITIAL, actions).store;
            Submitted(s, SubmittedAlone(cfg, s, r), DistinctUrls(r.seeds))
  {
    var s := Run(cfg, INITIAL, actions).store;
    Guarantees.RunsKeepInv(cfg, actions);
    forall k | k in s.seen
      ensures k.job != s.nextId
    {
      SeenHasJob(cfg, actions, k);
    }
    SubmissionCounts(cfg, s, r);
  }
}
