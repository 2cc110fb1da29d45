/** Job status and progress: what `completed` and `100.0` mean. */
module Jobs {
  import opened Events
  import opened Store
  import opened Handlers
  import opened Machine
  import opened Lineage
  import Guarantees

  // ---------------------------------------------------------------- progress

  /** terminal / total * 100, or 0 for a job without rows. */
  function Percent(counts: map<Status, nat>): real {
    if Total(counts) > 0 then TerminalCount(counts) as real / Total(counts) as real * 100.0 else 0.0
  }

  /** round(x, 1), in tenths: to the nearest, ties to even. */
  function RoundToTenths(x: real): int {
    var down := (10.0 * x).Floor;
    var rest := 10.0 * x - down as real;
    if rest < 0.5 || (rest == 0.5 && down % 2 == 0) then down else down + 1
  }

  /** progress_percent, in tenths. */
  function ProgressTenths(rows: map<RowKey, Row>, j: JobId): int {
    var percent := Percent(CountByStatus(rows, j));
    RoundToTenths(if percent <= 100.0 then percent else 100.0)
  }

  lemma RoundsToThousand(x: real)
    requires 0.0 <= x <= 100.0
    ensures 0 <= RoundToTenths(x) <= 1000
    ensures RoundToTenths(x) == 1000 <==> 10.0 * x >= 999.5
  {
  }

  lemma PercentOf(terminal: nat, total: nat)
    requires terminal <= total && total > 0
    ensures 0.0 <= terminal as real / total as real * 100.0 <= 100.0
    ensures 10.0 * (terminal as real / total as real * 100.0) >= 999.5 <==> 2000 * (total - terminal) <= total
  {
    var x, t := terminal as real, total as real;
    RatioBelow(x, t, 1.0);
    RatioAbove(x, t, 0.0);
    RatioAbove(x, t, 0.9995);
    assert 2000.0 * (t - x) <= t <==> 2000 * (total - terminal) <= total;
  }

  lemma RatioAbove(x: real, t: real, c: real)
    requires t > 0.0
    ensures x / t >= c <==> x >= c * t
  {
    var ratio := x / t;
    assert ratio * t == x;
    ScaleReal(t, c, ratio);
  }

  lemma RatioBelow(x: real, t: real, c: real)
    requires t > 0.0
    ensures x / t <= c <==> x <= c * t
  {
    var ratio := x / t;
    assert ratio * t == x;
    ScaleReal(t, ratio, c);
  }

  lemma ScaleReal(factor: real, a: real, b: real)
    requires factor > 0.0
    ensures a <= b <==> a * factor <= b * factor
  {
  }

  /** The rows of a job that are not terminal. */
  function Unfinished(rows: map<RowKey, Row>, j: JobId): set<RowKey> {
    set k | k in rows.Keys && k.job == j && !Terminal(rows[k].status)
  }

  lemma UnfinishedCount(rows: map<RowKey, Row>, j: JobId)
    ensures TerminalCount(CountByStatus(rows, j)) + |Unfinished(rows, j)| == |RowsOf(rows, j)|
  {
    OneMore(rows, j, 0, Queued);
    OneMore(rows, j, 1, Claimed);
    OneMore(rows, j, 2, Fetched);
    assert RowsAmong(rows, j, 0) == {};
    assert RowsAmong(rows, j, 3) == Unfinished(rows, j);
    CountsPartition(rows, j);
    CountIsSize(rows, j, Queued);
    CountIsSize(rows, j, Claimed);
    CountIsSize(rows, j, Fetched);
  }

  /** Progress stays within [0, 100], and shows 100.0 exactly when the job has rows of which at most one in
      2000 is not terminal. */
  lemma ShowsHundred(rows: map<RowKey, Row>, j: JobId)
    ensures 0 <= ProgressTenths(rows, j) <= 1000
    ensures ProgressTenths(rows, j) == 1000 <==>
            RowsOf(rows, j) != {} && 2000 * |Unfinished(rows, j)| <= |RowsOf(rows, j)|
  {
    UnfinishedCount(rows, j);
    CountsPartition(rows, j);
    var counts := CountByStatus(rows, j);
    if Total(counts) > 0 {
      PercentOf(TerminalCount(counts), Total(counts));
      RoundsToThousand(Percent(counts));
    }
  }

  /** Rounding goes to the nearest tenth, from the middle of two to the even one. */
  lemma RoundsToNearest(x: real)
    ensures var tenths := RoundToTenths(x) as real;
            -0.5 <= tenths - 10.0 * x <= 0.5
    ensures RoundToTenths(x) as real - 10.0 * x in {-0.5, 0.5} ==> RoundToTenths(x) % 2 == 0
  {
  }

  lemma Distance(a: real, b: real, t: real)
    ensures (a - 10.0 * b) * t == a * t - 10.0 * (b * t)
  {
  }

  lemma Halves(y: real, t: real, p: real)
    requires t > 0.0 && p == y * t
    ensures -0.5 <= y <= 0.5 ==> -t <= 2.0 * p <= t
    ensures 2.0 * p == t ==> y == 0.5
    ensures 2.0 * p == -t ==> y == -0.5
  {
    ScaleReal(t, -0.5, y);
    ScaleReal(t, y, -0.5);
    ScaleReal(t, y, 0.5);
    ScaleReal(t, 0.5, y);
  }

  lemma PercentTimes(terminal: real, t: real, x: real)
    requires t > 0.0 && x == terminal / t * 100.0
    ensures x * t == 100.0 * terminal
  {
    var ratio := terminal / t;
    assert ratio * t == terminal;
  }

  lemma WholeProduct(a: int, b: int, p: int)
    requires p == a * b
    ensures a as real * b as real == p as real
  {
  }

  /** The same in whole numbers. */
  lemma NearestOf(terminal: int, total: int, tenths: int, x: real, product: int)
    requires total > 0 && x == terminal as real / total as real * 100.0 && product == tenths * total
    requires -0.5 <= tenths as real - 10.0 * x <= 0.5
    requires tenths as real - 10.0 * x in {-0.5, 0.5} ==> tenths % 2 == 0
    ensures -total <= 2 * product - 2000 * terminal <= total
    ensures 2 * product - 2000 * terminal in {-total, total} ==> tenths % 2 == 0
  {
    PercentTimes(terminal as real, total as real, x);
    Distance(tenths as real, x, total as real);
    WholeProduct(tenths, total, product);
    Halves(tenths as real - 10.0 * x, total as real, product as real - 1000.0 * terminal as real);
  }

  /** The tenths shown differ from 1000 * terminal / total by at most one half, and in the middle they are even; a job
      without rows shows 0. */
  lemma ShowsNearestTenth(rows: map<RowKey, Row>, j: JobId)
    ensures var tenths, total: int := ProgressTenths(rows, j), |RowsOf(rows, j)|;
            var terminal: int := total - |Unfinished(rows, j)|;
            && (total == 0 ==> tenths == 0)
            && -total <= 2 * (tenths * total) - 2000 * terminal <= total
            && (2 * (tenths * total) - 2000 * terminal in {-total, total} && total > 0 ==> tenths % 2 == 0)
  {
    UnfinishedCount(rows, j);
    CountsPartition(rows, j);
    var counts := CountByStatus(rows, j);
    if Total(counts) > 0 {
      PercentOf(TerminalCount(counts), Total(counts));
      RoundsToNearest(Percent(counts));
      NearestOf(TerminalCount(counts), Total(counts), ProgressTenths(rows, j), Percent(counts),
                ProgressTenths(rows, j) * Total(counts));
    }
  }

  /** With fewer than 2000 rows, 100.0 means that all are terminal. */
  lemma HundredMeansDone(rows: map<RowKey, Row>, j: JobId)
    requires 1 <= |RowsOf(rows, j)| < 2000
    ensures ProgressTenths(rows, j) == 1000 <==> AllTerminal(rows, j)
  {
    ShowsHundred(rows, j);
    if AllTerminal(rows, j) {
      assert Unfinished(rows, j) == {};
    } else {
      var k :| k in rows && k.job == j && !Terminal(rows[k].status);
      assert k in Unfinished(rows, j);
    }
  }

  // ---------------------------------------------------------------- completion

  /** What one step may do to a job: nothing, or complete it when it has rows and all are terminal. */
  ghost predicate JobStep(s: Store, s': Store, j: JobId) {
    j in s.jobs ==>
      && j in s'.jobs
      && (s'.jobs[j].status == s.jobs[j].status ||
            (s.jobs[j].status == Running && s'.jobs[j].status == Completed &&
             RowsOf(s'.rows, j) != {} && AllTerminal(s'.rows, j)))
  }

  lemma CrawlerKeepsJob(cfg: Config, s: Store, p: Proc, j: JobId)
    requires DutyOf(p).Crawls?
    ensures JobStep(s, Advance(cfg, s, p).store, j)
  {
  }

  lemma CleanerJob(cfg: Config, s: Store, p: Proc, j: JobId)
    requires DutyOf(p).Cleans?
    ensures JobStep(s, Advance(cfg, s, p).store, j)
  {
  }

  lemma SubmissionStepJob(cfg: Config, s: Store, p: Proc, j: JobId)
    requires DutyOf(p).Submits?
    ensures JobStep(s, Advance(cfg, s, p).store, j)
  {
  }

  lemma AdvanceJob(cfg: Config, s: Store, p: Proc, j: JobId)
    ensures JobStep(s, Advance(cfg, s, p).store, j)
  {
    match DutyOf(p)
    case Crawls(_) => CrawlerKeepsJob(cfg, s, p, j);
    case Cleans(_) => CleanerJob(cfg, s, p, j);
    case Submits(_) => SubmissionStepJob(cfg, s, p, j);
    case _ =>
  }

  lemma DeliverJob(s: Store, m: Message, input: Input, j: JobId)
    ensures JobStep(s, Deliver(s, m, input).store, j)
  {
  }

  lemma SubmissionJob(s: Store, r: SubmitRequest, j: JobId)
    requires j in s.jobs ==> j < s.nextId
    ensures JobStep(s, Submit(s, r).store, j)
  {
  }

  /** In every run a job's status changes only from running to completed, only when at that moment it has
      rows and all of them are terminal. */
  lemma {:induction false} StatusChanges(cfg: Config, actions: seq<Action>, a: Action, j: JobId)
    requires cfg.maxAttempts >= 1
    ensures JobStep(Run(cfg, INITIAL, actions).store, Apply(cfg, Run(cfg, INITIAL, actions), a).store, j)
  {
    var m := Run(cfg, INITIAL, actions);
    Guarantees.RunsKeepInv(cfg, actions);
    match a
    case Submission(r) => SubmissionJob(m.store, r, j);
    case Delivery(i, input) =>
      if i < |m.store.log| { DeliverJob(m.store, m.store.log[i], input, j); }
    case Progress(i) =>
      if i < |m.procs| { AdvanceJob(cfg, m.store, m.procs[i], j); }
    case _ =>
  }

  /** A completed job stays completed, whatever happens to its rows. */
  lemma {:induction false} CompletedForever(cfg: Config, actions: seq<Action>, more: seq<Action>, j: JobId)
    requires cfg.maxAttempts >= 1
    requires var s := Run(cfg, INITIAL, actions).store; j in s.jobs && s.jobs[j].status == Completed
    ensures var s := Run(cfg, INITIAL, actions + more).store; j in s.jobs && s.jobs[j].status == Completed
  {
    if more == [] {
      assert actions + more == actions;
    } else {
      var init, last := more[..|more| - 1], more[|more| - 1];
      CompletedForever(cfg, actions, init, j);
      assert (actions + more)[..|actions + more| - 1] == actions + init;
      StatusChanges(cfg, actions + init, last, j);
    }
  }
}
