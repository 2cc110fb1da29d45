/** The shared state of the pipeline (PostgreSQL tables, Redis keys, Kafka topics) as one value, with
    the atomic effect of every call the workers make on it. */
module Store {
  import opened Wrappers
  import opened Events

  datatype Status = Queued | Claimed | Fetched | Parsed | Skipped | Failed

  predicate Terminal(st: Status) {
    st == Parsed || st == Skipped || st == Failed
  }

  datatype Checkpoint =
    | AtStage(stage: Stage)
    | Unchanged(checksum: string)
    | Stored(storageKey: string, checksum: string)

  datatype RowKey = RowKey(job: JobId, url: Url)

  /** A row of crawl_job_urls. */
  datatype Row = Row(depth: int, status: Status, error: Option<Error>, checkpoint: Option<Checkpoint>)

  datatype JobStatus = Running | Completed

  /** `incremental` is not a column: it remembers what kind of request made the job. */
  datatype Job = Job(maxDepth: int, domains: seq<string>, incremental: bool, status: JobStatus, urlsQueued: nat)

  /** A row of processed_events. */
  datatype Claim = Claim(eventId: EventId, stage: Stage)

  /** `seen` is the union of the per-job Redis sets, `held` the live global dedup keys, `replays` the
      live DLQ counters, and `log` the five topics merged in publishing order. `origin` is a history
      variable: the row each event id was drawn for. */
  datatype Store = Store(
    jobs: map<JobId, Job>,
    rows: map<RowKey, Row>,
    ledger: set<Claim>,
    seen: set<RowKey>,
    held: set<Url>,
    replays: map<EventId, nat>,
    log: seq<Message>,
    origin: map<EventId, RowKey>,
    nextId: nat)

  const EMPTY_STORE := Store(map[], map[], {}, {}, {}, map[], [], map[], 0)

  // ---------------------------------------------------------------- the row a message is about

  function KeyOf(e: UrlDiscovered): RowKey {
    RowKey(e.jobId, e.normalized)
  }

  function PageKey(e: HtmlFetched): RowKey {
    RowKey(e.jobId, e.normalized)
  }

  function ParsedKey(e: PageParsed): RowKey {
    RowKey(e.jobId, e.normalized)
  }

  function FailedKey(e: UrlFailed): RowKey {
    RowKey(e.jobId, e.normalized)
  }

  function LetterKey(letter: DeadLetter): RowKey {
    match letter
    case DeadDiscovered(e) => KeyOf(e)
    case DeadFetched(e) => PageKey(e)
    case DeadParsed(e) => ParsedKey(e)
    case DeadFailed(e) => FailedKey(e)
  }

  function MessageKey(m: Message): RowKey {
    match m
    case OnDiscovered(e, _) => KeyOf(e)
    case OnFetched(e) => PageKey(e)
    case OnParsed(e) => ParsedKey(e)
    case OnFailed(e) => FailedKey(e)
    case OnDlq(letter) => LetterKey(letter)
  }

  // ---------------------------------------------------------------- effects

  /** INSERT .. ON CONFLICT DO NOTHING into processed_events; it succeeds when the claim was absent. */
  function AddClaim(s: Store, c: Claim): Store {
    s.(ledger := s.ledger + {c})
  }

  function EnsureQueued(s: Store, k: RowKey, depth: int): Store {
    if k in s.rows then s else s.(rows := s.rows[k := Row(depth, Queued, None, None)])
  }

  /** The row `transition` leaves: a missing row is inserted at depth 0, an absent error or checkpoint
      keeps the old one. */
  function MarkedRow(rows: map<RowKey, Row>, k: RowKey, st: Status, error: Option<Error>,
                     checkpoint: Option<Checkpoint>): Row {
    var row := if k in rows then rows[k].(status := st) else Row(0, st, None, None);
    row.(error := if error.Some? then error else row.error,
         checkpoint := if checkpoint.Some? then checkpoint else row.checkpoint)
  }

  /** What a transition does to the table: the row has the status, and the error and checkpoint that came with it, if
      any; its depth stays, or is 0 for a row that was missing; every other row stays. */
  ghost predicate Transitioned(rows: map<RowKey, Row>, rows': map<RowKey, Row>, k: RowKey, st: Status,
                               error: Option<Error>, checkpoint: Option<Checkpoint>) {
    && k in rows' && rows' == rows[k := rows'[k]]
    && rows'[k].status == st
    && rows'[k].depth == (if k in rows then rows[k].depth else 0)
    && rows'[k].error == (if error.Some? then error else if k in rows then rows[k].error else None)
    && rows'[k].checkpoint == (if checkpoint.Some? then checkpoint else if k in rows then rows[k].checkpoint else None)
  }

  function Mark(s: Store, k: RowKey, st: Status, error: Option<Error>, checkpoint: Option<Checkpoint>): Store {
    s.(rows := s.rows[k := MarkedRow(s.rows, k, st, error, checkpoint)])
  }

  function AddSeen(s: Store, k: RowKey): Store {
    s.(seen := s.seen + {k})
  }

  function Hold(s: Store, u: Url): Store {
    s.(held := s.held + {u})
  }

  function Release(s: Store, u: Url): Store {
    s.(held := s.held - {u})
  }

  function Publish(s: Store, m: Message): Store {
    s.(log := s.log + [m])
  }

  /** A publication whose event draws a new id. */
  function PublishFresh(s: Store, m: Message): Store {
    s.(log := s.log + [m], origin := s.origin[s.nextId := MessageKey(m)], nextId := s.nextId + 1)
  }

  function CreateJob(s: Store, job: Job): Store {
    s.(jobs := s.jobs[s.nextId := job], nextId := s.nextId + 1)
  }

  function ReplayCount(s: Store, e: EventId): nat {
    if e in s.replays then s.replays[e] else 0
  }

  function CountReplay(s: Store, e: EventId): Store {
    s.(replays := s.replays[e := ReplayCount(s, e) + 1])
  }

  // ---------------------------------------------------------------- job completion

  function RowsOf(rows: map<RowKey, Row>, j: JobId): set<RowKey> {
    set k | k in rows.Keys && k.job == j
  }

  predicate AllTerminal(rows: map<RowKey, Row>, j: JobId) {
    forall k | k in rows && k.job == j :: Terminal(rows[k].status)
  }

  /** The job has rows, and each of them is parsed, skipped or failed. */
  ghost predicate IsDone(rows: map<RowKey, Row>, j: JobId) {
    && (exists k :: k in rows && k.job == j)
    && forall k :: k in rows && k.job == j ==> rows[k].status in {Parsed, Skipped, Failed}
  }

  lemma DoneRows(rows: map<RowKey, Row>, j: JobId)
    ensures IsDone(rows, j) <==> RowsOf(rows, j) != {} && AllTerminal(rows, j)
  {
    if RowsOf(rows, j) != {} {
      var k :| k in RowsOf(rows, j);
      assert k in rows && k.job == j;
    } else {
      assert forall k :: k in rows && k.job == j ==> k in RowsOf(rows, j);
    }
  }

  /** refresh_job_status: a running job with at least one row, all terminal, becomes completed. */
  function RefreshJob(s: Store, j: JobId): Store {
    if j in s.jobs && s.jobs[j].status == Running && RowsOf(s.rows, j) != {} && AllTerminal(s.rows, j)
    then s.(jobs := s.jobs[j := s.jobs[j].(status := Completed)])
    else s
  }

  // ---------------------------------------------------------------- counts per status

  function RowsWith(rows: map<RowKey, Row>, j: JobId, st: Status): set<RowKey> {
    set k | k in rows.Keys && k.job == j && rows[k].status == st
  }

  /** SELECT status, count(*) .. GROUP BY status: only statuses that occur. */
  function CountByStatus(rows: map<RowKey, Row>, j: JobId): map<Status, nat> {
    map st: Status | RowsWith(rows, j, st) != {} :: |RowsWith(rows, j, st)|
  }

  /** counts.get(status, 0) */
  function CountOf(counts: map<Status, nat>, st: Status): nat {
    if st in counts then counts[st] else 0
  }

  /** sum(counts.values()) */
  function Total(counts: map<Status, nat>): nat {
    CountOf(counts, Queued) + CountOf(counts, Claimed) + CountOf(counts, Fetched)
    + CountOf(counts, Parsed) + CountOf(counts, Skipped) + CountOf(counts, Failed)
  }

  function TerminalCount(counts: map<Status, nat>): nat {
    CountOf(counts, Parsed) + CountOf(counts, Skipped) + CountOf(counts, Failed)
  }

  lemma CountIsSize(rows: map<RowKey, Row>, j: JobId, st: Status)
    ensures CountOf(CountByStatus(rows, j), st) == |RowsWith(rows, j, st)|
  {
  }

  /** The first n statuses of the enumeration. */
  predicate Among(st: Status, n: nat) {
    match st
    case Queued => n >= 1
    case Claimed => n >= 2
    case Fetched => n >= 3
    case Parsed => n >= 4
    case Skipped => n >= 5
    case Failed => n >= 6
  }

  function RowsAmong(rows: map<RowKey, Row>, j: JobId, n: nat): set<RowKey> {
    set k | k in rows.Keys && k.job == j && Among(rows[k].status, n)
  }

  lemma OneMore(rows: map<RowKey, Row>, j: JobId, n: nat, st: Status)
    requires !Among(st, n) && Among(st, n + 1)
    ensures |RowsAmong(rows, j, n + 1)| == |RowsAmong(rows, j, n)| + |RowsWith(rows, j, st)|
  {
    assert forall other :: Among(other, n + 1) <==> Among(other, n) || other == st;
    assert RowsAmong(rows, j, n + 1) == RowsAmong(rows, j, n) + RowsWith(rows, j, st);
    assert RowsAmong(rows, j, n) !! RowsWith(rows, j, st);
  }

  /** The counts add up to the job's rows. */
  lemma CountsPartition(rows: map<RowKey, Row>, j: JobId)
    ensures Total(CountByStatus(rows, j)) == |RowsOf(rows, j)|
  {
    OneMore(rows, j, 0, Queued);
    OneMore(rows, j, 1, Claimed);
    OneMore(rows, j, 2, Fetched);
    OneMore(rows, j, 3, Parsed);
    OneMore(rows, j, 4, Skipped);
    OneMore(rows, j, 5, Failed);
    assert RowsAmong(rows, j, 0) == {};
    assert RowsAmong(rows, j, 6) == RowsOf(rows, j);
  }

  /** What the comparison of the two sums decides: whether every row of the job is terminal. */
  lemma CountsDecide(rows: map<RowKey, Row>, j: JobId)
    ensures Total(CountByStatus(rows, j)) == 0 <==> RowsOf(rows, j) == {}
    ensures TerminalCount(CountByStatus(rows, j)) >= Total(CountByStatus(rows, j)) <==> AllTerminal(rows, j)
  {
    CountsPartition(rows, j);
    CountIsSize(rows, j, Queued);
    CountIsSize(rows, j, Claimed);
    CountIsSize(rows, j, Fetched);
    if AllTerminal(rows, j) {
      assert RowsWith(rows, j, Queued) == {} && RowsWith(rows, j, Claimed) == {} && RowsWith(rows, j, Fetched) == {};
    } else {
      var k :| k in rows && k.job == j && !Terminal(rows[k].status);
      assert k in RowsWith(rows, j, rows[k].status);
    }
  }
}
