/** PostgreSQL, Redis and Kafka as the workers see them: one object, updated in place by the repository,
    dedup and producer calls. */
module Platform {
  import opened Wrappers
  import opened Events
  import opened Store

  class Platform {
    var jobs: map<JobId, Job>
    var rows: map<RowKey, Row>
    var ledger: set<Claim>
    var seen: set<RowKey>
    var held: set<Url>
    var replays: map<EventId, nat>
    var log: seq<Message>
    ghost var origin: map<EventId, RowKey>
    var nextId: nat

    constructor ()
      ensures Snapshot() == EMPTY_STORE
    {
      jobs, rows, ledger, seen, held, replays, log, origin, nextId := map[], map[], {}, {}, {}, map[], [], map[], 0;
    }

    ghost function Snapshot(): Store
      reads this
    {
      Store(jobs, rows, ledger, seen, held, replays, log, origin, nextId)
    }

    /** SqlAlchemyProcessedEventRepository.try_claim */
    method TryClaim(c: Claim) returns (claimed: bool)
      modifies this
      ensures claimed == (c !in old(ledger))
      ensures Snapshot() == if claimed then AddClaim(old(Snapshot()), c) else old(Snapshot())
    {
      claimed := c !in ledger;
      ledger := ledger + {c};
    }

    /** SqlAlchemyCrawlJobUrlRepository.ensure_queued */
    method QueueUrl(k: RowKey, depth: int) returns (inserted: bool)
      modifies this
      ensures inserted == (k !in old(rows))
      ensures Snapshot() == EnsureQueued(old(Snapshot()), k, depth)
    {
      inserted := k !in rows;
      if inserted {
        rows := rows[k := Row(depth, Queued, None, None)];
      }
    }

    /** SqlAlchemyCrawlJobUrlRepository.transition */
    method Transition(k: RowKey, status: Status, error: Option<Error>, checkpoint: Option<Checkpoint>)
      modifies this
      ensures Snapshot() == Mark(old(Snapshot()), k, status, error, checkpoint)
      ensures Snapshot() == old(Snapshot()).(rows := rows)
      ensures Transitioned(old(rows), rows, k, status, error, checkpoint)
    {
      var row;
      if k !in rows {
        row := Row(0, status, None, None);
      } else {
        row := rows[k].(status := status);
      }
      if error.Some? {
        row := row.(error := error);
      }
      if checkpoint.Some? {
        row := row.(checkpoint := checkpoint);
      }
      rows := rows[k := row];
    }

    /** UrlDedupStore.mark_seen */
    method MarkSeen(k: RowKey) returns (added: bool)
      modifies this
      ensures added == (k !in old(seen))
      ensures Snapshot() == if added then AddSeen(old(Snapshot()), k) else old(Snapshot())
    {
      added := k !in seen;
      seen := seen + {k};
    }

    /** UrlDedupStore.try_claim, between two expiries of the key */
    method TryClaimUrl(u: Url) returns (claimed: bool)
      modifies this
      ensures claimed == (u !in old(held))
      ensures Snapshot() == if claimed then Hold(old(Snapshot()), u) else old(Snapshot())
    {
      claimed := u !in held;
      held := held + {u};
    }

    /** UrlDedupStore.release */
    method ReleaseUrl(u: Url)
      modifies this
      ensures Snapshot() == Release(old(Snapshot()), u)
    {
      held := held - {u};
    }

    /** publish_event and publish_dlq, for an event that has its id already */
    method PublishEvent(m: Message)
      modifies this
      ensures Snapshot() == Publish(old(Snapshot()), m)
    {
      log := log + [m];
    }

    /** publish_event, for an event constructed with the default id */
    method PublishNewEvent(m: Message)
      modifies this
      ensures Snapshot() == PublishFresh(old(Snapshot()), m)
    {
      log := log + [m];
      origin := origin[nextId := MessageKey(m)];
      nextId := nextId + 1;
    }

    method InsertJob(job: Job) returns (id: JobId)
      modifies this
      ensures id == old(nextId) && Snapshot() == CreateJob(old(Snapshot()), job)
    {
      id := nextId;
      jobs := jobs[id := job];
      nextId := nextId + 1;
    }

    /** The last transaction of submit_job_internal. */
    method RecordUrlsQueued(j: JobId, queued: nat)
      modifies this
      ensures Snapshot() ==
              if j in old(jobs) then old(Snapshot()).(jobs := old(jobs)[j := old(jobs)[j].(urlsQueued := queued)])
              else old(Snapshot())
    {
      if j in jobs {
        jobs := jobs[j := jobs[j].(urlsQueued := queued)];
      }
    }

    /** The INCR of the DLQ replayer. */
    method IncrementReplays(e: EventId) returns (count: nat)
      modifies this
      ensures Snapshot() == CountReplay(old(Snapshot()), e) && count == ReplayCount(Snapshot(), e)
    {
      count := (if e in replays then replays[e] else 0) + 1;
      replays := replays[e := count];
    }

    /** refresh_job_status, from the counts per status */
    method RefreshJobStatus(j: JobId)
      modifies this
      ensures Snapshot() == RefreshJob(old(Snapshot()), j)
      ensures Snapshot() ==
              if j in old(jobs) && old(jobs)[j].status == Running && IsDone(rows, j)
              then old(Snapshot()).(jobs := old(jobs)[j := old(jobs)[j].(status := Completed)])
              else old(Snapshot())
    {
      DoneRows(rows, j);
      if j !in jobs || jobs[j].status != Running {
        return;
      }
      var counts := CountByStatus(rows, j);
      CountsDecide(rows, j);
      if Total(counts) == 0 {
        return;
      }
      if TerminalCount(counts) >= Total(counts) {
        jobs := jobs[j := jobs[j].(status := Completed)];
      }
    }
  }
}
