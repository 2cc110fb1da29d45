/** URLs that a job is offered, one after the other: the first time a URL turns up it is marked as seen, gets its row
    and is published. The scheduler does so with seeds, the crawler with links. */
module Discoveries {
  import opened Wrappers
  import opened Events
  import opened Store

  /** A URL on offer, and the depth it would be crawled at. */
  datatype Target = Target(url: string, normalized: Url, depth: int)

  /** What all discoveries of one batch have in common. */
  datatype Terms = Terms(job: JobId, maxDepth: int, domains: seq<string>, force: bool, via: Via)

  /** The message for a target: first attempt, on the terms of the batch. */
  function DiscoveryOf(t: Terms, x: Target, id: EventId): Message {
    OnDiscovered(UrlDiscovered(
      eventId := id, jobId := t.job, url := x.url, normalized := x.normalized, attempt := 1, depth := x.depth,
      maxDepth := t.maxDepth, domains := t.domains, force := t.force), t.via)
  }

  // ---------------------------------------------------------------- which targets are new

  /** The keys of the targets from a position on. */
  function KeysFrom(job: JobId, xs: seq<Target>, from: nat): set<RowKey> {
    set i | from <= i < |xs| :: RowKey(job, xs[i].normalized)
  }

  /** The job has not seen the URL of target i, nor does a target before it have that URL. */
  predicate FirstSeen(job: JobId, xs: seq<Target>, from: nat, seen: set<RowKey>, i: nat) {
    && from <= i < |xs| && RowKey(job, xs[i].normalized) !in seen
    && forall j :: from <= j < i ==> xs[j].normalized != xs[i].normalized
  }

  /** The positions of those targets, in order. */
  ghost predicate Picked(job: JobId, xs: seq<Target>, from: nat, seen: set<RowKey>, picks: seq<nat>) {
    && (forall a, b :: 0 <= a < b < |picks| ==> picks[a] < picks[b])
    && (forall i: nat :: i in picks <==> FirstSeen(job, xs, from, seen, i))
  }

  lemma SkipPicks(job: JobId, xs: seq<Target>, from: nat, seen: set<RowKey>, picks: seq<nat>)
    requires from < |xs| && RowKey(job, xs[from].normalized) in seen
    requires Picked(job, xs, from + 1, seen, picks)
    ensures Picked(job, xs, from, seen, picks)
  {
    forall i: nat
      ensures FirstSeen(job, xs, from, seen, i) <==> FirstSeen(job, xs, from + 1, seen, i)
    {
    }
  }

  lemma TakePick(job: JobId, xs: seq<Target>, from: nat, seen: set<RowKey>, picks: seq<nat>, all: seq<nat>)
    requires from < |xs| && RowKey(job, xs[from].normalized) !in seen
    requires Picked(job, xs, from + 1, seen + {RowKey(job, xs[from].normalized)}, picks)
    requires all == [from] + picks
    ensures Picked(job, xs, from, seen, all)
  {
    var k := RowKey(job, xs[from].normalized);
    forall i: nat
      ensures i in all <==> FirstSeen(job, xs, from, seen, i)
    {
      assert i in all <==> i == from || i in picks;
      assert i in picks <==> FirstSeen(job, xs, from + 1, seen + {k}, i);
    }
    forall a, b | 0 <= a < b < |all|
      ensures all[a] < all[b]
    {
      assert all[b] == picks[b - 1];
      assert picks[b - 1] in picks;
      if a > 0 {
        assert all[a] == picks[a - 1];
      }
    }
  }

  /** There is such a list of positions. */
  lemma {:induction false} SomePicks(job: JobId, xs: seq<Target>, from: nat, seen: set<RowKey>)
    returns (picks: seq<nat>)
    requires from <= |xs|
    ensures Picked(job, xs, from, seen, picks)
    decreases |xs| - from
  {
    if from == |xs| {
      return [];
    }
    var k := RowKey(job, xs[from].normalized);
    if k in seen {
      picks := SomePicks(job, xs, from + 1, seen);
      SkipPicks(job, xs, from, seen, picks);
    } else {
      var rest := SomePicks(job, xs, from + 1, seen + {k});
      picks := [from] + rest;
      TakePick(job, xs, from, seen, rest, picks);
    }
  }

  // ---------------------------------------------------------------- what becomes of them

  function PickedKeys(job: JobId, xs: seq<Target>, picks: seq<nat>): set<RowKey> {
    set i | i in picks && i < |xs| :: RowKey(job, xs[i].normalized)
  }

  /** New rows for the picked targets that had none; every row there was is as before, and there are no others. */
  ghost predicate RowsQueued(rows: map<RowKey, Row>, rows': map<RowKey, Row>, job: JobId, xs: seq<Target>,
                             picks: seq<nat>) {
    && rows'.Keys == rows.Keys + PickedKeys(job, xs, picks)
    && (forall k :: k in rows ==> rows'[k] == rows[k])
    && (forall i :: i in picks && i < |xs| && RowKey(job, xs[i].normalized) !in rows ==>
          rows'[RowKey(job, xs[i].normalized)] == Row(xs[i].depth, Queued, None, None))
  }

  /** One message for each picked target, in order, with consecutive new ids. */
  ghost predicate Announces(t: Terms, xs: seq<Target>, picks: seq<nat>, id: EventId, out: seq<Message>) {
    && |out| == |picks|
    && forall n :: 0 <= n < |picks| ==> picks[n] < |xs| && out[n] == DiscoveryOf(t, xs[picks[n]], id + n)
  }

  /** The targets from a position on were offered: all are seen now, and each URL that was not has its row and its
      message; nothing else changed. */
  ghost predicate AllOffered(s: Store, s': Store, t: Terms, xs: seq<Target>, from: nat, picks: seq<nat>) {
    && s'.seen == s.seen + KeysFrom(t.job, xs, from)
    && RowsQueued(s.rows, s'.rows, t.job, xs, picks)
    && s.log <= s'.log && Announces(t, xs, picks, s.nextId, s'.log[|s.log|..])
    && s'.nextId == s.nextId + |picks|
    && s' == s.(rows := s'.rows, seen := s'.seen, log := s'.log, nextId := s'.nextId, origin := s'.origin)
  }

  /** One target, which the job had not seen. */
  ghost predicate OneOffered(s: Store, s1: Store, t: Terms, x: Target) {
    var k := RowKey(t.job, x.normalized);
    && s1.seen == s.seen + {k}
    && s1.rows == (if k in s.rows then s.rows else s.rows[k := Row(x.depth, Queued, None, None)])
    && s1.log == s.log + [DiscoveryOf(t, x, s.nextId)]
    && s1.nextId == s.nextId + 1
    && s1 == s.(rows := s1.rows, seen := s1.seen, log := s1.log, nextId := s1.nextId, origin := s1.origin)
  }

  lemma NothingOffered(s: Store, t: Terms, xs: seq<Target>)
    ensures Picked(t.job, xs, |xs|, s.seen, []) && AllOffered(s, s, t, xs, |xs|, [])
  {
  }

  lemma KeysAhead(job: JobId, xs: seq<Target>, from: nat)
    requires from < |xs|
    ensures KeysFrom(job, xs, from) == KeysFrom(job, xs, from + 1) + {RowKey(job, xs[from].normalized)}
  {
  }

  lemma LogAhead(log: seq<Message>, log1: seq<Message>, log': seq<Message>, m: Message)
    requires log1 == log + [m] && log1 <= log'
    ensures log <= log' && log'[|log|..] == [m] + log'[|log1|..]
  {
    assert log'[|log|] == log1[|log|];
  }

  lemma SeenOffered(s: Store, s': Store, t: Terms, xs: seq<Target>, from: nat, picks: seq<nat>)
    requires from < |xs| && RowKey(t.job, xs[from].normalized) in s.seen
    requires AllOffered(s, s', t, xs, from + 1, picks)
    ensures AllOffered(s, s', t, xs, from, picks)
  {
    KeysAhead(t.job, xs, from);
  }

  lemma RowsQueuedMore(rows: map<RowKey, Row>, rows1: map<RowKey, Row>, rows': map<RowKey, Row>, job: JobId,
                       xs: seq<Target>, from: nat, seen1: set<RowKey>, picks: seq<nat>, all: seq<nat>)
    requires from < |xs| && all == [from] + picks
    requires Picked(job, xs, from + 1, seen1, picks) && RowKey(job, xs[from].normalized) in seen1
    requires var k := RowKey(job, xs[from].normalized);
             rows1 == if k in rows then rows else rows[k := Row(xs[from].depth, Queued, None, None)]
    requires RowsQueued(rows1, rows', job, xs, picks)
    ensures RowsQueued(rows, rows', job, xs, all)
  {
    assert PickedKeys(job, xs, all) == PickedKeys(job, xs, picks) + {RowKey(job, xs[from].normalized)};
    forall i | i in all && i < |xs| && RowKey(job, xs[i].normalized) !in rows
      ensures rows'[RowKey(job, xs[i].normalized)] == Row(xs[i].depth, Queued, None, None)
    {
      if i != from {
        assert i in picks && FirstSeen(job, xs, from + 1, seen1, i);
      }
    }
  }

  lemma AnnouncesMore(t: Terms, xs: seq<Target>, from: nat, picks: seq<nat>, all: seq<nat>, id: EventId,
                      out: seq<Message>, out': seq<Message>)
    requires from < |xs| && all == [from] + picks && Announces(t, xs, picks, id + 1, out)
    requires out' == [DiscoveryOf(t, xs[from], id)] + out
    ensures Announces(t, xs, all, id, out')
  {
    forall n | 0 <= n < |all|
      ensures all[n] < |xs| && out'[n] == DiscoveryOf(t, xs[all[n]], id + n)
    {
      if n > 0 {
        assert all[n] == picks[n - 1] && out'[n] == out[n - 1];
      }
    }
  }

  lemma AnnouncedMore(t: Terms, xs: seq<Target>, from: nat, picks: seq<nat>, all: seq<nat>, id: EventId, id1: EventId,
                      log: seq<Message>, log1: seq<Message>, log': seq<Message>)
    requires from < |xs| && all == [from] + picks && id1 == id + 1
    requires log1 == log + [DiscoveryOf(t, xs[from], id)] && log1 <= log'
    requires Announces(t, xs, picks, id1, log'[|log1|..])
    ensures log <= log' && Announces(t, xs, all, id, log'[|log|..])
  {
    LogAhead(log, log1, log', DiscoveryOf(t, xs[from], id));
    AnnouncesMore(t, xs, from, picks, all, id, log'[|log1|..], log'[|log|..]);
  }

  /** One new target, and then the rest. */
  lemma NewOffered(s: Store, s1: Store, s': Store, t: Terms, xs: seq<Target>, from: nat, picks: seq<nat>, all: seq<nat>)
    requires from < |xs| && RowKey(t.job, xs[from].normalized) !in s.seen && all == [from] + picks
    requires OneOffered(s, s1, t, xs[from]) && Picked(t.job, xs, from + 1, s1.seen, picks)
    requires AllOffered(s1, s', t, xs, from + 1, picks)
    ensures AllOffered(s, s', t, xs, from, all)
  {
    RowsQueuedMore(s.rows, s1.rows, s'.rows, t.job, xs, from, s1.seen, picks, all);
    KeysAhead(t.job, xs, from);
    AnnouncedMore(t, xs, from, picks, all, s.nextId, s1.nextId, s.log, s1.log, s'.log);
  }

  // ---------------------------------------------------------------- one message each

  /** Exactly one of the messages is about the key, and it is a discovery of that kind. */
  ghost predicate AnnouncedOnce(out: seq<Message>, k: RowKey, via: Via) {
    exists n :: 0 <= n < |out| && out[n].OnDiscovered? && out[n].via == via && MessageKey(out[n]) == k
                && forall m :: 0 <= m < |out| && MessageKey(out[m]) == k ==> m == n
  }

  lemma {:induction false} FirstWithUrl(xs: seq<Target>, i: nat) returns (first: nat)
    requires i < |xs|
    ensures first <= i && xs[first].normalized == xs[i].normalized
    ensures forall j :: 0 <= j < first ==> xs[j].normalized != xs[i].normalized
  {
    first := i;
    if j :| 0 <= j < i && xs[j].normalized == xs[i].normalized {
      first := FirstWithUrl(xs, j);
    }
  }

  /** The position in picks of the first target with the URL of target i. */
  lemma PickOf(job: JobId, xs: seq<Target>, seen: set<RowKey>, picks: seq<nat>, i: nat) returns (n: nat)
    requires Picked(job, xs, 0, seen, picks) && i < |xs| && RowKey(job, xs[i].normalized) !in seen
    ensures n < |picks| && picks[n] < |xs| && xs[picks[n]].normalized == xs[i].normalized
    ensures forall m :: 0 <= m < |picks| && picks[m] < |xs| && xs[picks[m]].normalized == xs[i].normalized ==> m == n
  {
    var first := FirstWithUrl(xs, i);
    assert FirstSeen(job, xs, 0, seen, first);
    n :| n < |picks| && picks[n] == first;
    forall m | 0 <= m < |picks| && picks[m] < |xs| && xs[picks[m]].normalized == xs[i].normalized
      ensures m == n
    {
      assert picks[m] in picks && FirstSeen(job, xs, 0, seen, picks[m]);
      assert picks[m] == first;
    }
  }

  lemma DiscoveryKey(t: Terms, x: Target, id: EventId, m: Message)
    requires m == DiscoveryOf(t, x, id)
    ensures m.OnDiscovered? && m.via == t.via && MessageKey(m) == RowKey(t.job, x.normalized)
  {
  }

  lemma AnnouncesOnce(t: Terms, xs: seq<Target>, seen: set<RowKey>, picks: seq<nat>, id: EventId, out: seq<Message>,
                      i: nat)
    requires Picked(t.job, xs, 0, seen, picks) && Announces(t, xs, picks, id, out)
    requires i < |xs| && RowKey(t.job, xs[i].normalized) !in seen
    ensures AnnouncedOnce(out, RowKey(t.job, xs[i].normalized), t.via)
  {
    var n := PickOf(t.job, xs, seen, picks, i);
    DiscoveryKey(t, xs[picks[n]], id + n, out[n]);
    forall m | 0 <= m < |out| && MessageKey(out[m]) == RowKey(t.job, xs[i].normalized)
      ensures m == n
    {
      DiscoveryKey(t, xs[picks[m]], id + m, out[m]);
    }
  }

  /** Each URL that was new to the job has a row afterwards and was announced exactly once. */
  lemma {:induction false} OfferedOnce(s: Store, s': Store, t: Terms, xs: seq<Target>, picks: seq<nat>, i: nat)
    requires Picked(t.job, xs, 0, s.seen, picks) && AllOffered(s, s', t, xs, 0, picks)
    requires i < |xs| && RowKey(t.job, xs[i].normalized) !in s.seen
    ensures RowKey(t.job, xs[i].normalized) in s'.rows
    ensures AnnouncedOnce(s'.log[|s.log|..], RowKey(t.job, xs[i].normalized), t.via)
  {
    AnnouncesOnce(t, xs, s.seen, picks, s.nextId, s'.log[|s.log|..], i);
    var n := PickOf(t.job, xs, s.seen, picks, i);
    assert picks[n] in picks;
  }
}
