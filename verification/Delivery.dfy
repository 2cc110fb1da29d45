/** One ledgered stage as a consumer group: partitions with committed offsets, workers that poll, claim,
    run the handler body and commit, crashes at any point and rebalances at any moment. */
module Delivery {
  import opened Wrappers
  import opened Events
  import opened Links

  /** A partition: its messages, the group's committed offset, and the consumer it is assigned to with
      that consumer's position. */
  datatype Partition = Partition(events: seq<EventId>, committed: nat, owner: Option<nat>, position: nat)

  /** A worker handles one message at a time: the loop awaits the handler before it polls again. */
  datatype Phase =
    | Polling
    | Delivered(p: nat, at: nat, event: EventId)
    | InBody(p: nat, at: nat, event: EventId)
    | Returned(p: nat, at: nat, event: EventId)

  /** The last four fields are history: the offsets whose handler returned, and the events whose body was
      entered (in order), ran to its end, or was cut off by a crash. */
  datatype Group = Group(
    partitions: seq<Partition>, workers: seq<Phase>, ledger: set<EventId>,
    returned: set<(nat, nat)>, entered: seq<EventId>, completed: set<EventId>, lost: set<EventId>)

  datatype Act =
    | Produce(p: nat, event: EventId)
    | Assign(p: nat, w: nat)
    | Poll(w: nat, p: nat)
    | TryClaim(w: nat)
    | Finish(w: nat)
    | Commit(w: nat)
    | CrashWorker(w: nat)

  function Start(partitions: nat, workers: nat): Group {
    Group(seq(partitions, _ => Partition([], 0, None, 0)), seq(workers, _ => Polling), {}, {}, [], {}, {})
  }

  function WithPhase(g: Group, w: nat, phase: Phase): Group
    requires w < |g.workers|
  {
    g.(workers := g.workers[w := phase])
  }

  /** commit() takes no argument: it stores the positions of every partition the consumer now holds. */
  function CommitAll(ps: seq<Partition>, w: nat): (r: seq<Partition>)
    ensures |r| == |ps|
    ensures forall i :: 0 <= i < |ps| ==>
      r[i] == if ps[i].owner == Some(w) then ps[i].(committed := ps[i].position) else ps[i]
  {
    seq(|ps|, i requires 0 <= i < |ps| =>
      if ps[i].owner == Some(w) then ps[i].(committed := ps[i].position) else ps[i])
  }

  /** A dead consumer holds no partition. */
  function Orphaned(ps: seq<Partition>, w: nat): (r: seq<Partition>)
    ensures |r| == |ps|
    ensures forall i :: 0 <= i < |ps| ==> r[i] == if ps[i].owner == Some(w) then ps[i].(owner := None) else ps[i]
  {
    seq(|ps|, i requires 0 <= i < |ps| => if ps[i].owner == Some(w) then ps[i].(owner := None) else ps[i])
  }

  function DoProduce(g: Group, p: nat, e: EventId): Group {
    if p >= |g.partitions| then g
    else g.(partitions := g.partitions[p := g.partitions[p].(events := g.partitions[p].events + [e])])
  }

  /** A partition's new consumer starts from the committed offset. */
  function DoAssign(g: Group, p: nat, w: nat): Group {
    if p >= |g.partitions| || w >= |g.workers| then g
    else
      var part := g.partitions[p];
      g.(partitions := g.partitions[p := part.(owner := Some(w), position := part.committed)])
  }

  predicate CanPoll(g: Group, w: nat, p: nat) {
    && w < |g.workers| && p < |g.partitions| && g.workers[w].Polling?
    && g.partitions[p].owner == Some(w) && g.partitions[p].position < |g.partitions[p].events|
  }

  function DoPoll(g: Group, w: nat, p: nat): Group {
    if !CanPoll(g, w, p) then g
    else
      var part := g.partitions[p];
      WithPhase(g, w, Delivered(p, part.position, part.events[part.position]))
        .(partitions := g.partitions[p := part.(position := part.position + 1)])
  }

  /** The claim transaction: a handler that finds its event claimed returns without running its body. */
  function DoClaim(g: Group, w: nat): Group {
    if w >= |g.workers| || !g.workers[w].Delivered? then g
    else
      var d := g.workers[w];
      if d.event in g.ledger then
        WithPhase(g, w, Returned(d.p, d.at, d.event)).(returned := g.returned + {(d.p, d.at)})
      else
        WithPhase(g, w, InBody(d.p, d.at, d.event))
          .(ledger := g.ledger + {d.event}, entered := g.entered + [d.event])
  }

  function DoFinish(g: Group, w: nat): Group {
    if w >= |g.workers| || !g.workers[w].InBody? then g
    else
      var d := g.workers[w];
      WithPhase(g, w, Returned(d.p, d.at, d.event))
        .(returned := g.returned + {(d.p, d.at)}, completed := g.completed + {d.event})
  }

  function DoCommit(g: Group, w: nat): Group {
    if w >= |g.workers| || !g.workers[w].Returned? then g
    else WithPhase(g, w, Polling).(partitions := CommitAll(g.partitions, w))
  }

  /** A crash, or an exception that leaves the handler and ends the consumer loop. */
  function DoCrash(g: Group, w: nat): Group {
    if w >= |g.workers| then g
    else
      WithPhase(g, w, Polling)
        .(partitions := Orphaned(g.partitions, w),
          lost := if g.workers[w].InBody? then g.lost + {g.workers[w].event} else g.lost)
  }

  function Do(g: Group, a: Act): Group {
    match a
    case Produce(p, e) => DoProduce(g, p, e)
    case Assign(p, w) => DoAssign(g, p, w)
    case Poll(w, p) => DoPoll(g, w, p)
    case TryClaim(w) => DoClaim(g, w)
    case Finish(w) => DoFinish(g, w)
    case Commit(w) => DoCommit(g, w)
    case CrashWorker(w) => DoCrash(g, w)
  }

  function History(g: Group, acts: seq<Act>): Group {
    if acts == [] then g else Do(History(g, acts[..|acts| - 1]), acts[|acts| - 1])
  }

  // ---------------------------------------------------------------- what every step keeps

  /** Worker w is still handling the message at (p, at). */
  predicate Handling(phase: Phase, p: nat, at: nat) {
    (phase.Delivered? || phase.InBody?) && phase.p == p && phase.at == at
  }

  /** Behind a committed offset, and behind the position of the consumer that would commit it, every handler
      has returned, but for the one that consumer is in. */
  ghost predicate PartitionOk(g: Group, p: nat)
    requires p < |g.partitions|
  {
    var part := g.partitions[p];
    && part.committed <= |part.events| && part.position <= |part.events|
    && (forall i :: 0 <= i < part.committed ==> (p, i) in g.returned)
    && (part.owner.Some? ==>
          && part.owner.value < |g.workers|
          && forall i :: 0 <= i < part.position ==>
               (p, i) in g.returned || Handling(g.workers[part.owner.value], p, i))
  }

  /** What a worker holds is a message of its partition, in the ledger once claimed. */
  predicate PhaseOk(g: Group, phase: Phase) {
    phase.Polling? ||
      (&& phase.p < |g.partitions| && phase.at < |g.partitions[phase.p].events|
       && g.partitions[phase.p].events[phase.at] == phase.event
       && (phase.InBody? ==> phase.event in g.ledger && phase.event !in g.completed && phase.event !in g.lost)
       && (phase.Returned? ==> (phase.p, phase.at) in g.returned))
  }

  ghost predicate ReturnedOk(g: Group) {
    forall p: nat, i: nat :: (p, i) in g.returned ==>
      p < |g.partitions| && i < |g.partitions[p].events| && g.partitions[p].events[i] in g.ledger
  }

  ghost predicate Running(g: Group, e: EventId) {
    exists w :: 0 <= w < |g.workers| && g.workers[w].InBody? && g.workers[w].event == e
  }

  /** Every claimed event met exactly one of three fates. */
  ghost predicate FatesOk(g: Group) {
    && (forall e :: e in g.ledger <==> e in g.completed || e in g.lost || Running(g, e))
    && g.completed !! g.lost
    && (forall v, w :: 0 <= v < w < |g.workers| && g.workers[v].InBody? && g.workers[w].InBody? ==>
          g.workers[v].event != g.workers[w].event)
  }

  ghost predicate EnteredOk(g: Group) {
    NoRepeats(g.entered) && forall e :: e in g.entered <==> e in g.ledger
  }

  ghost predicate GroupOk(g: Group) {
    && (forall p :: 0 <= p < |g.partitions| ==> PartitionOk(g, p))
    && (forall w :: 0 <= w < |g.workers| ==> PhaseOk(g, g.workers[w]))
    && ReturnedOk(g) && FatesOk(g) && EnteredOk(g)
  }

  lemma ProduceOk(g: Group, p: nat, e: EventId)
    requires GroupOk(g)
    ensures GroupOk(DoProduce(g, p, e))
  {
    var g' := DoProduce(g, p, e);
    assert forall w :: 0 <= w < |g.workers| ==> PhaseOk(g, g.workers[w]) && PhaseOk(g', g.workers[w]);
    forall q | 0 <= q < |g.partitions|
      ensures PartitionOk(g', q)
    {
      assert PartitionOk(g, q);
    }
    assert forall x :: Running(g', x) <==> Running(g, x);
  }

  lemma AssignOk(g: Group, p: nat, w: nat)
    requires GroupOk(g)
    ensures GroupOk(DoAssign(g, p, w))
  {
    var g' := DoAssign(g, p, w);
    assert forall v :: 0 <= v < |g.workers| ==> PhaseOk(g, g.workers[v]) && PhaseOk(g', g.workers[v]);
    forall q | 0 <= q < |g.partitions|
      ensures PartitionOk(g', q)
    {
      assert PartitionOk(g, q);
    }
    assert forall x :: Running(g', x) <==> Running(g, x);
  }

  /** Nothing changes about who is in a body when a worker outside one changes its phase to another such. */
  lemma SameRunning(g: Group, g': Group, w: nat)
    requires w < |g.workers| == |g'.workers| && g'.workers == g.workers[w := g'.workers[w]]
    requires !g.workers[w].InBody? && !g'.workers[w].InBody?
    ensures forall e :: Running(g', e) <==> Running(g, e)
  {
    forall e | Running(g, e)
      ensures Running(g', e)
    {
      var v :| 0 <= v < |g.workers| && g.workers[v].InBody? && g.workers[v].event == e;
      assert g'.workers[v].InBody? && g'.workers[v].event == e;
    }
  }

  lemma PollOk(g: Group, w: nat, p: nat)
    requires GroupOk(g)
    ensures GroupOk(DoPoll(g, w, p))
  {
    if CanPoll(g, w, p) {
      var g' := DoPoll(g, w, p);
      SameRunning(g, g', w);
      assert PartitionOk(g, p) && PartitionOk(g', p);
      assert forall q :: 0 <= q < |g.partitions| && q != p ==> PartitionOk(g, q) && PartitionOk(g', q);
      assert forall v :: 0 <= v < |g.workers| && v != w ==> PhaseOk(g, g.workers[v]) && PhaseOk(g', g'.workers[v]);
    }
  }

  lemma ClaimOk(g: Group, w: nat)
    requires GroupOk(g)
    ensures GroupOk(DoClaim(g, w))
  {
    if w < |g.workers| && g.workers[w].Delivered? {
      var g', d := DoClaim(g, w), g.workers[w];
      assert PhaseOk(g, d);
      forall q | 0 <= q < |g.partitions|
        ensures PartitionOk(g', q)
      {
        assert PartitionOk(g, q);
      }
      assert forall v :: 0 <= v < |g.workers| && v != w ==> PhaseOk(g, g.workers[v]) && PhaseOk(g', g'.workers[v]);
      if d.event in g.ledger {
        SameRunning(g, g', w);
      } else {
        BodyEntered(g, w);
      }
    }
  }

  lemma BodyEntered(g: Group, w: nat)
    requires FatesOk(g) && EnteredOk(g) && forall v :: 0 <= v < |g.workers| ==> PhaseOk(g, g.workers[v])
    requires w < |g.workers| && g.workers[w].Delivered? && g.workers[w].event !in g.ledger
    ensures FatesOk(DoClaim(g, w)) && EnteredOk(DoClaim(g, w))
  {
    var g', d := DoClaim(g, w), g.workers[w];
    forall v | 0 <= v < |g.workers| && g.workers[v].InBody?
      ensures g.workers[v].event != d.event && g'.workers[v] == g.workers[v]
    {
      assert PhaseOk(g, g.workers[v]);
    }
    assert g'.workers[w].InBody? && g'.workers[w].event == d.event;
    forall e | e != d.event
      ensures Running(g', e) <==> Running(g, e)
    {
      if Running(g, e) {
        var v :| 0 <= v < |g.workers| && g.workers[v].InBody? && g.workers[v].event == e;
        assert g'.workers[v].InBody? && g'.workers[v].event == e;
      }
    }
  }

  /** Leaving a body: its event is no longer running, every other one still is. */
  lemma BodyLeft(g: Group, g': Group, w: nat)
    requires FatesOk(g) && w < |g.workers| == |g'.workers| && g'.workers == g.workers[w := g'.workers[w]]
    requires g.workers[w].InBody? && !g'.workers[w].InBody?
    ensures !Running(g', g.workers[w].event)
    ensures forall e :: e != g.workers[w].event ==> (Running(g', e) <==> Running(g, e))
    ensures Running(g, g.workers[w].event)
  {
    forall e | e != g.workers[w].event && Running(g, e)
      ensures Running(g', e)
    {
      var v :| 0 <= v < |g.workers| && g.workers[v].InBody? && g.workers[v].event == e;
      assert g'.workers[v].InBody? && g'.workers[v].event == e;
    }
  }

  lemma FinishOk(g: Group, w: nat)
    requires GroupOk(g)
    ensures GroupOk(DoFinish(g, w))
  {
    if w < |g.workers| && g.workers[w].InBody? {
      var g', d := DoFinish(g, w), g.workers[w];
      assert PhaseOk(g, d);
      BodyLeft(g, g', w);
      forall q | 0 <= q < |g.partitions|
        ensures PartitionOk(g', q)
      {
        assert PartitionOk(g, q);
      }
      forall v | 0 <= v < |g.workers| && v != w
        ensures PhaseOk(g', g'.workers[v])
      {
        assert PhaseOk(g, g.workers[v]);
      }
    }
  }

  lemma CommitOk(g: Group, w: nat)
    requires GroupOk(g)
    ensures GroupOk(DoCommit(g, w))
  {
    if w < |g.workers| && g.workers[w].Returned? {
      var g' := DoCommit(g, w);
      SameRunning(g, g', w);
      forall q | 0 <= q < |g.partitions|
        ensures PartitionOk(g', q) && g'.partitions[q].events == g.partitions[q].events
      {
        assert PartitionOk(g, q);
      }
      assert forall v :: 0 <= v < |g.workers| && v != w ==> PhaseOk(g, g.workers[v]) && PhaseOk(g', g'.workers[v]);
    }
  }

  lemma CrashOk(g: Group, w: nat)
    requires GroupOk(g)
    ensures GroupOk(DoCrash(g, w))
  {
    if w < |g.workers| {
      var g' := DoCrash(g, w);
      assert PhaseOk(g, g.workers[w]);
      if g.workers[w].InBody? {
        BodyLeft(g, g', w);
      } else {
        SameRunning(g, g', w);
      }
      forall q | 0 <= q < |g.partitions|
        ensures PartitionOk(g', q) && g'.partitions[q].events == g.partitions[q].events
      {
        assert PartitionOk(g, q);
      }
      forall v | 0 <= v < |g.workers| && v != w
        ensures PhaseOk(g', g'.workers[v])
      {
        assert PhaseOk(g, g.workers[v]);
      }
    }
  }

  lemma DoOk(g: Group, a: Act)
    requires GroupOk(g)
    ensures GroupOk(Do(g, a))
  {
    match a
    case Produce(p, e) => ProduceOk(g, p, e);
    case Assign(p, w) => AssignOk(g, p, w);
    case Poll(w, p) => PollOk(g, w, p);
    case TryClaim(w) => ClaimOk(g, w);
    case Finish(w) => FinishOk(g, w);
    case Commit(w) => CommitOk(g, w);
    case CrashWorker(w) => CrashOk(g, w);
  }

  lemma {:induction false} HistoryOk(partitions: nat, workers: nat, acts: seq<Act>)
    ensures GroupOk(History(Start(partitions, workers), acts))
  {
    if acts != [] {
      HistoryOk(partitions, workers, acts[..|acts| - 1]);
      DoOk(History(Start(partitions, workers), acts[..|acts| - 1]), acts[|acts| - 1]);
    }
  }

  // ---------------------------------------------------------------- what that means

  /** The messages the group has committed. */
  ghost predicate Committed(g: Group, e: EventId) {
    exists p, i :: 0 <= p < |g.partitions| && 0 <= i < g.partitions[p].committed <= |g.partitions[p].events| &&
      g.partitions[p].events[i] == e
  }

  /** In every history, for each committed offset a handler has returned, and the event there is claimed: its
      body ran to the end, or was cut off by a crash, or is running at another worker right now. */
  lemma {:induction false} CommittedWasHandled(partitions: nat, workers: nat, acts: seq<Act>, p: nat, i: nat)
    requires var g := History(Start(partitions, workers), acts);
             p < |g.partitions| && i < g.partitions[p].committed
    ensures var g := History(Start(partitions, workers), acts);
            && i < |g.partitions[p].events| && (p, i) in g.returned
            && var e := g.partitions[p].events[i];
               e in g.ledger && (e in g.completed || e in g.lost || Running(g, e))
  {
    var g := History(Start(partitions, workers), acts);
    HistoryOk(partitions, workers, acts);
    assert PartitionOk(g, p);
  }

  /** Each event enters the handler body at most once, whatever is delivered again. */
  lemma {:induction false} BodyAtMostOnce(partitions: nat, workers: nat, acts: seq<Act>)
    ensures var g := History(Start(partitions, workers), acts);
            NoRepeats(g.entered) && forall e :: e in g.entered <==> e in g.ledger
  {
    HistoryOk(partitions, workers, acts);
  }

  /** Worker w is in the body of event e. */
  predicate InBodyOf(g: Group, w: nat, e: EventId) {
    w < |g.workers| && g.workers[w].InBody? && g.workers[w].event == e
  }

  /** At some point a worker crashed between its claim of e and the return of its handler. */
  ghost predicate CutOff(g: Group, acts: seq<Act>, e: EventId) {
    exists k :: 0 <= k < |acts| && acts[k].CrashWorker? && InBodyOf(History(g, acts[..k]), acts[k].w, e)
  }

  lemma CutOffStep(g: Group, acts: seq<Act>, e: EventId)
    requires acts != []
    ensures var init, last := acts[..|acts| - 1], acts[|acts| - 1];
            CutOff(g, acts, e) <==> CutOff(g, init, e) || (last.CrashWorker? && InBodyOf(History(g, init), last.w, e))
  {
    var n := |acts| - 1;
    var init := acts[..n];
    assert forall k :: 0 <= k < n ==> init[..k] == acts[..k] && init[k] == acts[k];
    if CutOff(g, acts, e) {
      var k :| 0 <= k < |acts| && acts[k].CrashWorker? && InBodyOf(History(g, acts[..k]), acts[k].w, e);
      assert k < n ==> init[k].CrashWorker? && InBodyOf(History(g, init[..k]), init[k].w, e);
    }
    if CutOff(g, init, e) {
      var k :| 0 <= k < |init| && init[k].CrashWorker? && InBodyOf(History(g, init[..k]), init[k].w, e);
      assert acts[k].CrashWorker? && InBodyOf(History(g, acts[..k]), acts[k].w, e);
    }
  }

  lemma {:induction false} LostIsCutOff(g: Group, acts: seq<Act>, e: EventId)
    ensures e in History(g, acts).lost <==> e in g.lost || CutOff(g, acts, e)
  {
    if acts != [] {
      LostIsCutOff(g, acts[..|acts| - 1], e);
      CutOffStep(g, acts, e);
    }
  }

  /** Exactly once, exactly when: a claimed event whose body is not running was completed if and only if no
      crash fell between the claim of that event and the return of its handler. */
  lemma {:induction false} ExactlyOnceUnlessCutOff(partitions: nat, workers: nat, acts: seq<Act>, e: EventId)
    requires e in History(Start(partitions, workers), acts).ledger
    requires !Running(History(Start(partitions, workers), acts), e)
    ensures e in History(Start(partitions, workers), acts).completed <==> !CutOff(Start(partitions, workers), acts, e)
  {
    HistoryOk(partitions, workers, acts);
    LostIsCutOff(Start(partitions, workers), acts, e);
  }

  /** An event whose body was cut off stays unfinished whatever happens next: a redelivery finds it claimed. */
  lemma {:induction false} LostForever(g: Group, acts: seq<Act>, e: EventId)
    requires GroupOk(g) && e in g.lost
    ensures e in History(g, acts).lost && e !in History(g, acts).completed
    ensures GroupOk(History(g, acts))
  {
    if acts != [] {
      LostForever(g, acts[..|acts| - 1], e);
      DoOk(History(g, acts[..|acts| - 1]), acts[|acts| - 1]);
    }
  }

  lemma {:induction false} HistoryConcat(g: Group, a: seq<Act>, b: seq<Act>)
    ensures History(g, a + b) == History(History(g, a), b)
  {
    if b == [] {
      assert a + b == a;
    } else {
      assert (a + b)[..|a + b| - 1] == a + b[..|b| - 1];
      HistoryConcat(g, a, b[..|b| - 1]);
    }
  }

  /** One turn of the consume loop of worker w on partition p; `Finish` does nothing when the body was skipped. */
  function Turn(p: nat, w: nat): seq<Act> {
    [Poll(w, p), TryClaim(w), Finish(w), Commit(w)]
  }

  lemma TurnSteps(g: Group, p: nat, w: nat)
    ensures History(g, Turn(p, w)) == DoCommit(DoFinish(DoClaim(DoPoll(g, w, p), w), w), w)
  {
    var t := Turn(p, w);
    assert t[..3] == [Poll(w, p), TryClaim(w), Finish(w)] && t[..3][..2] == [Poll(w, p), TryClaim(w)];
    assert t[..3][..2][..1] == [Poll(w, p)];
    assert History(g, [Poll(w, p)]) == DoPoll(g, w, p);
    assert History(g, [Poll(w, p), TryClaim(w)]) == DoClaim(DoPoll(g, w, p), w);
  }

  /** Worker w is between messages and has partition p, all it was handed of it committed. */
  predicate Ready(g: Group, p: nat, w: nat) {
    && w < |g.workers| && g.workers[w].Polling? && p < |g.partitions|
    && g.partitions[p].owner == Some(w) && g.partitions[p].position == g.partitions[p].committed
  }

  lemma TurnCommits(g: Group, p: nat, w: nat)
    requires GroupOk(g) && Ready(g, p, w) && g.partitions[p].committed < |g.partitions[p].events|
    ensures var g' := History(g, Turn(p, w));
            && GroupOk(g') && Ready(g', p, w)
            && g'.partitions[p].events == g.partitions[p].events
            && g'.partitions[p].committed == g.partitions[p].committed + 1
  {
    TurnSteps(g, p, w);
    PollOk(g, w, p);
    var g1 := DoPoll(g, w, p);
    ClaimOk(g1, w);
    var g2 := DoClaim(g1, w);
    FinishOk(g2, w);
    var g3 := DoFinish(g2, w);
    CommitOk(g3, w);
    assert g3.workers[w].Returned? && g3.partitions == g1.partitions;
  }

  function Turns(p: nat, w: nat, n: nat): seq<Act> {
    if n == 0 then [] else Turn(p, w) + Turns(p, w, n - 1)
  }

  lemma {:induction false} TurnsCommit(g: Group, p: nat, w: nat, n: nat)
    requires GroupOk(g) && Ready(g, p, w) && g.partitions[p].committed + n <= |g.partitions[p].events|
    ensures var g' := History(g, Turns(p, w, n));
            && p < |g'.partitions| && g'.partitions[p].events == g.partitions[p].events
            && g'.partitions[p].committed == g.partitions[p].committed + n
    decreases n
  {
    if n > 0 {
      TurnCommits(g, p, w);
      TurnsCommit(History(g, Turn(p, w)), p, w, n - 1);
      HistoryConcat(g, Turn(p, w), Turns(p, w, n - 1));
    }
  }

  /** The recovery of worker w: it restarts, gets its partition back, and handles n messages. */
  function Recovery(p: nat, w: nat, n: nat): seq<Act> {
    [Assign(p, w)] + Turns(p, w, n)
  }

  /** Where "at least once" fails: whenever a worker crashes in a body, wherever the partition's committed offset
      is, the event is completed in no continuation, and an undisturbed recovery commits it all the same. */
  lemma {:induction false} CrashSkipsEvent(g: Group, w: nat, later: seq<Act>)
    requires GroupOk(g) && w < |g.workers| && g.workers[w].InBody?
    ensures g.workers[w].event !in History(DoCrash(g, w), later).completed
    ensures var d := g.workers[w];
            exists n :: Committed(History(DoCrash(g, w), Recovery(d.p, w, n)), d.event)
  {
    var d, g1 := g.workers[w], DoCrash(g, w);
    CrashOk(g, w);
    LostForever(g1, later, d.event);
    assert PhaseOk(g, d);
    var g2 := DoAssign(g1, d.p, w);
    AssignOk(g1, d.p, w);
    assert PartitionOk(g2, d.p);
    var c := g2.partitions[d.p].committed;
    var n := if c <= d.at then d.at + 1 - c else 0;
    TurnsCommit(g2, d.p, w, n);
    HistoryConcat(g1, [Assign(d.p, w)], Turns(d.p, w, n));
    assert History(g1, [Assign(d.p, w)]) == g2;
    var g' := History(g1, Recovery(d.p, w, n));
    assert g'.partitions[d.p].events[d.at] == d.event && d.at < g'.partitions[d.p].committed;
    CommittedAt(g', d.p, d.at);
  }

  lemma CommittedAt(g: Group, p: nat, i: nat)
    requires p < |g.partitions| && i < g.partitions[p].committed <= |g.partitions[p].events|
    ensures Committed(g, g.partitions[p].events[i])
  {
  }

  // ---------------------------------------------------------------- the consume loop

  /** The events of es that a ledger lets into the handler body: first occurrences not yet claimed. */
  function LetIn(ledger: set<EventId>, es: seq<EventId>): seq<EventId> {
    if es == [] then []
    else
      var init, last := es[..|es| - 1], es[|es| - 1];
      if last in ledger || last in init then LetIn(ledger, init) else LetIn(ledger, init) + [last]
  }

  /** From an empty ledger, that is the topic without its duplicates. */
  lemma {:induction false} LetInIsDedupe(es: seq<EventId>)
    ensures LetIn({}, es) == Dedupe(es)
  {
    if es != [] {
      LetInIsDedupe(es[..|es| - 1]);
    }
  }

  /** One message more, when the ledger holds what it held and the messages before. */
  lemma LetInNext(ledger: set<EventId>, done: seq<EventId>, ledger': set<EventId>, e: EventId)
    requires e in ledger' <==> e in ledger || e in done
    ensures LetIn(ledger, done + [e]) == LetIn(ledger, done) + LetIn(ledger', [e])
  {
    assert (done + [e])[..|done|] == done && [e][..0] == [];
  }

  /** One worker on one partition. */
  class Consumer {
    const events: seq<EventId>
    var position: nat
    var committed: nat
    var ledger: set<EventId>
    var bodies: seq<EventId>

    constructor (events: seq<EventId>, committed: nat, ledger: set<EventId>)
      ensures this.events == events && this.committed == position == committed
      ensures this.ledger == ledger && bodies == []
    {
      this.events, this.committed, this.position := events, committed, committed;
      this.ledger, this.bodies := ledger, [];
    }

    method HandleMessage(event: EventId)
      modifies `ledger, `bodies
      ensures ledger == old(ledger) + {event}
      ensures bodies == old(bodies) + LetIn(old(ledger), [event])
    {
      if event in ledger {
        return;
      }
      ledger := ledger + {event};
      bodies := bodies + [event];
    }

    /** Handle, then commit, message by message until the partition is drained. */
    method Consume()
      requires committed == position <= |events|
      modifies this
      ensures committed == position == |events|
      ensures bodies == old(bodies) + LetIn(old(ledger), events[old(position)..])
      ensures forall e :: e in ledger <==> e in old(ledger) || e in events[old(position)..]
    {
      ghost var rest := events[position..];
      while position < |events|
        invariant old(position) <= position == committed <= |events|
        invariant bodies == old(bodies) + LetIn(old(ledger), rest[..position - old(position)])
        invariant forall e :: e in ledger <==> e in old(ledger) || e in rest[..position - old(position)]
      {
        ghost var n := position - old(position);
        assert rest[..n + 1] == rest[..n] + [events[position]];
        var event := events[position];
        LetInNext(old(ledger), rest[..n], ledger, event);
        position := position + 1;
        HandleMessage(event);
        committed := position;
      }
      assert rest[..|rest|] == rest;
    }
  }
}
