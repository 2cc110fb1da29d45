/** The chain behind every message: from the first discovery of its row, each message led to by one before it. */
module Chains {
  import opened Wrappers
  import opened Events
  import opened Store
  import opened Handlers
  import opened Machine
  import opened Lineage
  import opened LineageSteps
  import opened Retry
  import Guarantees
  import Provenance

  /** The message at b comes behind the one at a and follows from it. */
  ghost predicate Step(cfg: Config, log: seq<Message>, a: nat, b: nat) {
    a < b < |log| && Follows(cfg, log[a], log[b])
  }

  /** Positions on the log, in order: the first discovery of the row, then message after message that follows from the
      one before, up to message k. */
  ghost predicate Trail(cfg: Config, log: seq<Message>, trail: seq<nat>, k: nat) {
    && trail != [] && trail[|trail| - 1] == k
    && (forall i :: 0 <= i < |trail| ==> trail[i] < |log|)
    && (forall i :: 0 <= i < |trail| - 1 ==> Step(cfg, log, trail[i], trail[i + 1]))
    && FirstKey(log[trail[0]]) == Some(MessageKey(log[k]))
  }

  ghost predicate HasTrail(cfg: Config, log: seq<Message>, k: nat) {
    exists trail :: Trail(cfg, log, trail, k)
  }

  ghost predicate LogTrailed(cfg: Config, log: seq<Message>) {
    forall k: nat :: k < |log| ==> HasTrail(cfg, log, k)
  }

  /** A handler's message, whatever published it. */
  predicate IsSource(m: Message, source: Message) {
    m == source || (m.OnDiscovered? && source.OnDiscovered? && m.discovered == source.discovered)
  }

  ghost predicate SourceOnLog(log: seq<Message>, p: Proc) {
    SourceOf(p).Some? ==> exists i :: 0 <= i < |log| && IsSource(log[i], SourceOf(p).value)
  }

  ghost predicate Trailed(cfg: Config, m: Machine) {
    LogTrailed(cfg, m.store.log) && forall j :: 0 <= j < |m.procs| ==> SourceOnLog(m.store.log, m.procs[j])
  }

  // ---------------------------------------------------------------- trails grow with the log

  lemma TrailKept(cfg: Config, log: seq<Message>, log': seq<Message>, k: nat)
    requires log <= log' && HasTrail(cfg, log, k)
    ensures HasTrail(cfg, log', k)
  {
    var trail :| Trail(cfg, log, trail, k);
    forall i | 0 <= i < |trail| - 1
      ensures Step(cfg, log', trail[i], trail[i + 1])
    {
      assert Step(cfg, log, trail[i], trail[i + 1]);
    }
    assert Trail(cfg, log', trail, k);
  }

  lemma SourceKept(log: seq<Message>, log': seq<Message>, p: Proc)
    requires log <= log' && SourceOnLog(log, p)
    ensures SourceOnLog(log', p)
  {
    if SourceOf(p).Some? {
      var i :| 0 <= i < |log| && IsSource(log[i], SourceOf(p).value);
      assert IsSource(log'[i], SourceOf(p).value);
    }
  }

  lemma TrailStarts(cfg: Config, log: seq<Message>, m: Message)
    requires IsFirstDiscovery(m)
    ensures HasTrail(cfg, log + [m], |log|)
  {
    assert Trail(cfg, log + [m], [|log|], |log|);
  }

  lemma TrailExtends(cfg: Config, log: seq<Message>, m: Message, k: nat)
    requires k < |log| && HasTrail(cfg, log, k) && Follows(cfg, log[k], m)
    ensures HasTrail(cfg, log + [m], |log|)
  {
    var trail :| Trail(cfg, log, trail, k);
    var log' := log + [m];
    var last: nat := |log|;
    var trail': seq<nat> := trail + [last];
    assert Step(cfg, log', k, |log|);
    forall i | 0 <= i < |trail'| - 1
      ensures Step(cfg, log', trail'[i], trail'[i + 1])
    {
      if i < |trail| - 1 {
        assert Step(cfg, log, trail[i], trail[i + 1]);
      }
    }
    assert log'[trail'[0]] == log[trail[0]];
    assert Trail(cfg, log', trail', |log|);
  }

  /** What a discovery leads to does not depend on who published it. */
  lemma SourceFollows(cfg: Config, m: Message, source: Message, next: Message)
    requires IsSource(m, source) && Follows(cfg, source, next)
    ensures Follows(cfg, m, next)
  {
  }

  lemma NewMessageTrailed(cfg: Config, s: Store, p: Proc, x: Message)
    requires LogTrailed(cfg, s.log) && SourceOnLog(s.log, p)
    requires IsFirstDiscovery(x) || (SourceOf(p).Some? && Follows(cfg, SourceOf(p).value, x))
    ensures HasTrail(cfg, s.log + [x], |s.log|)
  {
    if IsFirstDiscovery(x) {
      TrailStarts(cfg, s.log, x);
    } else {
      var i: nat :| i < |s.log| && IsSource(s.log[i], SourceOf(p).value);
      SourceFollows(cfg, s.log[i], SourceOf(p).value, x);
      TrailExtends(cfg, s.log, x, i);
    }
  }

  lemma LogGrows(cfg: Config, log: seq<Message>, x: Message)
    requires LogTrailed(cfg, log) && HasTrail(cfg, log + [x], |log|)
    ensures LogTrailed(cfg, log + [x])
  {
    forall k: nat | k < |log + [x]|
      ensures HasTrail(cfg, log + [x], k)
    {
      if k < |log| {
        TrailKept(cfg, log, log + [x], k);
      }
    }
  }

  // ---------------------------------------------------------------- every step keeps them

  /** A handler keeps its message until it is done. */
  lemma SameSource(cfg: Config, s: Store, p: Proc)
    ensures var p' := Advance(cfg, s, p).proc; SourceOf(p') == SourceOf(p) || SourceOf(p') == None
  {
    Provenance.SameDuty(cfg, s, p);
  }

  lemma ProgressTrailed(cfg: Config, m: Machine, j: nat)
    requires Inv(cfg, m) && Trailed(cfg, m) && j < |m.procs|
    ensures Trailed(cfg, Apply(cfg, m, Progress(j)))
  {
    var s, p := m.store, m.procs[j];
    var s' := Advance(cfg, s, p).store;
    assert ProcOk(cfg, s, p);
    PublishedFollows(cfg, s, p);
    AdvanceAppends(cfg, s, p);
    SameSource(cfg, s, p);
    if |s'.log| > |s.log| {
      NewMessageTrailed(cfg, s, p, s'.log[|s.log|]);
      LogGrows(cfg, s.log, s'.log[|s.log|]);
    }
    forall i | 0 <= i < |m.procs|
      ensures SourceOnLog(s'.log, m.procs[i])
    {
      SourceKept(s.log, s'.log, m.procs[i]);
    }
  }

  lemma BeginSource(log: seq<Message>, i: nat, input: Input)
    requires i < |log|
    ensures SourceOnLog(log, Begin(log[i], input)) && SourceOnLog(log, Idle)
  {
    assert IsSource(log[i], SourceOf(Begin(log[i], input)).value);
  }

  lemma DeliveryTrailed(cfg: Config, m: Machine, i: nat, input: Input)
    requires Trailed(cfg, m) && i < |m.store.log|
    ensures Trailed(cfg, Apply(cfg, m, Delivery(i, input)))
  {
    var n := Deliver(m.store, m.store.log[i], input);
    BeginSource(m.store.log, i, input);
    assert n.store.log == m.store.log && SourceOnLog(n.store.log, n.proc);
  }

  lemma ApplyTrailed(cfg: Config, m: Machine, a: Action)
    requires Inv(cfg, m) && Trailed(cfg, m)
    ensures Trailed(cfg, Apply(cfg, m, a))
  {
    match a
    case Submission(r) => assert SourceOf(Submit(m.store, r).proc) == None;
    case Delivery(i, input) =>
      if i < |m.store.log| { DeliveryTrailed(cfg, m, i, input); }
    case Progress(j) =>
      if j < |m.procs| { ProgressTrailed(cfg, m, j); }
    case _ =>
  }

  lemma {:induction false} RunTrailed(cfg: Config, actions: seq<Action>)
    requires cfg.maxAttempts >= 1
    ensures Trailed(cfg, Run(cfg, INITIAL, actions))
  {
    if actions != [] {
      var init := actions[..|actions| - 1];
      RunTrailed(cfg, init);
      RunInv(cfg, INITIAL, init);
      ApplyTrailed(cfg, Run(cfg, INITIAL, init), actions[|actions| - 1]);
    }
  }

  // ---------------------------------------------------------------- what they cost

  function MessagesAt(log: seq<Message>, trail: seq<nat>): seq<Message>
    requires forall i :: 0 <= i < |trail| ==> trail[i] < |log|
  {
    seq(|trail|, i requires 0 <= i < |trail| => log[trail[i]])
  }

  lemma TrailIsChain(cfg: Config, log: seq<Message>, trail: seq<nat>, k: nat)
    requires Trail(cfg, log, trail, k)
    ensures Chain(cfg, MessagesAt(log, trail))
  {
    forall i | 0 <= i < |trail| - 1
      ensures Follows(cfg, MessagesAt(log, trail)[i], MessagesAt(log, trail)[i + 1])
    {
      assert Step(cfg, log, trail[i], trail[i + 1]);
    }
  }

  lemma TrailCost(cfg: Config, base: real, log: seq<Message>, trail: seq<nat>, k: nat)
    requires cfg.maxAttempts >= 1 && base >= 0.0 && Trail(cfg, log, trail, k)
    requires 1 <= Guarantees.MessageAttempt(log[trail[0]]) <= cfg.maxAttempts
    ensures TotalBackoff(cfg, base, MessagesAt(log, trail)) <= base * Pow2(cfg.maxAttempts - 1) as real - base
  {
    TrailIsChain(cfg, log, trail, k);
    BackoffBounded(cfg, base, MessagesAt(log, trail));
  }

  /** On every trail to message k the retry worker sleeps at most base * (2^(maxAttempts - 1) - 1) in all. */
  ghost predicate SleepsWithin(cfg: Config, base: real, log: seq<Message>, k: nat)
    requires cfg.maxAttempts >= 1
  {
    forall trail :: Trail(cfg, log, trail, k) ==>
      TotalBackoff(cfg, base, MessagesAt(log, trail)) <= base * Pow2(cfg.maxAttempts - 1) as real - base
  }

  lemma TrailsCost(cfg: Config, base: real, s: Store, k: nat)
    requires cfg.maxAttempts >= 1 && base >= 0.0 && StoreOk(cfg, s)
    ensures SleepsWithin(cfg, base, s.log, k)
  {
    forall trail | Trail(cfg, s.log, trail, k)
      ensures TotalBackoff(cfg, base, MessagesAt(s.log, trail)) <= base * Pow2(cfg.maxAttempts - 1) as real - base
    {
      assert MessageOk(cfg, s, s.log[trail[0]]);
      TrailCost(cfg, base, s.log, trail, k);
    }
  }

  /** In every run each message on any topic ends a trail, and no trail to it costs more backoff than that. */
  lemma {:induction false} EveryMessageIsTrailed(cfg: Config, base: real, actions: seq<Action>, k: nat)
    requires cfg.maxAttempts >= 1 && base >= 0.0 && k < |Run(cfg, INITIAL, actions).store.log|
    ensures HasTrail(cfg, Run(cfg, INITIAL, actions).store.log, k)
    ensures SleepsWithin(cfg, base, Run(cfg, INITIAL, actions).store.log, k)
  {
    RunTrailed(cfg, actions);
    RunInv(cfg, INITIAL, actions);
    TrailsCost(cfg, base, Run(cfg, INITIAL, actions).store, k);
  }
}
