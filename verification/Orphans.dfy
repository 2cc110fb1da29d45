/** The other side of NoSilentLoss: a handler that stops between queueing a row and publishing it
    strands the row for ever. The job's seen set keeps every later handler from taking it up. */
module Orphans {
  import opened Wrappers
  import opened Store
  import opened Handlers
  import opened Machine
  import opened Lineage
  import opened LineageSteps

  // ---------------------------------------------------------------- rows nobody works on

  /** The rows a handler may mark: its event's own. */
  ghost predicate MayMark(p: Proc, k: RowKey) {
    match DutyOf(p)
    case Crawls(ev) => KeyOf(ev) == k
    case Cleans(ev) => ParsedKey(ev) == k
    case _ => false
  }

  ghost predicate RowStands(s: Store, s': Store, k: RowKey) {
    k in s.rows && k in s'.rows && s'.rows[k] == s.rows[k]
  }

  lemma FollowerStatus(cfg: Config, s: Store, p: Proc, k: RowKey)
    requires k in s.rows && (p.CrawlLinks? || p.CrawlQueue? || p.CrawlEmit?)
    ensures RowStands(s, Advance(cfg, s, p).store, k)
  {
  }

  lemma CrawlerStatus(cfg: Config, s: Store, p: Proc, k: RowKey)
    requires k in s.rows && !MayMark(p, k) && DutyOf(p).Crawls?
    ensures RowStands(s, Advance(cfg, s, p).store, k)
  {
    if p.CrawlLinks? || p.CrawlQueue? || p.CrawlEmit? {
      FollowerStatus(cfg, s, p, k);
    }
  }

  lemma OthersStatus(cfg: Config, s: Store, p: Proc, k: RowKey)
    requires k in s.rows && !MayMark(p, k) && !DutyOf(p).Crawls?
    ensures RowStands(s, Advance(cfg, s, p).store, k)
  {
  }

  lemma AdvanceStatus(cfg: Config, s: Store, p: Proc, k: RowKey)
    requires k in s.rows && !MayMark(p, k)
    ensures RowStands(s, Advance(cfg, s, p).store, k)
  {
    if DutyOf(p).Crawls? {
      CrawlerStatus(cfg, s, p, k);
    } else {
      OthersStatus(cfg, s, p, k);
    }
  }

  /** A row for which no event id was drawn has no handler and no message, so no step can change it. */
  lemma UndrawnUntouched(cfg: Config, m: Machine, a: Action, k: RowKey)
    requires Inv(cfg, m) && k in m.store.rows && Undrawn(m.store, k)
    ensures k in Apply(cfg, m, a).store.rows && Apply(cfg, m, a).store.rows[k] == m.store.rows[k]
  {
    match a
    case Progress(j) =>
      if j < |m.procs| {
        assert ProcOk(cfg, m.store, m.procs[j]);
        AdvanceStatus(cfg, m.store, m.procs[j], k);
      }
    case Delivery(i, _) =>
      if i < |m.store.log| {
        assert MessageOk(cfg, m.store, m.store.log[i]);
      }
    case _ =>
  }

  /** A row waiting for its first publication is still queued. */
  ghost predicate PendingQueued(s: Store, p: Proc) {
    PendingOf(p).Publishing? ==> PendingOf(p).key in s.rows && s.rows[PendingOf(p).key].status == Queued
  }

  lemma CrawlerPending(cfg: Config, s: Store, p: Proc)
    requires ProcOk(cfg, s, p) && DutyOf(p).Crawls?
    ensures PendingQueued(Advance(cfg, s, p).store, Advance(cfg, s, p).proc)
  {
  }

  lemma OthersPending(cfg: Config, s: Store, p: Proc)
    requires ProcOk(cfg, s, p) && !DutyOf(p).Crawls?
    ensures PendingQueued(Advance(cfg, s, p).store, Advance(cfg, s, p).proc)
  {
  }

  lemma AdvancePending(cfg: Config, s: Store, p: Proc)
    requires ProcOk(cfg, s, p)
    ensures PendingQueued(Advance(cfg, s, p).store, Advance(cfg, s, p).proc)
  {
    if DutyOf(p).Crawls? {
      CrawlerPending(cfg, s, p);
    } else {
      OthersPending(cfg, s, p);
    }
  }

  lemma {:induction false} PendingRowsQueued(cfg: Config, actions: seq<Action>, j: nat)
    requires cfg.maxAttempts >= 1 && j < |Run(cfg, INITIAL, actions).procs|
    ensures PendingQueued(Run(cfg, INITIAL, actions).store, Run(cfg, INITIAL, actions).procs[j])
  {
    var n := |actions| - 1;
    var m := Run(cfg, INITIAL, actions[..n]);
    var a := actions[n];
    RunInv(cfg, INITIAL, actions[..n]);
    if j < |m.procs| {
      PendingRowsQueued(cfg, actions[..n], j);
    }
    StepPending(cfg, m, a, j);
  }

  lemma StepPending(cfg: Config, m: Machine, a: Action, j: nat)
    requires Inv(cfg, m) && j < |Apply(cfg, m, a).procs|
    requires j < |m.procs| ==> PendingQueued(m.store, m.procs[j])
    ensures PendingQueued(Apply(cfg, m, a).store, Apply(cfg, m, a).procs[j])
  {
    if j < |m.procs| {
      assert ProcOk(cfg, m.store, m.procs[j]);
      if a == Progress(j) {
        AdvancePending(cfg, m.store, m.procs[j]);
      } else if PendingOf(m.procs[j]).Publishing? {
        UndrawnUntouched(cfg, m, a, PendingOf(m.procs[j]).key);
      }
    }
  }

  // ---------------------------------------------------------------- orphans

  /** The row is queued and seen, but neither a message nor a handler is about it. */
  ghost predicate Orphan(m: Machine, k: RowKey) {
    && k in m.store.rows && m.store.rows[k].status == Queued
    && k in m.store.seen && Undrawn(m.store, k)
    && forall j :: 0 <= j < |m.procs| ==> PendingKey(m.procs[j]) != Some(k)
  }

  lemma OrphanProgress(cfg: Config, m: Machine, j: nat, k: RowKey)
    requires cfg.maxAttempts >= 1 && Inv(cfg, m) && Orphan(m, k) && j < |m.procs|
    ensures Orphan(Apply(cfg, m, Progress(j)), k)
  {
    assert ProcOk(cfg, m.store, m.procs[j]);
    OrphanAdvance(cfg, m.store, m.procs[j], k);
    OrphanStep(cfg, m, j, Advance(cfg, m.store, m.procs[j]), k);
  }

  lemma OrphanAdvance(cfg: Config, s: Store, p: Proc, k: RowKey)
    requires cfg.maxAttempts >= 1 && StoreOk(cfg, s) && ProcOk(cfg, s, p) && k in s.rows && Undrawn(s, k)
    ensures GoodStep(cfg, s, PendingKey(p), Advance(cfg, s, p)) && RowStands(s, Advance(cfg, s, p).store, k)
  {
    if PendingOf(p).Inserting? {
      ToInsertUndrawn(cfg, s, PendingOf(p).key);
    }
    AdvanceGood(cfg, s, p);
    UndrawnUnmarked(cfg, s, p, k);
    AdvanceStatus(cfg, s, p, k);
  }

  /** No handler may mark a row without an event id. */
  lemma UndrawnUnmarked(cfg: Config, s: Store, p: Proc, k: RowKey)
    requires ProcOk(cfg, s, p) && Undrawn(s, k)
    ensures !MayMark(p, k)
  {
  }

  lemma OrphanStep(cfg: Config, m: Machine, j: nat, n: Next, k: RowKey)
    requires Orphan(m, k) && j < |m.procs| && GoodStep(cfg, m.store, PendingKey(m.procs[j]), n)
    requires RowStands(m.store, n.store, k)
    ensures Orphan(m.(store := n.store, procs := m.procs[j := n.proc]), k)
  {
  }

  lemma OrphanDelivery(cfg: Config, m: Machine, i: nat, input: Input, k: RowKey)
    requires Inv(cfg, m) && Orphan(m, k) && i < |m.store.log|
    ensures Orphan(Apply(cfg, m, Delivery(i, input)), k)
  {
    assert MessageOk(cfg, m.store, m.store.log[i]);
    DeliverGood(cfg, m.store, m.store.log[i], input);
    UndrawnUntouched(cfg, m, Delivery(i, input), k);
  }

  lemma OrphanKept(cfg: Config, m: Machine, a: Action, k: RowKey)
    requires cfg.maxAttempts >= 1 && Inv(cfg, m) && Orphan(m, k)
    ensures Orphan(Apply(cfg, m, a), k)
  {
    match a
    case Delivery(i, input) =>
      if i < |m.store.log| {
        OrphanDelivery(cfg, m, i, input, k);
      }
    case Progress(j) =>
      if j < |m.procs| {
        OrphanProgress(cfg, m, j, k);
      }
    case _ =>
  }

  lemma {:induction false} OrphanForever(cfg: Config, m: Machine, actions: seq<Action>, k: RowKey)
    requires cfg.maxAttempts >= 1 && Inv(cfg, m) && Orphan(m, k)
    ensures Orphan(Run(cfg, m, actions), k)
  {
    if actions != [] {
      var init := actions[..|actions| - 1];
      OrphanForever(cfg, m, init, k);
      RunInv(cfg, m, init);
      OrphanKept(cfg, Run(cfg, m, init), actions[|actions| - 1], k);
    }
  }

  /** The two ways to abandon a queued row: the publication raises, or the handler crashes before it. */
  ghost predicate Abandons(m: Machine, a: Action, k: RowKey) {
    || (a.Crash? && a.proc < |m.procs| && PendingOf(m.procs[a.proc]).Publishing?
        && PendingKey(m.procs[a.proc]) == Some(k))
    || (a.Progress? && a.proc < |m.procs| && m.procs[a.proc].CrawlEmit? && Strikes(m.procs[a.proc].luck)
        && PendingKey(m.procs[a.proc]) == Some(k))
  }

  /** The abandoning step changes nothing but the handler, which has nothing pending afterwards. */
  lemma AbandonStep(cfg: Config, m: Machine, a: Action, k: RowKey)
    requires Abandons(m, a, k)
    ensures var m' := Apply(cfg, m, a);
            && m'.store == m.store && |m'.procs| == |m.procs| && PendingKey(m'.procs[a.proc]) == None
            && forall j :: 0 <= j < |m.procs| && j != a.proc ==> m'.procs[j] == m.procs[j]
  {
  }

  lemma AbandonMakesOrphan(cfg: Config, before: seq<Action>, a: Action, k: RowKey)
    requires cfg.maxAttempts >= 1 && Abandons(Run(cfg, INITIAL, before), a, k)
    ensures Orphan(Apply(cfg, Run(cfg, INITIAL, before), a), k)
  {
    var m := Run(cfg, INITIAL, before);
    var m1 := Apply(cfg, m, a);
    RunInv(cfg, INITIAL, before);
    PendingRowsQueued(cfg, before, a.proc);
    assert ProcOk(cfg, m.store, m.procs[a.proc]);
    AbandonStep(cfg, m, a, k);
    forall j | 0 <= j < |m1.procs|
      ensures PendingKey(m1.procs[j]) != Some(k)
    {
      if j < a.proc {
        assert Apart(m.procs[j], m.procs[a.proc]);
      } else if j > a.proc {
        assert Apart(m.procs[a.proc], m.procs[j]);
      }
    }
  }

  lemma OrphanHasNoMessage(cfg: Config, m: Machine, k: RowKey)
    requires Inv(cfg, m) && Orphan(m, k)
    ensures forall i :: 0 <= i < |m.store.log| ==> MessageKey(m.store.log[i]) != k
  {
    forall i | 0 <= i < |m.store.log|
      ensures MessageKey(m.store.log[i]) != k
    {
      assert MessageOk(cfg, m.store, m.store.log[i]);
    }
  }

  /** An abandoned row stays queued, with no message on any topic about it, however the run goes on. */
  lemma {:induction false} AbandonedRowIsStranded(
      cfg: Config, before: seq<Action>, a: Action, after: seq<Action>, k: RowKey)
    requires cfg.maxAttempts >= 1 && Abandons(Run(cfg, INITIAL, before), a, k)
    ensures var s := Run(cfg, Apply(cfg, Run(cfg, INITIAL, before), a), after).store;
            && k in s.rows && s.rows[k].status == Queued
            && forall i :: 0 <= i < |s.log| ==> MessageKey(s.log[i]) != k
  {
    var m1 := Apply(cfg, Run(cfg, INITIAL, before), a);
    RunInv(cfg, INITIAL, before);
    AbandonMakesOrphan(cfg, before, a, k);
    ApplyInv(cfg, Run(cfg, INITIAL, before), a);
    OrphanForever(cfg, m1, after, k);
    RunInv(cfg, m1, after);
    OrphanHasNoMessage(cfg, Run(cfg, m1, after), k);
  }
}
