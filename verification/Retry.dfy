/** Exponential backoff, and how much of it one page can spend before it is dead-lettered. */
module Retry {
  import opened Wrappers
  import opened Events
  import opened Store
  import opened Handlers
  import opened Lineage
  import Guarantees

  datatype RetryDecision = RetryDecision(shouldRetry: bool, delay: real)

  function Pow2(n: nat): (p: nat)
    ensures p >= 1
  {
    if n == 0 then 1 else 2 * Pow2(n - 1)
  }

  /** ExponentialBackoffRetry.decide, for attempts counted from 1. */
  function Decide(cfg: Config, baseDelay: real, attempt: int): RetryDecision
    requires attempt >= 1
  {
    if attempt >= cfg.maxAttempts then RetryDecision(false, 0.0)
    else RetryDecision(true, baseDelay * Pow2(attempt - 1) as real)
  }

  /** A failure is retried while its attempt is below the maximum; the first delay is the base, and each attempt
      doubles it. */
  lemma DelaysDouble(cfg: Config, baseDelay: real, attempt: int)
    requires attempt >= 1
    ensures Decide(cfg, baseDelay, attempt).shouldRetry <==> attempt < cfg.maxAttempts
    ensures attempt >= cfg.maxAttempts ==> Decide(cfg, baseDelay, attempt).delay == 0.0
    ensures attempt == 1 < cfg.maxAttempts ==> Decide(cfg, baseDelay, attempt).delay == baseDelay
    ensures attempt + 1 < cfg.maxAttempts ==>
              Decide(cfg, baseDelay, attempt + 1).delay == 2.0 * Decide(cfg, baseDelay, attempt).delay
  {
    if attempt + 1 < cfg.maxAttempts {
      assert Pow2(attempt) == 2 * Pow2(attempt - 1);
      Twice(baseDelay, Pow2(attempt - 1));
    }
  }

  // ---------------------------------------------------------------- what a message may lead to

  /** m' is about the same row and is what a handler of m publishes about it: a result, a failure while
      attempts are left, a dead letter; the retry worker alone counts the attempt up. */
  predicate Follows(cfg: Config, m: Message, m': Message) {
    var a, a' := Guarantees.MessageAttempt(m), Guarantees.MessageAttempt(m');
    && MessageKey(m') == MessageKey(m)
    && match m {
         case OnFailed(f) =>
           if f.attempt < cfg.maxAttempts then (m'.OnDiscovered? || m'.OnParsed?) && a' == a + 1
           else m'.OnDlq? && a' == a
         case OnDlq(_) => !m'.OnFailed? && !m'.OnDlq? && a' == a
         case _ => a' == a && (m'.OnFailed? ==> a < cfg.maxAttempts)
       }
  }

  /** The message a handler in progress was started by. */
  function SourceOf(p: Proc): Option<Message> {
    match DutyOf(p)
    case Crawls(ev) => Some(OnDiscovered(ev, Seeded))
    case Parses(page) => Some(OnFetched(page))
    case Cleans(parsed) => Some(OnParsed(parsed))
    case Retries(failed) => Some(OnFailed(failed))
    case Replays(letter) => Some(OnDlq(letter))
    case _ => None
  }

  /** A first discovery starts a page's own chain. */
  predicate IsFirstDiscovery(m: Message) {
    m.OnDiscovered? && (m.via == Seeded || m.via == Linked)
  }

  ghost predicate PublishesFollower(cfg: Config, s: Store, p: Proc, s': Store) {
    |s'.log| > |s.log| && !IsFirstDiscovery(s'.log[|s.log|]) ==>
      SourceOf(p).Some? && Follows(cfg, SourceOf(p).value, s'.log[|s.log|])
  }

  lemma LinksFollow(cfg: Config, s: Store, p: Proc)
    requires p.CrawlLinks? || p.CrawlQueue? || p.CrawlEmit?
    ensures PublishesFollower(cfg, s, p, Advance(cfg, s, p).store)
  {
  }

  lemma CrawlerFollows(cfg: Config, s: Store, p: Proc)
    requires DutyOf(p).Crawls?
    ensures PublishesFollower(cfg, s, p, Advance(cfg, s, p).store)
  {
    if p.CrawlLinks? || p.CrawlQueue? || p.CrawlEmit? {
      LinksFollow(cfg, s, p);
    }
  }

  lemma ParserFollows(cfg: Config, s: Store, p: Proc)
    requires DutyOf(p).Parses?
    ensures PublishesFollower(cfg, s, p, Advance(cfg, s, p).store)
  {
  }

  lemma CleanerFollows(cfg: Config, s: Store, p: Proc)
    requires DutyOf(p).Cleans?
    ensures PublishesFollower(cfg, s, p, Advance(cfg, s, p).store)
  {
  }

  lemma SchedulerFollows(cfg: Config, s: Store, p: Proc)
    requires DutyOf(p).Submits? || DutyOf(p).NoDuty?
    ensures PublishesFollower(cfg, s, p, Advance(cfg, s, p).store)
  {
  }

  lemma RetryFollows(cfg: Config, s: Store, f: UrlFailed)
    requires FailedOk(cfg, s, f)
    ensures PublishesFollower(cfg, s, RetryBody(f), RetryStep(cfg, s, f))
  {
  }

  lemma ReplayFollows(cfg: Config, s: Store, letter: DeadLetter)
    requires LetterOk(cfg, s, letter)
    ensures PublishesFollower(cfg, s, ReplayPublishing(letter), ReplayStep(s, letter))
  {
    ReplayShapes(letter, s.nextId);
  }

  /** Whatever a handler publishes, first discoveries aside, follows the message it handles. */
  lemma PublishedFollows(cfg: Config, s: Store, p: Proc)
    requires ProcOk(cfg, s, p)
    ensures PublishesFollower(cfg, s, p, Advance(cfg, s, p).store)
  {
    match DutyOf(p)
    case Retries(f) => RetryFollows(cfg, s, f);
    case Replays(letter) =>
      if p.ReplayPublishing? { ReplayFollows(cfg, s, letter); }
    case Crawls(_) => CrawlerFollows(cfg, s, p);
    case Parses(_) => ParserFollows(cfg, s, p);
    case Cleans(_) => CleanerFollows(cfg, s, p);
    case _ => SchedulerFollows(cfg, s, p);
  }

  ghost predicate Chain(cfg: Config, chain: seq<Message>) {
    forall i :: 0 <= i < |chain| - 1 ==> Follows(cfg, chain[i], chain[i + 1])
  }

  // ---------------------------------------------------------------- total backoff

  /** The delay the retry worker sleeps for a message. */
  function DelayFor(cfg: Config, baseDelay: real, m: Message): real {
    if m.OnFailed? && m.failed.attempt >= 1 then Decide(cfg, baseDelay, m.failed.attempt).delay else 0.0
  }

  function TotalBackoff(cfg: Config, baseDelay: real, chain: seq<Message>): real {
    if chain == [] then 0.0 else DelayFor(cfg, baseDelay, chain[0]) + TotalBackoff(cfg, baseDelay, chain[1..])
  }

  /** b * 2^n by doubling. */
  function Doubled(b: real, n: nat): real {
    if n == 0 then b else 2.0 * Doubled(b, n - 1)
  }

  lemma Twice(b: real, x: nat)
    ensures b * (2 * x) as real == 2.0 * (b * x as real)
  {
    assert (2 * x) as real == 2.0 * x as real;
  }

  lemma {:induction false} DoubledIsPower(b: real, n: nat)
    ensures Doubled(b, n) == b * Pow2(n) as real
  {
    if n > 0 {
      DoubledIsPower(b, n - 1);
      Twice(b, Pow2(n - 1));
    }
  }

  lemma {:induction false} DoubledGrows(b: real, m: nat, n: nat)
    requires b >= 0.0 && m <= n
    ensures 0.0 <= Doubled(b, m) <= Doubled(b, n)
    decreases n
  {
    if m < n {
      DoubledGrows(b, m, n - 1);
    } else if m > 0 {
      DoubledGrows(b, m - 1, m - 1);
    }
  }

  lemma DelayIsDoubled(cfg: Config, b: real, m: Message)
    requires m.OnFailed? && 1 <= m.failed.attempt < cfg.maxAttempts
    ensures DelayFor(cfg, b, m) == Doubled(b, m.failed.attempt - 1)
  {
    DoubledIsPower(b, m.failed.attempt - 1);
  }

  /** What a chain sleeps and the next delay of its first attempt together fit under the last delay. */
  lemma {:induction false} BackoffTelescopes(cfg: Config, b: real, chain: seq<Message>)
    requires cfg.maxAttempts >= 1 && b >= 0.0 && Chain(cfg, chain)
    requires chain != [] && 1 <= Guarantees.MessageAttempt(chain[0]) <= cfg.maxAttempts
    ensures TotalBackoff(cfg, b, chain) + Doubled(b, Guarantees.MessageAttempt(chain[0]) - 1) <=
            Doubled(b, cfg.maxAttempts - 1)
    decreases |chain|
  {
    var a := Guarantees.MessageAttempt(chain[0]);
    DoubledGrows(b, a - 1, cfg.maxAttempts - 1);
    if chain[0].OnFailed? && a < cfg.maxAttempts {
      DelayIsDoubled(cfg, b, chain[0]);
      DoubledGrows(b, a, cfg.maxAttempts - 1);
    }
    if |chain| > 1 {
      assert Follows(cfg, chain[0], chain[1]);
      BackoffTelescopes(cfg, b, chain[1..]);
    }
  }

  /** On any chain the worker sleeps at most baseDelay * (2^(maxAttempts - 1) - 1) in all. */
  lemma {:induction false} BackoffBounded(cfg: Config, baseDelay: real, chain: seq<Message>)
    requires cfg.maxAttempts >= 1 && baseDelay >= 0.0 && Chain(cfg, chain)
    requires chain != [] && 1 <= Guarantees.MessageAttempt(chain[0]) <= cfg.maxAttempts
    ensures TotalBackoff(cfg, baseDelay, chain) <= baseDelay * Pow2(cfg.maxAttempts - 1) as real - baseDelay
  {
    var total, last := TotalBackoff(cfg, baseDelay, chain), Doubled(baseDelay, cfg.maxAttempts - 1);
    assert total <= last - baseDelay by {
      BackoffTelescopes(cfg, baseDelay, chain);
      DoubledGrows(baseDelay, 0, Guarantees.MessageAttempt(chain[0]) - 1);
    }
    DoubledIsPower(baseDelay, cfg.maxAttempts - 1);
  }
}
