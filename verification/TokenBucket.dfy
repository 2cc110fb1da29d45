/** The per-domain token bucket: the script that refills lazily and lets its key expire, and the loop
    that polls it. Times and token counts are reals; the clock is one and never goes back. */
module TokenBucket {
  datatype Limits = Limits(rate: real, burst: real)

  /** Settings under which every domain can be served at all. */
  predicate Serves(l: Limits) {
    l.rate > 0.0 && l.burst >= 1.0
  }

  function Min(a: real, b: real): real {
    if a <= b then a else b
  }

  function Max(a: real, b: real): real {
    if a <= b then b else a
  }

  function Ceil(x: real): int {
    -((-x).Floor)
  }

  /** The hash at a domain's key: no key, or its two fields and the time it expires. */
  datatype Key = Absent | Present(tokens: real, last: real, expires: real)

  // ---------------------------------------------------------------- the script as a function

  function TimeToLive(l: Limits): int
    requires Serves(l)
  {
    Ceil(l.burst / l.rate) + 60
  }

  /** The lifetime of a key: a minute more than the whole seconds that filling the bucket takes. */
  ghost predicate LivesFor(seconds: real, lifetime: real) {
    exists n :: WholeSeconds(seconds, n) && lifetime == (n + 60) as real
  }

  /** n is the least whole number of seconds that is not below x. */
  predicate WholeSeconds(x: real, n: int) {
    (n - 1) as real < x <= n as real
  }

  lemma LifetimeIsExact(l: Limits)
    requires Serves(l)
    ensures LivesFor(l.burst / l.rate, TimeToLive(l) as real)
  {
    assert WholeSeconds(l.burst / l.rate, Ceil(l.burst / l.rate));
  }

  function Refill(l: Limits, tokens: real, elapsed: real): real {
    Min(l.burst, tokens + l.rate * elapsed)
  }

  /** The tokens the script finds: a missing or expired key counts as a full bucket. */
  function Available(l: Limits, key: Key, now: real): real {
    if key.Absent? || now >= key.expires then l.burst
    else Refill(l, key.tokens, Max(0.0, now - key.last))
  }

  /** Only a grant writes the key. */
  function AfterScript(l: Limits, key: Key, now: real): Key
    requires Serves(l)
  {
    var tokens := Available(l, key, now);
    if tokens < 1.0 then key else Present(tokens - 1.0, now, now + TimeToLive(l) as real)
  }

  // ---------------------------------------------------------------- the level as a function of the grants

  predicate Ascending(times: seq<real>) {
    forall i, j :: 0 <= i <= j < |times| ==> times[i] <= times[j]
  }

  predicate NotBefore(now: real, times: seq<real>) {
    forall i :: 0 <= i < |times| ==> times[i] <= now
  }

  /** The level of a bucket that granted at `credits` and refills continuously, with times measured in
      the tokens they bring. */
  function CreditLevel(burst: real, credits: seq<real>, credit: real): (level: real)
    ensures level <= burst
  {
    if credits == [] then burst
    else
      var last := credits[|credits| - 1];
      Min(burst, CreditLevel(burst, credits[..|credits| - 1], last) - 1.0 + (credit - last))
  }

  function Credits(l: Limits, times: seq<real>): (credits: seq<real>)
    ensures |credits| == |times| && forall i :: 0 <= i < |times| ==> credits[i] == l.rate * times[i]
  {
    seq(|times|, i requires 0 <= i < |times| => l.rate * times[i])
  }

  function Level(l: Limits, times: seq<real>, now: real): real {
    CreditLevel(l.burst, Credits(l, times), l.rate * now)
  }

  /** One window: what the grants since the i-th one and one more would need, and what it allows. */
  predicate Fits(l: Limits, times: seq<real>, now: real, i: nat)
    requires i < |times|
  {
    (|times| - i + 1) as real <= l.burst + l.rate * (now - times[i])
  }

  /** A grant at `now` keeps every window that starts at an earlier grant within the limits: the grants
      from the i-th on, and this one, number at most burst + rate * (length of the window). */
  ghost predicate Admissible(l: Limits, times: seq<real>, now: real) {
    forall i :: 0 <= i < |times| ==> Fits(l, times, now, i)
  }

  lemma Distribute(rate: real, a: real, b: real)
    ensures rate * (a + b) == rate * a + rate * b
  {
  }

  lemma Difference(rate: real, a: real, b: real)
    ensures rate * (b - a) == rate * b - rate * a
  {
  }

  lemma Scale(rate: real, a: real, b: real)
    requires rate > 0.0
    ensures a <= b <==> rate * a <= rate * b
  {
  }

  /** The level is the least bound that any window starting at a grant leaves. */
  lemma {:induction false} CreditLevelIsMinimum(burst: real, credits: seq<real>, credit: real, x: real)
    ensures x <= CreditLevel(burst, credits, credit) <==>
            && x <= burst
            && forall i :: 0 <= i < |credits| ==> x + (|credits| - i) as real <= burst + (credit - credits[i])
  {
    if credits != [] {
      var n := |credits| - 1;
      CreditLevelIsMinimum(burst, credits[..n], credits[n], x + 1.0 - (credit - credits[n]));
    }
  }

  lemma RefillInCredit(l: Limits, tokens: real, from: real, to: real)
    ensures Refill(l, tokens, to - from) == Min(l.burst, tokens + (l.rate * to - l.rate * from))
  {
    Difference(l.rate, from, to);
  }

  lemma FitsInCredit(l: Limits, times: seq<real>, now: real, i: nat)
    requires i < |times|
    ensures Fits(l, times, now, i) <==> RoomFor(l.burst, Credits(l, times), l.rate * now, i)
  {
    Difference(l.rate, times[i], now);
    assert Credits(l, times)[i] == l.rate * times[i];
    assert (|times| - i + 1) as real == 1.0 + (|times| - i) as real;
  }

  lemma CreditsAppend(l: Limits, times: seq<real>, time: real)
    ensures Credits(l, times + [time]) == Credits(l, times) + [l.rate * time]
  {
    var longer, one := Credits(l, times + [time]), Credits(l, times) + [l.rate * time];
    forall i | 0 <= i <= |times|
      ensures longer[i] == one[i]
    {
      assert (times + [time])[i] == if i < |times| then times[i] else time;
    }
    assert longer == one;
  }

  lemma CreditLevelStep(burst: real, credits: seq<real>, last: real, credit: real)
    ensures CreditLevel(burst, credits + [last], credit) ==
            Min(burst, CreditLevel(burst, credits, last) - 1.0 + (credit - last))
  {
    assert (credits + [last])[..|credits|] == credits;
  }

  /** The level after one more grant. */
  lemma LevelStep(l: Limits, times: seq<real>, last: real, now: real)
    ensures Level(l, times + [last], now) == Refill(l, Level(l, times, last) - 1.0, now - last)
  {
    LevelStepIn(l, times, last, now, l.rate * last, l.rate * now);
    RefillInCredit(l, Level(l, times, last) - 1.0, last, now);
  }

  lemma LevelStepIn(l: Limits, times: seq<real>, last: real, now: real, from: real, to: real)
    requires from == l.rate * last && to == l.rate * now
    ensures Level(l, times + [last], now) == Min(l.burst, Level(l, times, last) - 1.0 + (to - from))
  {
    CreditsAppend(l, times, last);
    CreditLevelStep(l.burst, Credits(l, times), from, to);
  }

  lemma {:induction false} AdmissibleIsLevel(l: Limits, times: seq<real>, now: real)
    requires Serves(l)
    ensures Admissible(l, times, now) <==> Level(l, times, now) >= 1.0
  {
    OneIsLevel(l.burst, Credits(l, times), l.rate * now);
    AdmissibleIsRoom(l, times, now, l.rate * now);
  }

  lemma AdmissibleIsRoom(l: Limits, times: seq<real>, now: real, credit: real)
    requires credit == l.rate * now
    ensures Admissible(l, times, now) <==> Room(l.burst, Credits(l, times), credit)
  {
    if Room(l.burst, Credits(l, times), credit) {
      RoomAdmits(l, times, now, credit);
    }
    if Admissible(l, times, now) {
      AdmissibleHasRoom(l, times, now, credit);
    }
  }

  lemma RoomAdmits(l: Limits, times: seq<real>, now: real, credit: real)
    requires Room(l.burst, Credits(l, times), credit) && credit == l.rate * now
    ensures Admissible(l, times, now)
  {
    forall i | 0 <= i < |times|
      ensures Fits(l, times, now, i)
    {
      FitsInCredit(l, times, now, i);
    }
  }

  lemma AdmissibleHasRoom(l: Limits, times: seq<real>, now: real, credit: real)
    requires Admissible(l, times, now) && credit == l.rate * now
    ensures Room(l.burst, Credits(l, times), credit)
  {
    forall i | 0 <= i < |times|
      ensures RoomFor(l.burst, Credits(l, times), credit, i)
    {
      FitsInCredit(l, times, now, i);
    }
  }

  /** The window from the i-th grant, with times measured in tokens. */
  predicate RoomFor(burst: real, credits: seq<real>, credit: real, i: nat)
    requires i < |credits|
  {
    1.0 + (|credits| - i) as real <= burst + (credit - credits[i])
  }

  ghost predicate Room(burst: real, credits: seq<real>, credit: real) {
    forall i :: 0 <= i < |credits| ==> RoomFor(burst, credits, credit, i)
  }

  lemma {:induction false} OneIsLevel(burst: real, credits: seq<real>, credit: real)
    requires burst >= 1.0
    ensures CreditLevel(burst, credits, credit) >= 1.0 <==> Room(burst, credits, credit)
  {
    CreditLevelIsMinimum(burst, credits, credit, 1.0);
    if Room(burst, credits, credit) {
      forall i | 0 <= i < |credits|
        ensures 1.0 + (|credits| - i) as real <= burst + (credit - credits[i])
      {
        assert RoomFor(burst, credits, credit, i);
      }
    }
  }

  lemma CreditLevelRefills(burst: real, credits: seq<real>, from: real, to: real, gain: real)
    requires gain >= 0.0 && to == from + gain
    ensures CreditLevel(burst, credits, to) == Min(burst, CreditLevel(burst, credits, from) + gain)
  {
  }

  lemma LevelGains(l: Limits, times: seq<real>, from: real, to: real, gain: real)
    requires gain >= 0.0 && l.rate * to == l.rate * from + gain
    ensures Level(l, times, to) == Min(l.burst, Level(l, times, from) + gain)
  {
    CreditLevelRefills(l.burst, Credits(l, times), l.rate * from, l.rate * to, gain);
  }

  /** Between grants the level only refills. */
  lemma LevelRefills(l: Limits, times: seq<real>, from: real, to: real, elapsed: real)
    requires Serves(l) && elapsed >= 0.0 && to == from + elapsed
    ensures Level(l, times, to) == Refill(l, Level(l, times, from), elapsed)
  {
    Scale(l.rate, 0.0, elapsed);
    Distribute(l.rate, from, elapsed);
    LevelGains(l, times, from, to, l.rate * elapsed);
  }

  /** The stored fields describe the level just after the last grant. */
  ghost predicate Describes(l: Limits, key: Key, times: seq<real>)
    requires Serves(l)
  {
    if key.Absent? then times == []
    else
      && times != [] && key.last == times[|times| - 1]
      && key.expires == key.last + TimeToLive(l) as real
      && key.tokens == Level(l, times[..|times| - 1], key.last) - 1.0
      && key.tokens >= 0.0
  }

  /** A key is only dropped once its bucket is full again. */
  lemma ExpiredIsFull(l: Limits, elapsed: real)
    requires Serves(l) && elapsed >= TimeToLive(l) as real
    ensures l.rate * elapsed >= l.burst
  {
    var full := l.burst / l.rate;
    assert full <= Ceil(full) as real;
    Scale(l.rate, full, elapsed);
    assert l.rate * full == l.burst;
  }

  lemma {:induction false} AvailableIsLevel(l: Limits, key: Key, times: seq<real>, now: real)
    requires Serves(l) && Describes(l, key, times) && NotBefore(now, times)
    ensures Available(l, key, now) == Level(l, times, now)
  {
    if key.Present? {
      var n := |times| - 1;
      assert times == times[..n] + [times[n]];
      if now >= key.expires {
        ExpiredLevel(l, times[..n], key.last, now, key.tokens);
      } else {
        LevelStep(l, times[..n], key.last, now);
        LiveRefill(l, key, now);
      }
    }
  }

  lemma LiveRefill(l: Limits, key: Key, now: real)
    requires key.Present? && key.last <= now < key.expires
    ensures Available(l, key, now) == Refill(l, key.tokens, now - key.last)
  {
  }

  lemma ExpiredLevel(l: Limits, times: seq<real>, last: real, now: real, tokens: real)
    requires Serves(l) && now - last >= TimeToLive(l) as real && tokens == Level(l, times, last) - 1.0 >= 0.0
    ensures Level(l, times + [last], now) == l.burst
  {
    LevelStep(l, times, last, now);
    ExpiredIsFull(l, now - last);
    FullRefill(l, tokens, now - last);
  }

  lemma FullRefill(l: Limits, tokens: real, elapsed: real)
    requires tokens >= 0.0 && l.rate * elapsed >= l.burst
    ensures Refill(l, tokens, elapsed) == l.burst
  {
  }

  /** The script's decision is exactly admissibility. */
  lemma {:induction false} GrantIsAdmissible(l: Limits, key: Key, times: seq<real>, now: real)
    requires Serves(l) && Describes(l, key, times) && NotBefore(now, times)
    ensures Available(l, key, now) >= 1.0 <==> Admissible(l, times, now)
  {
    AvailableIsLevel(l, key, times, now);
    AdmissibleIsLevel(l, times, now);
  }

  lemma GrantKeeps(l: Limits, key: Key, times: seq<real>, now: real)
    requires Serves(l) && Describes(l, key, times) && NotBefore(now, times) && Available(l, key, now) >= 1.0
    ensures Describes(l, AfterScript(l, key, now), times + [now])
  {
    AvailableIsLevel(l, key, times, now);
    assert (times + [now])[..|times|] == times;
  }

  lemma Reaches(l: Limits, level: real, wait: real, elapsed: real)
    requires Serves(l) && l.rate * wait == 1.0 - level
    ensures Refill(l, level, elapsed) >= 1.0 <==> elapsed >= wait
  {
    var need, gain := l.rate * wait, l.rate * elapsed;
    assert wait <= elapsed <==> need <= gain by {
      Scale(l.rate, wait, elapsed);
    }
    assert need == 1.0 - level;
    assert Refill(l, level, elapsed) == Min(l.burst, level + gain);
  }

  /** The reported wait is exact: with no grant in between, the bucket serves from then on, not before. */
  lemma WaitIsExact(l: Limits, times: seq<real>, now: real, wait: real, elapsed: real)
    requires Serves(l) && elapsed >= 0.0
    requires Level(l, times, now) < 1.0 && l.rate * wait == 1.0 - Level(l, times, now)
    ensures Admissible(l, times, now + elapsed) <==> elapsed >= wait
  {
    LevelRefills(l, times, now, now + elapsed, elapsed);
    AdmissibleIsLevel(l, times, now + elapsed);
    Reaches(l, Level(l, times, now), wait, elapsed);
  }

  // ---------------------------------------------------------------- windows

  /** Each grant was admissible when it was made. */
  ghost predicate EachAdmissible(l: Limits, times: seq<real>) {
    forall k :: 0 <= k < |times| ==> Admissible(l, times[..k], times[k])
  }

  function CountIn(times: seq<real>, from: real, to: real): nat {
    if times == [] then 0
    else CountIn(times[..|times| - 1], from, to) + if from <= times[|times| - 1] <= to then 1 else 0
  }

  lemma {:induction false} CountWithin(times: seq<real>, from: real, to: real, first: nat)
    requires Ascending(times)
    requires first <= |times| && forall i :: 0 <= i < first ==> times[i] < from
    ensures CountIn(times, from, to) <= |times| - first
  {
    if times != [] {
      CountWithin(times[..|times| - 1], from, to, if first < |times| then first else first - 1);
    }
  }

  lemma FromGrant(l: Limits, times: seq<real>, first: nat, length: real)
    requires Serves(l) && EachAdmissible(l, times)
    requires first < |times| && times[|times| - 1] - times[first] <= length && 0.0 <= length
    ensures (|times| - first) as real <= l.burst + l.rate * length
  {
    var n := |times| - 1;
    Scale(l.rate, times[n] - times[first], length);
    if first < n {
      assert Fits(l, times[..n], times[n], first);
    } else {
      Scale(l.rate, 0.0, length);
    }
  }

  lemma LastInWindow(l: Limits, times: seq<real>, from: real, length: real)
    requires Serves(l) && Ascending(times) && EachAdmissible(l, times)
    requires times != [] && from <= times[|times| - 1] <= from + length
    ensures CountIn(times, from, from + length) as real <= l.burst + l.rate * length
  {
    var first := FirstFrom(times, from);
    CountWithin(times, from, from + length, first);
    FromGrant(l, times, first, length);
  }

  /** Over any stretch of time the grants number at most burst + rate * length. */
  lemma {:induction false} WindowBound(l: Limits, times: seq<real>, from: real, length: real)
    requires Serves(l) && Ascending(times) && EachAdmissible(l, times) && 0.0 <= length
    ensures CountIn(times, from, from + length) as real <= l.burst + l.rate * length
  {
    Scale(l.rate, 0.0, length);
    if times != [] {
      var n := |times| - 1;
      assert forall k :: 0 <= k < n ==> times[..n][..k] == times[..k];
      if !(from <= times[n] <= from + length) {
        WindowBound(l, times[..n], from, length);
      } else {
        LastInWindow(l, times, from, length);
      }
    }
  }

  function FirstFrom(times: seq<real>, from: real): (i: nat)
    requires times != [] && from <= times[|times| - 1]
    ensures i < |times| && from <= times[i] && forall j :: 0 <= j < i ==> times[j] < from
  {
    if from <= times[0] then 0
    else
      var i := FirstFrom(times[1..], from);
      assert forall j :: 1 <= j <= i ==> times[j] == times[1..][j - 1];
      i + 1
  }

  // ---------------------------------------------------------------- an eager bucket

  /** The reference: it refills and stores on every request and never expires. */
  datatype Eager = Eager(tokens: real, last: real)

  function Refilled(l: Limits, e: Eager, now: real): real {
    Refill(l, e.tokens, now - e.last)
  }

  function AfterEager(l: Limits, e: Eager, now: real): Eager {
    var tokens := Refilled(l, e, now);
    Eager(if tokens < 1.0 then tokens else tokens - 1.0, now)
  }

  function EagerDecisions(l: Limits, e: Eager, requests: seq<real>): seq<bool>
    decreases |requests|
  {
    if requests == [] then []
    else [Refilled(l, e, requests[0]) >= 1.0] + EagerDecisions(l, AfterEager(l, e, requests[0]), requests[1..])
  }

  function LazyDecisions(l: Limits, key: Key, requests: seq<real>): seq<bool>
    requires Serves(l)
    decreases |requests|
  {
    if requests == [] then []
    else [Available(l, key, requests[0]) >= 1.0] + LazyDecisions(l, AfterScript(l, key, requests[0]), requests[1..])
  }

  lemma JustGranted(l: Limits, times: seq<real>, now: real)
    requires Serves(l) && NotBefore(now, times)
    ensures Level(l, times + [now], now) == Level(l, times, now) - 1.0
  {
    LevelStep(l, times, now, now);
    assert l.rate * (now - now) == 0.0;
  }

  /** The eager bucket holds the level of the grants so far, as of its last request. */
  ghost predicate Tracks(l: Limits, e: Eager, times: seq<real>) {
    NotBefore(e.last, times) && e.tokens == Level(l, times, e.last)
  }

  lemma RefilledIsLevel(l: Limits, times: seq<real>, e: Eager, now: real)
    requires Serves(l) && Tracks(l, e, times) && e.last <= now
    ensures Refilled(l, e, now) == Level(l, times, now)
  {
    calc {
      Refilled(l, e, now);
      Refill(l, Level(l, times, e.last), now - e.last);
      { LevelRefills(l, times, e.last, now, now - e.last); }
      Level(l, times, now);
    }
  }

  lemma BothStep(l: Limits, key: Key, times: seq<real>, e: Eager, now: real)
    requires Serves(l) && Describes(l, key, times) && Tracks(l, e, times) && e.last <= now
    ensures Available(l, key, now) == Refilled(l, e, now)
    ensures var times' := if Available(l, key, now) >= 1.0 then times + [now] else times;
            Describes(l, AfterScript(l, key, now), times') && Tracks(l, AfterEager(l, e, now), times')
  {
    RefilledIsLevel(l, times, e, now);
    AvailableIsLevel(l, key, times, now);
    if Available(l, key, now) >= 1.0 {
      GrantKeeps(l, key, times, now);
      JustGranted(l, times, now);
    }
  }

  lemma {:induction false} SameDecisions(l: Limits, key: Key, times: seq<real>, e: Eager, requests: seq<real>)
    requires Serves(l) && Describes(l, key, times) && Tracks(l, e, times)
    requires Ascending(requests) && (requests != [] ==> e.last <= requests[0])
    ensures LazyDecisions(l, key, requests) == EagerDecisions(l, e, requests)
    decreases |requests|
  {
    if requests != [] {
      var now := requests[0];
      BothStep(l, key, times, e, now);
      SameDecisions(l, AfterScript(l, key, now), if Available(l, key, now) >= 1.0 then times + [now] else times,
                    AfterEager(l, e, now), requests[1..]);
    }
  }

  /** On every sequence of requests the script decides as the eager bucket does, both starting full. */
  lemma {:induction false} LazyRefinesEager(l: Limits, requests: seq<real>)
    requires Serves(l) && Ascending(requests)
    ensures requests != [] ==>
      LazyDecisions(l, Absent, requests) == EagerDecisions(l, Eager(l.burst, requests[0]), requests)
  {
    if requests != [] {
      SameDecisions(l, Absent, [], Eager(l.burst, requests[0]), requests);
    }
  }

  // ---------------------------------------------------------------- the limiter

  function KeyOf(keys: map<string, Key>, domain: string): Key {
    if domain in keys then keys[domain] else Absent
  }

  function TimesOf(grants: map<string, seq<real>>, domain: string): seq<real> {
    if domain in grants then grants[domain] else []
  }

  /** How long a caller at `now` has to wait when nobody else is granted anything. */
  function WaitFrom(l: Limits, times: seq<real>, now: real): real
    requires Serves(l)
  {
    var level := Level(l, times, now);
    if level < 1.0 then (1.0 - level) / l.rate else 0.0
  }

  ghost predicate Served(l: Limits, times: seq<real>) {
    Ascending(times) && EachAdmissible(l, times)
  }

  lemma ServeOneMore(l: Limits, times: seq<real>, now: real)
    requires Served(l, times) && NotBefore(now, times) && Admissible(l, times, now)
    ensures Served(l, times + [now])
  {
    var more := times + [now];
    forall k | 0 <= k < |more|
      ensures Admissible(l, more[..k], more[k])
    {
      assert more[..k] == if k < |times| then times[..k] else times;
    }
  }

  lemma {:induction false} WaitFromIsExact(l: Limits, times: seq<real>, now: real, later: real)
    requires Serves(l) && now <= later
    ensures Admissible(l, times, later) <==> later >= now + WaitFrom(l, times, now)
  {
    var level, wait := Level(l, times, now), WaitFrom(l, times, now);
    if level < 1.0 {
      assert l.rate * wait == 1.0 - level;
      WaitIsExact(l, times, now, wait, later - now);
    } else {
      StaysServed(l, times, now, later);
    }
  }

  /** A caller that is denied later has exactly the rest of its wait ahead. */
  lemma WaitShrinks(l: Limits, times: seq<real>, start: real, now: real)
    requires Serves(l) && start <= now && !Admissible(l, times, now)
    ensures now + WaitFrom(l, times, now) == start + WaitFrom(l, times, start)
  {
    var due, left := start + WaitFrom(l, times, start), now + WaitFrom(l, times, now);
    WaitFromIsExact(l, times, start, now);
    WaitFromIsExact(l, times, now, due);
    WaitFromIsExact(l, times, now, left);
    WaitFromIsExact(l, times, start, left);
    WaitFromIsExact(l, times, start, due);
  }

  lemma StaysServed(l: Limits, times: seq<real>, now: real, later: real)
    requires Serves(l) && now <= later && Level(l, times, now) >= 1.0
    ensures Admissible(l, times, later)
  {
    LevelRefills(l, times, now, later, later - now);
    Scale(l.rate, 0.0, later - now);
    AdmissibleIsLevel(l, times, later);
  }

  /** The refill of the script's two fields, taken at their defaults when there is no live key. */
  lemma RefillIsAvailable(l: Limits, key: Key, now: real, tokens: real, last: real)
    requires if key.Present? && now < key.expires then tokens == key.tokens && last == key.last
             else tokens == l.burst && last == now
    ensures Refill(l, tokens, Max(0.0, now - last)) == Available(l, key, now)
  {
  }

  lemma ScriptDecides(l: Limits, key: Key, times: seq<real>, now: real)
    requires Serves(l) && Describes(l, key, times) && NotBefore(now, times)
    ensures Available(l, key, now) >= 1.0 <==> Admissible(l, times, now)
    ensures WaitFrom(l, times, now) ==
            if Available(l, key, now) < 1.0 then (1.0 - Available(l, key, now)) / l.rate else 0.0
  {
    GrantIsAdmissible(l, key, times, now);
    AvailableIsLevel(l, key, times, now);
  }

  /** The key stands for the grants, and each of them was admissible. */
  ghost predicate Kept(l: Limits, key: Key, times: seq<real>)
    requires Serves(l)
  {
    Describes(l, key, times) && Served(l, times)
  }

  lemma KeptAfterGrant(l: Limits, keys: map<string, Key>, grants: map<string, seq<real>>, domain: string, key: Key,
                       times: seq<real>, keys': map<string, Key>, grants': map<string, seq<real>>)
    requires Serves(l) && Kept(l, key, times) && forall d :: Kept(l, KeyOf(keys, d), TimesOf(grants, d))
    requires keys' == keys[domain := key] && grants' == grants[domain := times]
    ensures forall d :: Kept(l, KeyOf(keys', d), TimesOf(grants', d))
    ensures TimesOf(grants', domain) == times
    ensures forall d :: d != domain ==> TimesOf(grants', d) == TimesOf(grants, d)
  {
    forall d
      ensures Kept(l, KeyOf(keys', d), TimesOf(grants', d))
    {
      assert Kept(l, KeyOf(keys, d), TimesOf(grants, d));
    }
  }

  lemma ScriptGrants(l: Limits, key: Key, times: seq<real>, now: real)
    requires Serves(l) && Kept(l, key, times) && NotBefore(now, times)
    requires Available(l, key, now) >= 1.0
    ensures Kept(l, AfterScript(l, key, now), times + [now])
  {
    GrantKeeps(l, key, times, now);
    GrantIsAdmissible(l, key, times, now);
    ServeOneMore(l, times, now);
  }

  /** What a grant stores: the level less one token, the time, and a lifetime that lets the bucket fill. */
  ghost predicate KeyWritten(l: Limits, times: seq<real>, now: real, key: Key)
    requires Serves(l)
  {
    && key.Present? && key.tokens == Level(l, times, now) - 1.0 && key.last == now
    && LivesFor(l.burst / l.rate, key.expires - now)
  }

  lemma GrantWrites(l: Limits, key: Key, times: seq<real>, now: real)
    requires Serves(l) && Describes(l, key, times) && NotBefore(now, times) && Available(l, key, now) >= 1.0
    ensures KeyWritten(l, times, now, AfterScript(l, key, now))
  {
    AvailableIsLevel(l, key, times, now);
    LifetimeIsExact(l);
  }

  /** All there is to know of a grant. */
  lemma GrantIs(l: Limits, key: Key, times: seq<real>, now: real, written: Key)
    requires Serves(l) && Kept(l, key, times) && NotBefore(now, times) && Available(l, key, now) >= 1.0
    requires written == Present(Available(l, key, now) - 1.0, now, now + TimeToLive(l) as real)
    ensures Kept(l, written, times + [now]) && KeyWritten(l, times, now, written)
  {
    ScriptGrants(l, key, times, now);
    GrantWrites(l, key, times, now);
  }

  class RateLimiter {
    const limits: Limits
    var keys: map<string, Key>
    /** Every grant so far, per domain. */
    ghost var grants: map<string, seq<real>>

    ghost function Granted(domain: string): seq<real>
      reads this
    {
      TimesOf(grants, domain)
    }

    ghost predicate Valid()
      reads this
    {
      Serves(limits) && forall d :: Kept(limits, KeyOf(keys, d), TimesOf(grants, d))
    }

    constructor (limits: Limits)
      requires Serves(limits)
      ensures Valid() && this.limits == limits && grants == map[]
    {
      this.limits, keys, grants := limits, map[], map[];
    }

    /** The script. It grants exactly when every window of grants stays within the limits, and the wait it
        computes on a denial is exact. */
    method Script(domain: string, now: real) returns (allowed: bool, wait: real)
      requires Valid() && NotBefore(now, Granted(domain))
      modifies this
      ensures Valid()
      ensures allowed <==> Admissible(limits, old(Granted(domain)), now)
      ensures wait == WaitFrom(limits, old(Granted(domain)), now)
      ensures Granted(domain) == if allowed then old(Granted(domain)) + [now] else old(Granted(domain))
      ensures forall d :: d != domain ==> Granted(d) == old(Granted(d))
      ensures !allowed ==> keys == old(keys)
      ensures allowed ==>
        && domain in keys && keys == old(keys)[domain := keys[domain]]
        && KeyWritten(limits, old(Granted(domain)), now, keys[domain])
    {
      var key := KeyOf(keys, domain);
      ScriptDecides(limits, key, Granted(domain), now);
      var tokens, last := limits.burst, now;
      if key.Present? && now < key.expires {
        tokens, last := key.tokens, key.last;
      }
      RefillIsAvailable(limits, key, now, tokens, last);
      tokens := Refill(limits, tokens, Max(0.0, now - last));
      if tokens < 1.0 {
        return false, (1.0 - tokens) / limits.rate;
      }
      var written := Present(tokens - 1.0, now, now + TimeToLive(limits) as real);
      GrantIs(limits, key, Granted(domain), now, written);
      keys := keys[domain := written];
      grants := grants[domain := Granted(domain) + [now]];
      KeptAfterGrant(limits, old(keys), old(grants), domain, written, old(Granted(domain)) + [now], keys, grants);
      return true, 0.0;
    }

    /** Polls until granted. The reply carries only some part of the wait (Redis truncates it to an
        integer) and each sleep may overrun by some lag. */
    method Acquire(domain: string, start: real, reply: (nat, real) -> real, lag: nat -> real)
      returns (now: real, calls: nat)
      requires Valid() && NotBefore(start, Granted(domain))
      requires forall i, w :: 0.0 <= w ==> 0.0 <= reply(i, w) <= w
      requires forall i :: 0.0 <= lag(i)
      modifies this
      ensures Valid() && Granted(domain) == old(Granted(domain)) + [now]
      ensures var w := WaitFrom(limits, old(Granted(domain)), start);
              && now >= start + w
              && calls <= Ceil(w / 0.01) + 1
              && (calls == 1 ==> now == start)
              && (calls > 1 ==> now <= start + w + 0.01 + lag(calls - 2))
              && (reply(0, w) == w ==> calls <= 2)
    {
      ghost var times := Granted(domain);
      ghost var w := WaitFrom(limits, times, start);
      now, calls := start, 0;
      while true
        invariant Valid() && Granted(domain) == times
        invariant now >= start + 0.01 * calls as real
        invariant calls <= Ceil(w / 0.01)
        invariant calls == 0 ==> now == start
        invariant calls > 0 ==> now <= start + w + 0.01 + lag(calls - 1)
        invariant calls > 0 && reply(0, w) == w ==> calls == 1 && now >= start + w
        decreases Ceil(w / 0.01) - calls
      {
        WaitFromIsExact(limits, times, start, now);
        var allowed, wait := Script(domain, now);
        calls := calls + 1;
        if allowed {
          return;
        }
        WaitShrinks(limits, times, start, now);
        now := now + Max(reply(calls - 1, wait), 0.01) + lag(calls - 1);
      }
    }
  }
}
