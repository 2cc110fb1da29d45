/** The global URL claim with its time to live: SET NX EX to claim, DEL to release. Times are Redis's own,
    in milliseconds. */
module Dedup {
  import opened Wrappers
  import opened Events

  /** A successful claim, or a release, of a URL. */
  datatype Mark = Claimed(url: Url, at: int) | Released(url: Url, at: int)

  /** The last mark of a URL. */
  function LastMark(marks: seq<Mark>, url: Url): Option<Mark> {
    if marks == [] then None
    else if marks[|marks| - 1].url == url then Some(marks[|marks| - 1])
    else LastMark(marks[..|marks| - 1], url)
  }

  /** A URL may be claimed when it never was, was released since, or was claimed at least the ttl ago. */
  predicate Free(marks: seq<Mark>, url: Url, ttl: int, now: int) {
    var last := LastMark(marks, url);
    last.Some? && last.value.Claimed? ==> now >= last.value.at + ttl
  }

  /** Mark i is a claim of the URL that still stands: no mark of the URL is later, and its ttl is not over. */
  predicate Stands(marks: seq<Mark>, i: int, url: Url, ttl: int, now: int) {
    && 0 <= i < |marks| && marks[i].Claimed? && marks[i].url == url && now - marks[i].at < ttl
    && forall j :: i < j < |marks| ==> marks[j].url != url
  }

  /** A URL is free exactly when no claim of it stands. */
  lemma {:induction false} FreeUnlessClaimed(marks: seq<Mark>, url: Url, ttl: int, now: int)
    ensures Free(marks, url, ttl, now) <==> forall i :: 0 <= i < |marks| ==> !Stands(marks, i, url, ttl, now)
  {
    if marks != [] {
      var init, last := marks[..|marks| - 1], marks[|marks| - 1];
      if last.url == url {
        assert Stands(marks, |init|, url, ttl, now) <==> last.Claimed? && now - last.at < ttl;
      } else {
        FreeUnlessClaimed(init, url, ttl, now);
        assert forall i :: 0 <= i < |init| ==> (Stands(marks, i, url, ttl, now) <==> Stands(init, i, url, ttl, now));
      }
    }
  }

  predicate InOrder(marks: seq<Mark>) {
    forall i, j :: 0 <= i <= j < |marks| ==> marks[i].at <= marks[j].at
  }

  /** Each claim found its URL free. */
  predicate Spaced(marks: seq<Mark>, ttl: int) {
    forall k :: 0 <= k < |marks| && marks[k].Claimed? ==> Free(marks[..k], marks[k].url, ttl, marks[k].at)
  }

  predicate Within(m: Mark, url: Url, from: int, to: int) {
    m.url == url && from <= m.at <= to
  }

  function Claims(marks: seq<Mark>, url: Url, from: int, to: int): nat {
    if marks == [] then 0
    else
      var last := marks[|marks| - 1];
      Claims(marks[..|marks| - 1], url, from, to) + if last.Claimed? && Within(last, url, from, to) then 1 else 0
  }

  function Releases(marks: seq<Mark>, url: Url, from: int, to: int): nat {
    if marks == [] then 0
    else
      var last := marks[|marks| - 1];
      Releases(marks[..|marks| - 1], url, from, to) + if last.Released? && Within(last, url, from, to) then 1 else 0
  }

  lemma LastMarkInOrder(marks: seq<Mark>, url: Url)
    requires InOrder(marks) && LastMark(marks, url).Some?
    ensures LastMark(marks, url).value.url == url
    ensures LastMark(marks, url).value.at <= marks[|marks| - 1].at
  {
    if marks[|marks| - 1].url != url {
      LastMarkInOrder(marks[..|marks| - 1], url);
    }
  }

  /** One ttl for each claim in the window, one back for each release. */
  function Owed(marks: seq<Mark>, url: Url, ttl: int, from: int, to: int): int {
    if marks == [] then 0
    else
      var last := marks[|marks| - 1];
      Owed(marks[..|marks| - 1], url, ttl, from, to) +
        if !Within(last, url, from, to) then 0 else if last.Claimed? then ttl else -ttl
  }

  lemma {:induction false} OwedIsProduct(marks: seq<Mark>, url: Url, ttl: int, from: int, to: int)
    ensures Owed(marks, url, ttl, from, to) == (Claims(marks, url, from, to) - Releases(marks, url, from, to)) * ttl
  {
    if marks != [] {
      var init := marks[..|marks| - 1];
      var n := Claims(init, url, from, to) - Releases(init, url, from, to);
      OwedIsProduct(init, url, ttl, from, to);
      assert (n + 1) * ttl == n * ttl + ttl && (n - 1) * ttl == n * ttl - ttl;
    }
  }

  /** What the last claim owes, its ttl not being over yet. */
  function Due(last: Mark, ttl: int): int {
    if last.Claimed? then ttl else 0
  }

  lemma {:induction false} NothingWithin(marks: seq<Mark>, url: Url, from: int, to: int)
    requires InOrder(marks)
    requires LastMark(marks, url).None? || LastMark(marks, url).value.at < from
    ensures Claims(marks, url, from, to) == 0 && Releases(marks, url, from, to) == 0
    ensures forall ttl :: Owed(marks, url, ttl, from, to) == 0
  {
    if marks != [] {
      var init := marks[..|marks| - 1];
      if LastMark(init, url).Some? {
        LastMarkInOrder(init, url);
        if marks[|marks| - 1].url == url {
          assert init[|init| - 1] == marks[|marks| - 2];
        }
      }
      NothingWithin(init, url, from, to);
    }
  }

  /** All but the last claim were paid for by the time that passed. */
  lemma {:induction false} EachTookATtl(marks: seq<Mark>, url: Url, ttl: int, from: int, to: int)
    requires ttl > 0 && InOrder(marks) && Spaced(marks, ttl)
    requires forall i :: 0 <= i < |marks| ==> marks[i].at <= to
    requires LastMark(marks, url).Some? && LastMark(marks, url).value.at >= from
    ensures var last := LastMark(marks, url).value;
            Owed(marks, url, ttl, from, to) - Due(last, ttl) <= last.at - from
  {
    var init, last := marks[..|marks| - 1], marks[|marks| - 1];
    assert forall k :: 0 <= k < |init| ==> init[..k] == marks[..k];
    if last.url != url {
      EachTookATtl(init, url, ttl, from, to);
    } else {
      var before := LastMark(init, url);
      if before.None? || before.value.at < from {
        NothingWithin(init, url, from, to);
      } else {
        assert last.Claimed? ==> Free(init, url, ttl, last.at);
        EachTookATtl(init, url, ttl, from, to);
        LastMarkInOrder(init, url);
        assert before.value.at <= init[|init| - 1].at <= last.at;
      }
    }
  }

  lemma OneLess(n: int, ttl: int)
    ensures (n - 1) * ttl == n * ttl - ttl
  {
  }

  lemma Cancel(a: int, b: int, ttl: int)
    requires ttl > 0 && a * ttl < b * ttl
    ensures a < b
  {
  }

  lemma QuotientBounds(n: int, length: int, ttl: int)
    requires ttl > 0 && length >= 0 && n * ttl <= length
    ensures n <= length / ttl
  {
    var q := length / ttl;
    assert length == q * ttl + length % ttl;
    assert (q + 1) * ttl == q * ttl + ttl;
    Cancel(n, q + 1, ttl);
  }

  lemma OwedBounds(marks: seq<Mark>, url: Url, ttl: int, from: int, to: int)
    requires ttl > 0 && from <= to && Owed(marks, url, ttl, from, to) - ttl <= to - from
    ensures Claims(marks, url, from, to) - Releases(marks, url, from, to) - 1 <= (to - from) / ttl
  {
    var n := Claims(marks, url, from, to) - Releases(marks, url, from, to);
    OwedIsProduct(marks, url, ttl, from, to);
    OneLess(n, ttl);
    QuotientBounds(n - 1, to - from, ttl);
  }

  /** In any window [from, to], k claims and r releases of one URL satisfy k <= 1 + r + floor((to - from)/ttl). */
  lemma {:induction false} ClaimsBounded(marks: seq<Mark>, url: Url, ttl: int, from: int, to: int)
    requires ttl > 0 && InOrder(marks) && Spaced(marks, ttl) && from <= to
    ensures Claims(marks, url, from, to) <= 1 + Releases(marks, url, from, to) + (to - from) / ttl
  {
    if marks != [] && marks[|marks| - 1].at > to {
      var init := marks[..|marks| - 1];
      assert forall k :: 0 <= k < |init| ==> init[..k] == marks[..k];
      ClaimsBounded(init, url, ttl, from, to);
    } else if LastMark(marks, url).None? || LastMark(marks, url).value.at < from {
      NothingWithin(marks, url, from, to);
    } else {
      LastMarkInOrder(marks, url);
      EachTookATtl(marks, url, ttl, from, to);
      OwedBounds(marks, url, ttl, from, to);
    }
  }

  // ---------------------------------------------------------------- the store

  function ExpiryOf(expires: map<Url, int>, url: Url): Option<int> {
    if url in expires then Some(expires[url]) else None
  }

  class UrlDedupStore {
    const ttl: int
    /** When each key that was set and not deleted expires. */
    var expires: map<Url, int>
    ghost var marks: seq<Mark>

    ghost predicate Valid()
      reads this
    {
      && ttl > 0 && InOrder(marks) && Spaced(marks, ttl)
      && forall u :: ExpiryOf(expires, u) == ExpiryIn(marks, u, ttl)
    }

    constructor (ttl: int)
      requires ttl > 0
      ensures Valid() && this.ttl == ttl && marks == []
    {
      this.ttl, expires, marks := ttl, map[], [];
    }

    method TryClaim(url: Url, now: int) returns (claimed: bool)
      requires Valid() && forall i :: 0 <= i < |marks| ==> marks[i].at <= now
      modifies this
      ensures Valid()
      ensures claimed == Free(old(marks), url, ttl, now)
      ensures claimed <==> forall i :: 0 <= i < |old(marks)| ==> !Stands(old(marks), i, url, ttl, now)
      ensures marks == if claimed then old(marks) + [Claimed(url, now)] else old(marks)
    {
      FreeUnlessClaimed(marks, url, ttl, now);
      assert ExpiryOf(expires, url) == ExpiryIn(marks, url, ttl);
      if url in expires && now < expires[url] {
        return false;
      }
      MarkAdded(marks, Claimed(url, now), ttl);
      expires := expires[url := now + ttl];
      marks := marks + [Claimed(url, now)];
      claimed := true;
    }

    method Release(url: Url, now: int)
      requires Valid() && forall i :: 0 <= i < |marks| ==> marks[i].at <= now
      modifies this
      ensures Valid()
      ensures marks == old(marks) + [Released(url, now)]
    {
      MarkAdded(marks, Released(url, now), ttl);
      expires := expires - {url};
      marks := marks + [Released(url, now)];
    }

    /** Whatever calls were made, the claims of a URL in a window stay within the bound. */
    lemma ClaimsInWindow(url: Url, from: int, to: int)
      requires Valid() && from <= to
      ensures Claims(marks, url, from, to) <= 1 + Releases(marks, url, from, to) + (to - from) / ttl
    {
      ClaimsBounded(marks, url, ttl, from, to);
    }
  }

  function ExpiryIn(marks: seq<Mark>, url: Url, ttl: int): Option<int> {
    var last := LastMark(marks, url);
    if last.Some? && last.value.Claimed? then Some(last.value.at + ttl) else None
  }

  lemma MarkAdded(marks: seq<Mark>, m: Mark, ttl: int)
    requires InOrder(marks) && Spaced(marks, ttl) && forall i :: 0 <= i < |marks| ==> marks[i].at <= m.at
    requires m.Claimed? ==> Free(marks, m.url, ttl, m.at)
    ensures InOrder(marks + [m]) && Spaced(marks + [m], ttl)
    ensures forall u :: u != m.url ==> ExpiryIn(marks + [m], u, ttl) == ExpiryIn(marks, u, ttl)
    ensures ExpiryIn(marks + [m], m.url, ttl) == if m.Claimed? then Some(m.at + ttl) else None
  {
    var more := marks + [m];
    assert forall k :: 0 <= k < |marks| ==> more[..k] == marks[..k];
    assert more[..|marks|] == marks;
  }
}
