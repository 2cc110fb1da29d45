/** Link discovery: host names, the per-job domain filter, order-preserving deduplication. */
module Links {
  import opened Events

  /** A discovered link, with the normal form that normalize_url gives it. */
  datatype Link = Link(url: string, normalized: Url)

  // ---------------------------------------------------------------- host of a URL

  /** Index of the first character of s that is in cs, or |s|. */
  function IndexOf(s: string, cs: set<char>): (i: nat)
    ensures i <= |s|
    ensures i < |s| ==> s[i] in cs
    ensures forall j :: 0 <= j < i ==> s[j] !in cs
  {
    if s == "" || s[0] in cs then 0
    else
      var rest := IndexOf(s[1..], cs);
      assert forall j :: 0 < j <= rest && j < |s| ==> s[j] == s[1..][j - 1];
      1 + rest
  }

  predicate SchemeChar(c: char) {
    'a' <= c <= 'z' || 'A' <= c <= 'Z' || '0' <= c <= '9' || c == '+' || c == '-' || c == '.'
  }

  predicate HasScheme(url: string) {
    var i := IndexOf(url, {':'});
    0 < i < |url| && ('a' <= url[0] <= 'z' || 'A' <= url[0] <= 'Z') && forall j :: 0 <= j < i ==> SchemeChar(url[j])
  }

  function AfterScheme(url: string): string {
    if HasScheme(url) then url[IndexOf(url, {':'}) + 1..] else url
  }

  /** urlparse(url).netloc */
  function Netloc(url: string): string {
    var rest := AfterScheme(url);
    if "//" <= rest then rest[2..][..IndexOf(rest[2..], {'/', '?', '#'})] else ""
  }

  /** urlparse(url).netloc.split(":")[0] */
  function HostOf(url: string): string {
    var netloc := Netloc(url);
    netloc[..IndexOf(netloc, {':'})]
  }

  predicate EndsWith(s: string, suffix: string) {
    |suffix| <= |s| && s[|s| - |suffix|..] == suffix
  }

  predicate DomainAllowed(host: string, domains: seq<string>) {
    exists d | d in domains :: host == d || EndsWith(host, "." + d)
  }

  /** A host passes if it is one of the domains, or ends in one behind a dot. */
  lemma DomainAllowedIff(host: string, domains: seq<string>)
    ensures DomainAllowed(host, domains) <==>
            exists d, front :: d in domains && host == front + d && (front == "" || front[|front| - 1] == '.')
  {
    if DomainAllowed(host, domains) {
      var d :| d in domains && (host == d || EndsWith(host, "." + d));
      DotEnds(host, d);
      assert host == host[..|host| - |d|] + d;
    }
    if d, front :| d in domains && host == front + d && (front == "" || front[|front| - 1] == '.') {
      DotBehind(host, front, d);
    }
  }

  lemma DotEnds(host: string, d: string)
    requires host == d || EndsWith(host, "." + d)
    ensures |d| <= |host| && host == host[..|host| - |d|] + d
    ensures |d| < |host| ==> host[|host| - |d| - 1] == '.'
  {
  }

  lemma DotBehind(host: string, front: string, d: string)
    requires host == front + d && (front == "" || front[|front| - 1] == '.')
    ensures host == d || EndsWith(host, "." + d)
  {
    if front != "" {
      assert host[|host| - |"." + d|..] == "." + d;
    }
  }

  /** The first delimiter of a text that starts with a piece free of it. */
  lemma {:induction false} IndexBehind(piece: string, rest: string, cs: set<char>)
    requires forall i :: 0 <= i < |piece| ==> piece[i] !in cs
    requires rest == "" || rest[0] in cs
    ensures IndexOf(piece + rest, cs) == |piece|
  {
    var i := IndexOf(piece + rest, cs);
    assert forall j :: 0 <= j < |piece| ==> (piece + rest)[j] == piece[j];
    if rest != "" {
      assert (piece + rest)[|piece|] == rest[0];
    }
  }

  /** A scheme: a letter, then letters, digits and "+-.". */
  predicate IsScheme(scheme: string) {
    && scheme != "" && ('a' <= scheme[0] <= 'z' || 'A' <= scheme[0] <= 'Z')
    && forall c :: c in scheme ==>
         'a' <= c <= 'z' || 'A' <= c <= 'Z' || '0' <= c <= '9' || c == '+' || c == '-' || c == '.'
  }

  lemma SchemeSplits(scheme: string, rest: string, url: string)
    requires IsScheme(scheme) && url == scheme + ":" + rest
    ensures HasScheme(url) && IndexOf(url, {':'}) == |scheme| && url[..|scheme|] == scheme && AfterScheme(url) == rest
  {
    assert forall i :: 0 <= i < |scheme| ==> scheme[i] in scheme;
    assert url == scheme + (":" + rest);
    IndexBehind(scheme, ":" + rest, {':'});
    assert url[|scheme| + 1..] == rest;
    assert forall j :: 0 <= j < |scheme| ==> url[j] == scheme[j];
  }

  /** What stands before the first ':' is the scheme if it is well-formed; else there is none. */
  lemma HasSchemeIff(url: string)
    ensures HasScheme(url) <==> exists scheme, rest :: IsScheme(scheme) && url == scheme + ":" + rest
    ensures !HasScheme(url) ==> AfterScheme(url) == url
  {
    if HasScheme(url) {
      var i := IndexOf(url, {':'});
      assert forall c :: c in url[..i] ==> SchemeChar(c);
      assert IsScheme(url[..i]) && url == url[..i] + ":" + url[i + 1..];
    }
    if scheme, rest :| IsScheme(scheme) && url == scheme + ":" + rest {
      SchemeSplits(scheme, rest, url);
    }
  }

  lemma NetlocSplits(url: string, netloc: string, tail: string)
    requires AfterScheme(url) == "//" + (netloc + tail)
    requires (forall c :: c in netloc ==> c !in {'/', '?', '#'}) && (tail == "" || tail[0] in {'/', '?', '#'})
    ensures Netloc(url) == netloc
  {
    assert AfterScheme(url)[2..] == netloc + tail;
    assert forall i :: 0 <= i < |netloc| ==> netloc[i] in netloc;
    IndexBehind(netloc, tail, {'/', '?', '#'});
  }

  /** The host of a URL with an authority: up to the port, path, query or fragment. */
  lemma HostOfUrl(scheme: string, host: string, port: string, tail: string, url: string)
    requires IsScheme(scheme) && url == scheme + ":" + ("//" + ((host + port) + tail))
    requires forall c :: c in host ==> c !in {':', '/', '?', '#'}
    requires (port == "" || port[0] == ':') && forall c :: c in port ==> c !in {'/', '?', '#'}
    requires tail == "" || tail[0] in {'/', '?', '#'}
    ensures HostOf(url) == host
  {
    SchemeSplits(scheme, "//" + ((host + port) + tail), url);
    NetlocSplits(url, host + port, tail);
    assert forall i :: 0 <= i < |host| ==> host[i] in host;
    IndexBehind(host, port, {':'});
  }

  // ---------------------------------------------------------------- filter_links_by_domain

  function FilterLinks(links: seq<Link>, domains: seq<string>): seq<Link> {
    if links == [] then []
    else
      var init, last := links[..|links| - 1], links[|links| - 1];
      FilterLinks(init, domains) + if DomainAllowed(HostOf(last.url), domains) then [last] else []
  }

  method FilterLinksByDomain(links: seq<Link>, domains: seq<string>) returns (result: seq<Link>)
    ensures result == FilterLinks(links, domains)
  {
    result := [];
    for i := 0 to |links|
      invariant result == FilterLinks(links[..i], domains)
    {
      assert links[..i + 1][..i] == links[..i];
      if DomainAllowed(HostOf(links[i].url), domains) {
        result := result + [links[i]];
      }
    }
    assert links[..|links|] == links;
  }

  /** The filter keeps exactly the allowed links, with their multiplicity. */
  lemma {:induction false} FilterKeepsAllowed(links: seq<Link>, domains: seq<string>)
    ensures forall l :: multiset(FilterLinks(links, domains))[l] ==
                        if DomainAllowed(HostOf(l.url), domains) then multiset(links)[l] else 0
    ensures forall l :: l in FilterLinks(links, domains) ==> l in links && DomainAllowed(HostOf(l.url), domains)
  {
    if links != [] {
      var init, last := links[..|links| - 1], links[|links| - 1];
      FilterKeepsAllowed(init, domains);
      assert links == init + [last];
    }
  }

  /** The filter preserves order: it commutes with splitting the list. */
  lemma {:induction false} FilterConcat(a: seq<Link>, b: seq<Link>, domains: seq<string>)
    ensures FilterLinks(a + b, domains) == FilterLinks(a, domains) + FilterLinks(b, domains)
  {
    if b == [] {
      assert a + b == a;
    } else {
      var init := b[..|b| - 1];
      assert (a + b)[..|a + b| - 1] == a + init;
      FilterConcat(a, init, domains);
    }
  }

  function Limit(links: seq<Link>): seq<Link> {
    if |links| <= 50 then links else links[..50]
  }

  // ---------------------------------------------------------------- first-occurrence deduplication

  /** The distinct elements of xs in order of first occurrence, as list(dict.fromkeys(xs)) gives. */
  function Dedupe<T(==)>(xs: seq<T>): seq<T> {
    if xs == [] then []
    else
      var init, last := xs[..|xs| - 1], xs[|xs| - 1];
      if last in init then Dedupe(init) else Dedupe(init) + [last]
  }

  method DedupeLinks(links: seq<string>) returns (result: seq<string>)
    ensures result == Dedupe(links)
  {
    var seen := {};
    result := [];
    for i := 0 to |links|
      invariant seen == set l | l in links[..i]
      invariant result == Dedupe(links[..i])
    {
      var link := links[i];
      assert links[..i + 1][..i] == links[..i];
      assert links[..i + 1] == links[..i] + [link];
      if link !in seen {
        seen := seen + {link};
        result := result + [link];
      }
    }
    assert links[..|links|] == links;
  }

  predicate NoRepeats<T(==)>(xs: seq<T>) {
    forall i, j :: 0 <= i < j < |xs| ==> xs[i] != xs[j]
  }

  /** In xs, x occurs before any occurrence of y. */
  predicate OccursFirst<T(==)>(xs: seq<T>, x: T, y: T) {
    exists p :: 0 <= p < |xs| && xs[p] == x && y !in xs[..p + 1]
  }

  lemma {:induction false} DedupeMember<T>(xs: seq<T>, x: T)
    ensures x in Dedupe(xs) <==> x in xs
  {
    if xs != [] {
      var init, last := xs[..|xs| - 1], xs[|xs| - 1];
      DedupeMember(init, x);
      assert xs == init + [last];
    }
  }

  lemma {:induction false} DedupeNoRepeats<T>(xs: seq<T>)
    ensures NoRepeats(Dedupe(xs))
  {
    if xs != [] {
      var init, last := xs[..|xs| - 1], xs[|xs| - 1];
      DedupeNoRepeats(init);
      DedupeMember(init, last);
    }
  }

  /** The result keeps the order of first occurrences. */
  lemma {:induction false} DedupeOrder<T>(xs: seq<T>, i: nat, j: nat)
    requires i < j < |Dedupe(xs)|
    ensures OccursFirst(xs, Dedupe(xs)[i], Dedupe(xs)[j])
  {
    var init, last := xs[..|xs| - 1], xs[|xs| - 1];
    var x, y := Dedupe(xs)[i], Dedupe(xs)[j];
    DedupeMember(init, x);
    var p: nat;
    if j < |Dedupe(init)| {
      DedupeOrder(init, i, j);
      p :| p < |init| && init[p] == x && y !in init[..p + 1];
    } else {
      assert x in Dedupe(init);
      p :| p < |init| && init[p] == x;
    }
    assert xs[..p + 1] == init[..p + 1];
  }

  lemma {:induction false} DedupeConcat<T>(a: seq<T>, b: seq<T>)
    requires forall x :: x in b ==> x in a
    ensures Dedupe(a + b) == Dedupe(a)
  {
    if b == [] {
      assert a + b == a;
    } else {
      var init, last := b[..|b| - 1], b[|b| - 1];
      assert (a + b)[..|a + b| - 1] == a + init;
      assert last in a + init;
      DedupeConcat(a, init);
    }
  }
}
