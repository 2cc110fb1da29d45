/** URL normalisation: parsing, the five canonicalising steps and printing. Strings are taken as the
    printable ASCII of section 2 of RFC 3986 with the space, around which whitespace is stripped. */
module UrlNormalize {
  import opened Wrappers
  import opened Links
  import opened Query
  import opened Percent
  import Text

  /** What urlsplit makes of a URL, the fragment aside. */
  datatype Parts = Parts(scheme: string, netloc: string, path: string, query: string)

  function LowerChar(c: char): char {
    if 'A' <= c <= 'Z' then (c as int + 32) as char else c
  }

  function Lower(s: string): (r: string)
    ensures |r| == |s| && forall i :: 0 <= i < |s| ==> r[i] == LowerChar(s[i])
  {
    seq(|s|, i requires 0 <= i < |s| => LowerChar(s[i]))
  }

  // ---------------------------------------------------------------- urlsplit, urlparse, urlunparse

  /** What follows the authority. */
  function AfterNetloc(url: string): string {
    var rest := AfterScheme(url);
    if "//" <= rest then rest[2 + |Netloc(url)|..] else rest
  }

  function WithoutFragment(s: string): string {
    s[..IndexOf(s, {'#'})]
  }

  function BeforeQuery(s: string): string {
    s[..IndexOf(s, {'?'})]
  }

  function AfterQuery(s: string): string {
    var i := IndexOf(s, {'?'});
    if i < |s| then s[i + 1..] else ""
  }

  function UrlSplit(url: string): Parts {
    var tail := WithoutFragment(AfterNetloc(url));
    Parts(if HasScheme(url) then Lower(url[..IndexOf(url, {':'})]) else "", Netloc(url), BeforeQuery(tail),
          AfterQuery(tail))
  }

  const USES_PARAMS := ["", "ftp", "hdl", "prospero", "http", "imap", "https", "shttp", "rtsp", "rtspu", "sip",
                        "sips", "mms", "sftp", "tel"]

  /** Where the last segment of a path starts. */
  function LastSegmentStart(path: string): (i: nat)
    ensures i <= |path| && (i > 0 ==> path[i - 1] == '/') && forall j :: i <= j < |path| ==> path[j] != '/'
  {
    if path == "" then 0
    else if path[|path| - 1] == '/' then |path|
    else LastSegmentStart(path[..|path| - 1])
  }

  function LastSegment(path: string): string {
    path[LastSegmentStart(path)..]
  }

  /** _splitparams: what follows a ';' in the last segment is no part of the path. */
  function DropParams(path: string): string {
    path[..LastSegmentStart(path) + IndexOf(LastSegment(path), {';'})]
  }

  function UrlParse(url: string): Parts {
    var p := UrlSplit(url);
    if p.scheme in USES_PARAMS then p.(path := DropParams(p.path)) else p
  }

  const USES_NETLOC := ["", "ftp", "http", "gopher", "nntp", "telnet", "imap", "wais", "file", "mms", "https",
                        "shttp", "snews", "prospero", "rtsp", "rtspu", "rsync", "svn", "svn+ssh", "sftp", "nfs",
                        "git", "git+ssh", "ws", "wss"]

  /** urlunparse without params and fragment. */
  function UrlUnparse(p: Parts): string {
    var rest :=
      if p.netloc != "" || (p.scheme != "" && p.scheme in USES_NETLOC && !("//" <= p.path))
      then "//" + p.netloc + (if p.path != "" && p.path[0] != '/' then "/" + p.path else p.path)
      else p.path;
    (if p.scheme != "" then p.scheme + ":" + rest else rest) + if p.query != "" then "?" + p.query else ""
  }

  // ---------------------------------------------------------------- normalize_url

  /** The digits of int(s), with single underscores between them. */
  function Digits(s: string, value: nat, afterDigit: bool): Option<int> {
    if s == "" then (if afterDigit then Some(value) else None)
    else if '0' <= s[0] <= '9' then Digits(s[1..], 10 * value + (s[0] as int - '0' as int), true)
    else if s[0] == '_' && afterDigit then Digits(s[1..], value, false)
    else None
  }

  /** int(text), or None for a ValueError. */
  function PyInt(text: string): Option<int> {
    var s := Text.Strip(text);
    if s != "" && (s[0] == '+' || s[0] == '-') then
      match Digits(s[1..], 0, false)
      case Some(n) => Some(if s[0] == '-' then -n else n)
      case None => None
    else Digits(s, 0, false)
  }

  function DefaultPort(scheme: string): Option<int> {
    if scheme == "http" then Some(80) else if scheme == "https" then Some(443) else None
  }

  predicate IsDefaultPort(scheme: string, port: string) {
    DefaultPort(scheme).Some? && PyInt(port) == DefaultPort(scheme)
  }

  /** The last ':' of s, or |s|. */
  function LastColon(s: string): (i: nat)
    ensures i <= |s| && (i < |s| ==> s[i] == ':') && forall j :: i < j < |s| ==> s[j] != ':'
    ensures i == |s| ==> forall j :: 0 <= j < |s| ==> s[j] != ':'
  {
    if s == "" then 0
    else if s[|s| - 1] == ':' then |s| - 1
    else
      var i := LastColon(s[..|s| - 1]);
      if i == |s| - 1 then |s| else i
  }

  function DropDefaultPort(scheme: string, netloc: string): string {
    var i := LastColon(netloc);
    if i < |netloc| && IsDefaultPort(scheme, netloc[i + 1..]) then netloc[..i] else netloc
  }

  /** path.rstrip("/") */
  function StripSlashes(path: string): string {
    if path != "" && path[|path| - 1] == '/' then StripSlashes(path[..|path| - 1]) else path
  }

  function TrimSlashes(path: string): string {
    if path != "/" then StripSlashes(path) else path
  }

  /** The parts of a URL; one without an authority is taken as host and path. */
  function Completed(u: string): Parts {
    var parsed := UrlParse(u);
    if parsed.netloc == "" && parsed.path != "" then UrlParse("http://" + u)
    else parsed.(scheme := if parsed.scheme == "" then "http" else parsed.scheme)
  }

  function NormalizeUrl(url: string): string {
    var p := Completed(Text.Strip(url));
    var scheme := Lower(p.scheme);
    UrlUnparse(Parts(scheme, DropDefaultPort(scheme, Lower(p.netloc)), TrimSlashes(p.path), CanonicalQuery(p.query)))
  }

  /** extract_domain */
  function ExtractDomain(url: string): string {
    HostOf(NormalizeUrl(url))
  }

  // ---------------------------------------------------------------- the URLs the guarantees are about

  predicate Printable(s: string) {
    forall i :: 0 <= i < |s| ==> ' ' <= s[i] <= '~'
  }

  /** Character k belongs to the host and is no space. */
  predicate HostCharAt(netloc: string, k: int) {
    0 <= k < |netloc| && netloc[k] != ' ' && forall j :: 0 <= j <= k ==> netloc[j] != ':'
  }

  /** host, or host:port, with a host that is not blank; no literal IPv6 address. */
  ghost predicate HostPort(netloc: string) {
    && (exists k :: HostCharAt(netloc, k))
    && '[' !in netloc && ']' !in netloc
    && forall i, j :: 0 <= i < j < |netloc| && netloc[i] == ':' ==> netloc[j] != ':'
  }

  /** An absolute http(s) URL. */
  ghost predicate Absolute(url: string) {
    var u := Text.Strip(url);
    var p := UrlSplit(u);
    Printable(u) && (p.scheme == "http" || p.scheme == "https") && HostPort(p.netloc)
  }

  /** Parts that print and parse back. */
  predicate Canonical(p: Parts) {
    && (p.scheme == "http" || p.scheme == "https")
    && p.netloc != "" && (forall c :: c in p.netloc ==> c !in {'/', '?', '#'})
    && (p.path != "" ==> p.path[0] == '/') && (forall c :: c in p.path ==> c !in {'?', '#'})
    && (forall c :: c in p.query ==> c != '#')
  }

  /** What normalize_url makes of the parts of an absolute URL. */
  function NormalParts(p: Parts): Parts {
    Parts(p.scheme, DropDefaultPort(p.scheme, Lower(p.netloc)), TrimSlashes(DropParams(p.path)),
          CanonicalQuery(p.query))
  }

  // ---------------------------------------------------------------- spaces at the end

  /** s without the spaces at its end. */
  function TrimEnd(s: string): string {
    if s != "" && s[|s| - 1] == ' ' then TrimEnd(s[..|s| - 1]) else s
  }

  /** Canonical parts that print with a space at the end. */
  predicate EndsInSpace(p: Parts) {
    p.query == "" && p.netloc + p.path != "" && (p.netloc + p.path)[|p.netloc + p.path| - 1] == ' '
  }

  /** The parts that are left when the printed form is stripped. */
  function StripEnd(p: Parts): Parts {
    if p.query != "" then p
    else if p.path != "" then p.(path := TrimEnd(p.path))
    else p.(netloc := TrimEnd(p.netloc))
  }

  lemma {:induction false} TrimEndPrefix(s: string)
    ensures TrimEnd(s) <= s
    ensures forall k :: |TrimEnd(s)| <= k < |s| ==> s[k] == ' '
    ensures TrimEnd(s) != "" ==> TrimEnd(s)[|TrimEnd(s)| - 1] != ' '
    ensures TrimEnd(s) == s <==> s == "" || s[|s| - 1] != ' '
  {
    if s != "" && s[|s| - 1] == ' ' {
      TrimEndPrefix(s[..|s| - 1]);
    }
  }

  lemma {:induction false} StripIsTrimEnd(s: string)
    requires Printable(s) && s != "" && s[0] != ' '
    ensures Text.Strip(s) == TrimEnd(s)
  {
    if s[|s| - 1] == ' ' {
      StripIsTrimEnd(s[..|s| - 1]);
    }
  }

  lemma {:induction false} TrimEndBehind(front: string, back: string)
    requires TrimEnd(back) != ""
    ensures TrimEnd(front + back) == front + TrimEnd(back)
  {
    if back[|back| - 1] == ' ' {
      TrimEndBehind(front, back[..|back| - 1]);
      assert (front + back)[..|front + back| - 1] == front + back[..|back| - 1];
    }
  }

  lemma EndsInSpaceStrips(p: Parts)
    ensures EndsInSpace(p) <==> StripEnd(p) != p
    ensures |StripEnd(p).netloc| <= |p.netloc| && |StripEnd(p).path| <= |p.path|
    ensures StripEnd(p).netloc == p.netloc || (StripEnd(p).path == p.path == "")
  {
    TrimEndPrefix(p.path);
    TrimEndPrefix(p.netloc);
  }

  // ---------------------------------------------------------------- printing and parsing

  lemma SchemeParses(scheme: string, rest: string)
    requires scheme == "http" || scheme == "https"
    ensures var u := scheme + ":" + rest;
            HasScheme(u) && AfterScheme(u) == rest && u[..IndexOf(u, {':'})] == scheme && Lower(scheme) == scheme
  {
    SchemeSplits(scheme, rest, scheme + ":" + rest);
    LowerIsLower(scheme);
  }

  lemma NetlocParses(u: string, netloc: string, tail: string)
    requires netloc != "" && forall c :: c in netloc ==> c !in {'/', '?', '#'}
    requires tail == "" || tail[0] in {'/', '?', '#'}
    requires AfterScheme(u) == "//" + netloc + tail
    ensures Netloc(u) == netloc && AfterNetloc(u) == tail
  {
    assert "//" + netloc + tail == "//" + (netloc + tail);
    NetlocSplits(u, netloc, tail);
  }

  function PrintTail(path: string, query: string): string {
    path + if query != "" then "?" + query else ""
  }

  lemma TailParses(path: string, query: string)
    requires forall c :: c in path ==> c !in {'?', '#'}
    requires forall c :: c in query ==> c != '#'
    ensures var tail := PrintTail(path, query);
            WithoutFragment(tail) == tail && BeforeQuery(tail) == path && AfterQuery(tail) == query
  {
    var tail, behind := PrintTail(path, query), if query != "" then "?" + query else "";
    assert tail == path + behind + "" == path + behind;
    TailWritten(path, behind, "", tail);
  }

  lemma CanonicalPrint(p: Parts)
    requires Canonical(p)
    ensures UrlUnparse(p) == p.scheme + ":" + ("//" + p.netloc + PrintTail(p.path, p.query))
  {
    var front := p.scheme + ":";
    var authority := "//" + p.netloc;
    var query := if p.query != "" then "?" + p.query else "";
    assert UrlUnparse(p) == (front + (authority + p.path)) + query;
    assert (front + (authority + p.path)) + query == front + (authority + (p.path + query));
  }

  /** Parsing undoes printing. */
  lemma {:induction false} SplitUnparse(p: Parts)
    requires Canonical(p)
    ensures UrlSplit(UrlUnparse(p)) == p
  {
    var tail := PrintTail(p.path, p.query);
    CanonicalPrint(p);
    SchemeParses(p.scheme, "//" + p.netloc + tail);
    NetlocParses(UrlUnparse(p), p.netloc, tail);
    TailParses(p.path, p.query);
  }

  /** Canonical parts are told apart by their printed form. */
  lemma {:induction false} UnparseInjective(p: Parts, q: Parts)
    requires Canonical(p) && Canonical(q) && UrlUnparse(p) == UrlUnparse(q)
    ensures p == q
  {
    SplitUnparse(p);
    SplitUnparse(q);
  }

  // ---------------------------------------------------------------- the parts of a URL

  /** A URL as it is written: scheme, authority, path from a '/' on, query behind the first '?', fragment behind the
      first '#'. The scheme is read in lower case, the fragment is dropped. */
  lemma {:induction false} SplitWritten(scheme: string, netloc: string, path: string, query: string, fragment: string,
                                        tail: string, url: string)
    requires IsScheme(scheme) && url == scheme + ":" + ("//" + (netloc + tail))
    requires tail == path + query + fragment
    requires (forall c :: c in netloc ==> c !in {'/', '?', '#'}) && (path != "" ==> path[0] == '/')
    requires (forall c :: c in path ==> c !in {'?', '#'}) && '#' !in query
    requires (query != "" ==> query[0] == '?') && (fragment != "" ==> fragment[0] == '#')
    ensures UrlSplit(url) == Parts(Lower(scheme), netloc, path, if query == "" then "" else query[1..])
  {
    var rest := netloc + tail;
    SchemeSplits(scheme, "//" + rest, url);
    assert tail == "" || tail[0] in {'/', '?', '#'};
    NetlocSplits(url, netloc, tail);
    assert AfterNetloc(url) == tail;
    TailWritten(path, query, fragment, tail);
  }

  lemma TailWritten(path: string, query: string, fragment: string, tail: string)
    requires tail == path + query + fragment && (forall c :: c in path ==> c !in {'?', '#'}) && '#' !in query
    requires (query != "" ==> query[0] == '?') && (fragment != "" ==> fragment[0] == '#')
    ensures WithoutFragment(tail) == path + query
    ensures BeforeQuery(path + query) == path && AfterQuery(path + query) == if query == "" then "" else query[1..]
  {
    var front := path + query;
    assert forall i :: 0 <= i < |front| ==> front[i] in path || front[i] in query;
    IndexBehind(front, fragment, {'#'});
    assert forall i :: 0 <= i < |path| ==> path[i] in path;
    IndexBehind(path, query, {'?'});
    assert front[..|path|] == path && front[|path|..] == query;
  }

  /** Without "//" there is no authority: all up to the query is the path. */
  lemma {:induction false} SplitWithoutAuthority(scheme: string, path: string, query: string, fragment: string,
                                                 tail: string, url: string)
    requires tail == path + query + fragment && !("//" <= tail)
    requires (IsScheme(scheme) && url == scheme + ":" + tail) || (scheme == "" && url == tail && !HasScheme(url))
    requires (forall c :: c in path ==> c !in {'?', '#'}) && '#' !in query
    requires (query != "" ==> query[0] == '?') && (fragment != "" ==> fragment[0] == '#')
    ensures UrlSplit(url) == Parts(Lower(scheme), "", path, if query == "" then "" else query[1..])
  {
    if scheme != "" {
      SchemeSplits(scheme, tail, url);
    }
    assert Lower("") == "";
    TailWritten(path, query, fragment, tail);
  }

  /** What follows a ';' in the last segment of a path is dropped; a ';' further up stays. */
  lemma ParamsDropped(front: string, segment: string, params: string, path: string)
    requires path == front + segment + params && (front == "" || front[|front| - 1] == '/')
    requires '/' !in segment && ';' !in segment && '/' !in params && (params == "" || params[0] == ';')
    ensures DropParams(path) == front + segment
  {
    var last := segment + params;
    ThreePieces(front, segment, params, path);
    Slashless(segment, params, last);
    SegmentBehind(front, last, path);
    NoneBefore(segment, params, ';');
  }

  lemma ThreePieces(front: string, segment: string, params: string, path: string)
    requires path == front + segment + params
    ensures path == front + (segment + params) && path[..|front| + |segment|] == front + segment
  {
  }

  lemma Slashless(segment: string, params: string, last: string)
    requires last == segment + params && '/' !in segment && '/' !in params
    ensures forall i :: 0 <= i < |last| ==> last[i] != '/'
  {
    assert forall i :: 0 <= i < |last| ==> last[i] in segment || last[i] in params;
  }

  lemma SegmentBehind(front: string, last: string, path: string)
    requires path == front + last && (front == "" || front[|front| - 1] == '/')
    requires forall i :: 0 <= i < |last| ==> last[i] != '/'
    ensures LastSegmentStart(path) == |front| && LastSegment(path) == last
  {
    assert forall j :: |front| <= j < |path| ==> path[j] == last[j - |front|];
    assert front != "" ==> path[|front| - 1] == '/';
    assert path[|front|..] == last;
  }

  /** The value of a run of digits. */
  function DigitValue(c: char): int {
    c as int - '0' as int
  }

  predicate IsDigits(s: string) {
    forall i :: 0 <= i < |s| ==> '0' <= s[i] <= '9'
  }

  /** A decimal numeral, leading zeros included. */
  function Numeral(s: string): int {
    if s == "" then 0 else 10 * Numeral(s[..|s| - 1]) + DigitValue(s[|s| - 1])
  }

  lemma {:induction false} DigitsRead(done: string, s: string)
    requires IsDigits(s) && IsDigits(done) && Numeral(done) >= 0
    ensures done + s != "" ==> Digits(s, Numeral(done), done != "") == Some(Numeral(done + s))
    decreases |s|
  {
    if s == "" {
      assert done + s == done;
    } else {
      var more := done + [s[0]];
      assert more[..|done|] == done && more + s[1..] == done + s;
      DigitsRead(more, s[1..]);
    }
  }

  lemma {:induction false} StripDigits(s: string)
    requires IsDigits(s)
    ensures Text.Strip(s) == s
  {
  }

  lemma Unsigned(text: string, s: string)
    requires s == Text.Strip(text) && s != "" && s[0] != '+' && s[0] != '-'
    ensures PyInt(text) == Digits(s, 0, false)
  {
  }

  /** int() of decimal digits. */
  lemma {:induction false} PyIntReads(s: string)
    requires IsDigits(s) && s != ""
    ensures PyInt(s) == Some(Numeral(s))
  {
    StripDigits(s);
    Unsigned(s, s);
    DigitsRead("", s);
    assert "" + s == s;
  }

  /** A port is dropped if it is the number 80 with http or 443 with https, however it is written; no other is. */
  lemma PortDropped(scheme: string, host: string, port: string, netloc: string)
    requires ':' !in port
    ensures netloc == host + ":" + port ==>
              DropDefaultPort(scheme, netloc) ==
              if (scheme == "http" && PyInt(port) == Some(80)) || (scheme == "https" && PyInt(port) == Some(443))
              then host else netloc
    ensures ':' !in netloc ==> DropDefaultPort(scheme, netloc) == netloc
  {
    var i := LastColon(netloc);
    if netloc == host + ":" + port {
      assert netloc[|host|] == ':' && forall j :: |host| < j < |netloc| ==> netloc[j] == port[j - |host| - 1];
      assert forall j :: 0 <= j < |port| ==> port[j] in port;
      assert i == |host| && netloc[..i] == host && netloc[i + 1..] == port;
    } else if ':' !in netloc {
      assert i == |netloc|;
    }
  }

  /** The letters, and nothing else, change case. */
  lemma LowerLetters(c: char)
    ensures 'A' <= c <= 'Z' ==> 'a' <= LowerChar(c) <= 'z' && LowerChar(c) - 'a' == c - 'A'
    ensures !('A' <= c <= 'Z') ==> LowerChar(c) == c
  {
  }

  lemma StripBehind(front: string, s: string)
    requires front != "" && !Text.IsSpace(front[0]) && s != "" && !Text.IsSpace(s[|s| - 1])
    ensures Text.Strip(front + s) == front + s
  {
  }

  lemma NoScheme(host: string, tail: string, u: string)
    requires u == host + tail && host != "" && forall c :: c in host ==> c !in {':', '/', '?', '#'}
    requires tail == "" || tail[0] in {'/', '?', '#'}
    ensures !HasScheme(u) && AfterScheme(u) == u && Netloc(u) == "" && AfterNetloc(u) == u
  {
    assert forall k :: 0 <= k < |host| ==> u[k] == host[k] && host[k] in host;
    assert tail != "" ==> u[|host|] == tail[0] && !SchemeChar(u[|host|]);
  }

  lemma PathStarts(host: string, u: string)
    requires host <= u && host != "" && forall c :: c in host ==> c !in {'?', '#', ';'}
    ensures BeforeQuery(WithoutFragment(u)) != "" && DropParams(BeforeQuery(WithoutFragment(u))) != ""
  {
    assert u[0] == host[0] && host[0] in host;
    var path := BeforeQuery(WithoutFragment(u));
    assert path[0] == u[0];
    var start := LastSegmentStart(path);
    if start == 0 {
      assert LastSegment(path)[0] == path[0];
    }
  }

  lemma CompletedShort(host: string, tail: string, u: string)
    requires u == host + tail && host != "" && forall c :: c in host ==> c !in {':', '/', '?', '#', ';'}
    requires tail == "" || tail[0] in {'/', '?', '#'}
    ensures Completed(u) == UrlParse("http://" + u)
  {
    NoScheme(host, tail, u);
    PathStarts(host, u);
    assert USES_PARAMS[0] == "";
  }

  lemma CompletedLong(host: string, tail: string, whole: string)
    requires whole == "http" + ":" + ("//" + (host + tail)) && host != ""
    requires (forall c :: c in host ==> c !in {'/', '?', '#'}) && (tail == "" || tail[0] in {'/', '?', '#'})
    ensures Completed(whole) == UrlParse(whole)
  {
    SchemeSplits("http", "//" + (host + tail), whole);
    NetlocSplits(whole, host, tail);
    LowerIsLower("http");
  }

  /** A host, perhaps with a path, query or fragment behind it, is a URL of http written short. */
  lemma {:induction false} SchemelessIsHttp(url: string, host: string, tail: string, u: string, whole: string)
    requires Text.Strip(url) == u == host + tail && whole == "http://" + u && host != ""
    requires (forall c :: c in host ==> c !in {':', '/', '?', '#', ';'}) && (tail == "" || tail[0] in {'/', '?', '#'})
    ensures NormalizeUrl(url) == NormalizeUrl(whole)
  {
    var _, _ := Text.StripShape(url);
    StripBehind("http://", u);
    assert whole == "http" + ":" + ("//" + (host + tail));
    CompletedShort(host, tail, u);
    CompletedLong(host, tail, whole);
    SameCompleted(url, whole, Completed(u));
  }

  /** An authority without a scheme is one of http, too. */
  lemma {:induction false} AuthorityIsHttp(url: string, netloc: string, tail: string, u: string, whole: string)
    requires Text.Strip(url) == u == "//" + (netloc + tail) && whole == "http:" + u && netloc != ""
    requires (forall c :: c in netloc ==> c !in {'/', '?', '#'}) && (tail == "" || tail[0] in {'/', '?', '#'})
    ensures NormalizeUrl(url) == NormalizeUrl(whole)
  {
    var _, _ := Text.StripShape(url);
    StripBehind("http:", u);
    assert whole == "http" + ":" + u;
    CompletedLong(netloc, tail, whole);
    CompletedAuthority(netloc, tail, u, whole);
    SameCompleted(url, whole, Completed(u));
  }

  lemma NoSchemeInFront(u: string)
    requires u != "" && u[0] == '/'
    ensures !HasScheme(u) && AfterScheme(u) == u
  {
    assert IndexOf(u, {':'}) > 0;
  }

  lemma SameBehindScheme(u: string, v: string)
    requires AfterScheme(u) == AfterScheme(v)
    ensures UrlSplit(u).(scheme := "") == UrlSplit(v).(scheme := "")
  {
  }

  lemma CompletedAuthority(netloc: string, tail: string, u: string, whole: string)
    requires u == "//" + (netloc + tail) && whole == "http" + ":" + u && netloc != ""
    requires (forall c :: c in netloc ==> c !in {'/', '?', '#'}) && (tail == "" || tail[0] in {'/', '?', '#'})
    ensures Completed(u) == UrlParse(whole)
  {
    NoSchemeInFront(u);
    SchemeSplits("http", u, whole);
    NetlocSplits(u, netloc, tail);
    SameBehindScheme(u, whole);
    ParsedAs(u, whole);
  }

  lemma ParsedAs(u: string, whole: string)
    requires UrlSplit(u).(scheme := "") == UrlSplit(whole).(scheme := "") && !HasScheme(u) && Netloc(u) != ""
    requires HasScheme(whole) && whole[..IndexOf(whole, {':'})] == "http"
    ensures Completed(u) == UrlParse(whole)
  {
    LowerIsLower("http");
    UsesParams("http");
    assert USES_PARAMS[0] == "";
  }

  lemma SameCompleted(url: string, whole: string, p: Parts)
    requires Completed(Text.Strip(url)) == p && Completed(Text.Strip(whole)) == p
    ensures NormalizeUrl(url) == NormalizeUrl(whole)
  {
  }

  lemma PrintableRest(u: string)
    requires Printable(u)
    ensures Printable(AfterScheme(u))
  {
  }

  lemma PrefixKeeps(s: string, r: string)
    requires r <= s
    ensures forall c :: c in r ==> c in s
    ensures Printable(s) ==> Printable(r)
    ensures Lower(s) == s ==> Lower(r) == r
  {
    forall i | 0 <= i < |r|
      ensures r[i] in s && Lower(r)[i] == Lower(s)[i]
    {
      assert r[i] == s[i];
    }
  }

  lemma CutAt(s: string, cs: set<char>)
    ensures var n := IndexOf(s, cs);
            && (forall c :: c in s[..n] ==> c !in cs)
            && (s[n..] == "" || s[n..][0] in cs)
            && s == s[..n] + s[n..]
  {
    var n := IndexOf(s, cs);
    TakeDrop(s, n);
    forall c | c in s[..n]
      ensures c !in cs
    {
      var i :| 0 <= i < n && s[..n][i] == c;
    }
  }

  lemma TakeDrop(s: string, n: nat)
    requires n <= |s|
    ensures s == s[..n] + s[n..] && (n < |s| ==> s[n..][0] == s[n])
  {
  }

  lemma AuthorityPiece(rest: string, netloc: string, after: string)
    requires "//" <= rest && netloc == rest[2..][..IndexOf(rest[2..], {'/', '?', '#'})]
    requires after == rest[2 + |netloc|..]
    ensures forall c :: c in netloc ==> c !in {'/', '?', '#'}
    ensures after == "" || after[0] in {'/', '?', '#'}
    ensures rest == "//" + netloc + after
  {
    CutAt(rest[2..], {'/', '?', '#'});
    assert after == rest[2..][|netloc|..];
    assert rest == "//" + rest[2..];
  }

  lemma NetlocPiece(u: string)
    requires Netloc(u) != ""
    ensures forall c :: c in Netloc(u) ==> c !in {'/', '?', '#'}
    ensures AfterNetloc(u) == "" || AfterNetloc(u)[0] in {'/', '?', '#'}
    ensures AfterScheme(u) == "//" + Netloc(u) + AfterNetloc(u)
  {
    AuthorityPiece(AfterScheme(u), Netloc(u), AfterNetloc(u));
  }

  lemma PrintablePieces(front: string, middle: string, back: string)
    requires Printable(front + middle + back)
    ensures Printable(middle) && Printable(back)
  {
    var s := front + middle + back;
    assert forall i :: 0 <= i < |middle| ==> middle[i] == s[|front| + i];
    assert forall i :: 0 <= i < |back| ==> back[i] == s[|front| + |middle| + i];
  }

  lemma TailPieces(tail: string)
    requires tail == "" || tail[0] in {'/', '?', '#'}
    ensures var s := WithoutFragment(tail); var path, query := BeforeQuery(s), AfterQuery(s);
            && (path != "" ==> path[0] == '/') && (forall c :: c in path ==> c !in {'?', '#'})
            && (forall c :: c in query ==> c != '#')
            && (Printable(tail) ==> Printable(path))
  {
  }

  /** The pieces urlsplit cuts a URL into are free of the delimiters they end at. */
  lemma SplitPieces(u: string)
    requires Netloc(u) != ""
    ensures var p := UrlSplit(u);
            && (forall c :: c in p.netloc ==> c !in {'/', '?', '#'})
            && (p.path != "" ==> p.path[0] == '/') && (forall c :: c in p.path ==> c !in {'?', '#'})
            && (forall c :: c in p.query ==> c != '#')
            && (Printable(u) ==> Printable(p.netloc) && Printable(p.path))
  {
    NetlocPiece(u);
    if Printable(u) {
      PrintableRest(u);
      PrintablePieces("//", Netloc(u), AfterNetloc(u));
    }
    TailPieces(AfterNetloc(u));
  }

  lemma LowerKeeps(s: string)
    ensures Lower(Lower(s)) == Lower(s)
    ensures (forall c :: c in s ==> c !in {'/', '?', '#'}) ==> forall c :: c in Lower(s) ==> c !in {'/', '?', '#'}
    ensures HostPort(s) ==> HostPort(Lower(s))
    ensures Printable(s) ==> Printable(Lower(s))
  {
    assert forall i :: 0 <= i < |s| ==> s[i] in s;
    if HostPort(s) {
      var k :| HostCharAt(s, k);
      assert HostCharAt(Lower(s), k);
    }
  }

  lemma LowerIsLower(scheme: string)
    requires scheme == "http" || scheme == "https"
    ensures Lower(scheme) == scheme
  {
  }

  lemma DropDefaultPortKeeps(scheme: string, netloc: string)
    requires HostPort(netloc)
    ensures var n := DropDefaultPort(scheme, netloc);
            && n <= netloc && HostPort(n) && DropDefaultPort(scheme, n) == n
            && (Lower(netloc) == netloc ==> Lower(n) == n)
            && (Printable(netloc) ==> Printable(n))
  {
    var i := LastColon(netloc);
    var n := DropDefaultPort(scheme, netloc);
    if i < |netloc| && IsDefaultPort(scheme, netloc[i + 1..]) {
      assert forall j :: 0 <= j < i ==> n[j] == netloc[j] && n[j] != ':';
      assert LastColon(n) == |n|;
      var k :| HostCharAt(netloc, k);
      assert HostCharAt(n, k);
    }
    PrefixKeeps(netloc, n);
  }

  // ---------------------------------------------------------------- paths

  lemma {:induction false} StripSlashesPrefix(path: string)
    ensures StripSlashes(path) <= path
    ensures StripSlashes(path) != "" ==> StripSlashes(path)[|StripSlashes(path)| - 1] != '/'
    ensures forall i :: |StripSlashes(path)| <= i < |path| ==> path[i] == '/'
    ensures StripSlashes(path) == path <==> path == "" || path[|path| - 1] != '/'
  {
    if path != "" && path[|path| - 1] == '/' {
      StripSlashesPrefix(path[..|path| - 1]);
    }
  }

  lemma TrimSlashesAgain(path: string)
    ensures TrimSlashes(TrimSlashes(path)) == TrimSlashes(path) <= path
  {
    StripSlashesPrefix(path);
    StripSlashesPrefix(StripSlashes(path));
  }

  /** The trailing-slash rule: the root path is its own class, every other path is one with its slashes stripped. */
  lemma SamePath(p: string, q: string)
    ensures TrimSlashes(p) == TrimSlashes(q) <==> (p == "/" <==> q == "/") && StripSlashes(p) == StripSlashes(q)
  {
    StripSlashesPrefix(p);
    StripSlashesPrefix(q);
  }

  predicate Parameterless(path: string) {
    ';' !in LastSegment(path)
  }

  lemma DropParamsKeeps(path: string)
    ensures DropParams(path) <= path
    ensures DropParams(path) == path <==> Parameterless(path)
  {
    var s, i := LastSegment(path), IndexOf(LastSegment(path), {';'});
    if Parameterless(path) {
      assert i == |s|;
    } else {
      assert i < |s|;
    }
  }

  /** Trimming and dropping parameters once more keeps a trimmed path exactly when its last segment has none. */
  lemma PathAgain(path: string)
    ensures TrimSlashes(DropParams(TrimSlashes(path))) == TrimSlashes(path) <==> Parameterless(TrimSlashes(path))
  {
    var trimmed := TrimSlashes(path);
    DropParamsKeeps(trimmed);
    TrimSlashesAgain(path);
    TrimSlashesAgain(DropParams(trimmed));
  }

  // ---------------------------------------------------------------- normal forms

  predicate Plain(s: string) {
    forall i :: 0 <= i < |s| ==> '!' <= s[i] <= '~' && s[i] != '#'
  }

  lemma FieldPlain(p: Param)
    ensures Plain(Field(p))
  {
    QuotedPlain(p.name);
    QuotedPlain(p.value);
    PlainTogether(QuotePlus(p.name), "=");
    PlainTogether(QuotePlus(p.name) + "=", QuotePlus(p.value));
  }

  lemma QuotedPlain(s: string)
    ensures Plain(QuotePlus(s))
  {
    QuoteRoundTrip(s);
  }

  lemma PlainTogether(a: string, b: string)
    requires Plain(a) && Plain(b)
    ensures Plain(a + b)
  {
  }

  lemma {:induction false} EncodedPlain(params: seq<Param>)
    ensures Plain(UrlEncode(params))
  {
    if params != [] {
      FieldPlain(params[0]);
      EncodedPlain(params[1..]);
    }
  }

  lemma PrintableTogether(a: string, b: string)
    requires Printable(a) && Printable(b)
    ensures Printable(a + b)
  {
  }

  lemma PrintedPrintable(p: Parts)
    requires Canonical(p) && Printable(p.netloc) && Printable(p.path) && Plain(p.query)
    ensures Printable(UrlUnparse(p)) && UrlUnparse(p)[0] != ' '
  {
    CanonicalPrint(p);
    PrintableTogether(p.path, if p.query != "" then "?" + p.query else "");
    PrintableTogether("//" + p.netloc, PrintTail(p.path, p.query));
    PrintableTogether(p.scheme + ":", "//" + p.netloc + PrintTail(p.path, p.query));
  }

  lemma HostPortTrimmed(netloc: string)
    requires HostPort(netloc)
    ensures HostPort(TrimEnd(netloc)) && TrimEnd(netloc) != ""
  {
    TrimEndPrefix(netloc);
    var k :| HostCharAt(netloc, k);
    assert HostCharAt(TrimEnd(netloc), k);
  }

  lemma StripEndCanonical(p: Parts)
    requires Canonical(p) && HostPort(p.netloc) && Printable(p.netloc) && Printable(p.path) && Plain(p.query)
    ensures var r := StripEnd(p);
            && Canonical(r) && HostPort(r.netloc) && (p.path != "" ==> r.path != "")
            && Printable(r.netloc) && Printable(r.path) && Plain(r.query)
            && (Lower(p.netloc) == p.netloc ==> Lower(r.netloc) == r.netloc)
  {
    TrimEndPrefix(p.path);
    HostPortTrimmed(p.netloc);
    TrimEndPrefix(p.netloc);
    PrefixKeeps(p.netloc, TrimEnd(p.netloc));
    PrefixKeeps(p.path, TrimEnd(p.path));
  }

  lemma TrimEndPlain(s: string)
    requires s != "" && s[|s| - 1] != ' '
    ensures TrimEnd(s) == s
  {
  }

  lemma TrimPrintedQuery(p: Parts)
    requires Canonical(p) && Plain(p.query) && p.query != ""
    ensures TrimEnd(UrlUnparse(p)) == UrlUnparse(p)
  {
    CanonicalPrint(p);
    var u := UrlUnparse(p);
    assert u == p.scheme + ":" + ("//" + p.netloc + (p.path + ("?" + p.query)));
    assert u[|u| - 1] == p.query[|p.query| - 1];
    TrimEndPlain(u);
  }

  lemma TrimPrintedPath(p: Parts, path: string)
    requires Canonical(p) && Canonical(p.(path := path)) && p.query == "" && path == TrimEnd(p.path) && path != ""
    ensures TrimEnd(UrlUnparse(p)) == UrlUnparse(p.(path := path))
  {
    CanonicalPrint(p);
    CanonicalPrint(p.(path := path));
    var front := p.scheme + ":" + "//" + p.netloc;
    assert UrlUnparse(p) == front + p.path && UrlUnparse(p.(path := path)) == front + path;
    TrimEndBehind(front, p.path);
  }

  lemma TrimPrintedHost(p: Parts, netloc: string)
    requires Canonical(p) && Canonical(p.(netloc := netloc)) && p.query == "" == p.path && netloc == TrimEnd(p.netloc)
    ensures TrimEnd(UrlUnparse(p)) == UrlUnparse(p.(netloc := netloc))
  {
    CanonicalPrint(p);
    CanonicalPrint(p.(netloc := netloc));
    var front := p.scheme + ":" + "//";
    assert UrlUnparse(p) == front + p.netloc && UrlUnparse(p.(netloc := netloc)) == front + netloc;
    TrimEndBehind(front, p.netloc);
  }

  /** Stripping the printed form drops the spaces at the end of its last part. */
  lemma PrintedStrip(p: Parts)
    requires Canonical(p) && HostPort(p.netloc) && Printable(p.netloc) && Printable(p.path) && Plain(p.query)
    ensures Text.Strip(UrlUnparse(p)) == UrlUnparse(StripEnd(p))
  {
    PrintedPrintable(p);
    StripIsTrimEnd(UrlUnparse(p));
    StripEndCanonical(p);
    if p.query != "" {
      TrimPrintedQuery(p);
    } else if p.path != "" {
      TrimPrintedPath(p, TrimEnd(p.path));
    } else {
      TrimPrintedHost(p, TrimEnd(p.netloc));
    }
  }

  lemma NormalAuthority(scheme: string, netloc: string)
    requires HostPort(netloc) && Printable(netloc) && forall c :: c in netloc ==> c !in {'/', '?', '#'}
    ensures var n := DropDefaultPort(scheme, Lower(netloc));
            && (forall c :: c in n ==> c !in {'/', '?', '#'})
            && HostPort(n) && Lower(n) == n && Printable(n)
  {
    LowerKeeps(netloc);
    DropDefaultPortKeeps(scheme, Lower(netloc));
    PrefixKeeps(Lower(netloc), DropDefaultPort(scheme, Lower(netloc)));
  }

  lemma NormalNetloc(u: string)
    requires var p := UrlSplit(u); Printable(u) && HostPort(p.netloc)
    ensures var p := UrlSplit(u); var n := NormalParts(p).netloc;
            && (forall c :: c in n ==> c !in {'/', '?', '#'})
            && HostPort(n) && Lower(n) == n && Printable(n)
  {
    var p := UrlSplit(u);
    SplitPieces(u);
    NormalAuthority(p.scheme, p.netloc);
  }

  lemma NormalPath(u: string)
    requires Printable(u) && Netloc(u) != ""
    ensures var n := NormalParts(UrlSplit(u)).path;
            (n != "" ==> n[0] == '/') && (forall c :: c in n ==> c !in {'?', '#'}) && Printable(n)
  {
    var path := UrlSplit(u).path;
    SplitPieces(u);
    DropParamsKeeps(path);
    TrimSlashesAgain(DropParams(path));
    assert TrimSlashes(DropParams(path)) <= DropParams(path) <= path;
    PrefixKeeps(path, TrimSlashes(DropParams(path)));
  }

  lemma NormalPartsCanonical(u: string)
    requires var p := UrlSplit(u); Printable(u) && (p.scheme == "http" || p.scheme == "https") && HostPort(p.netloc)
    ensures var n := NormalParts(UrlSplit(u));
            && Canonical(n) && HostPort(n.netloc) && Lower(n.netloc) == n.netloc
            && Printable(n.netloc) && Printable(n.path) && Plain(n.query)
  {
    NormalNetloc(u);
    NormalPath(u);
    EncodedPlain(Sort(ParseQsl(UrlSplit(u).query)));
  }

  lemma UsesParams(scheme: string)
    requires scheme == "http" || scheme == "https"
    ensures scheme in USES_PARAMS
  {
    if scheme == "http" {
      assert USES_PARAMS[4] == scheme;
    } else {
      assert USES_PARAMS[6] == scheme;
    }
  }

  lemma ParseDropsParams(u: string)
    requires UrlSplit(u).scheme == "http" || UrlSplit(u).scheme == "https"
    ensures UrlParse(u) == UrlSplit(u).(path := DropParams(UrlSplit(u).path))
  {
    UsesParams(UrlSplit(u).scheme);
  }

  lemma CompletedIsSplit(u: string)
    requires UrlSplit(u).scheme == "http" || UrlSplit(u).scheme == "https"
    requires UrlSplit(u).netloc != ""
    ensures Completed(u) == UrlSplit(u).(path := DropParams(UrlSplit(u).path))
  {
    ParseDropsParams(u);
  }

  /** The normal form of an absolute URL prints its canonical parts. */
  lemma {:induction false} NormalForm(url: string)
    requires Absolute(url)
    ensures var n := NormalParts(UrlSplit(Text.Strip(url)));
            Canonical(n) && NormalizeUrl(url) == UrlUnparse(n)
  {
    var u := Text.Strip(url);
    NormalPartsCanonical(u);
    CompletedIsSplit(u);
    LowerIsLower(UrlSplit(u).scheme);
  }

  /** Whatever canonical parts print is an absolute URL; stripped, it has those parts but for spaces at the end. */
  lemma {:induction false} PrintedIsAbsolute(p: Parts)
    requires Canonical(p) && HostPort(p.netloc)
    requires Printable(p.netloc) && Printable(p.path) && Plain(p.query)
    ensures Absolute(UrlUnparse(p)) && UrlSplit(Text.Strip(UrlUnparse(p))) == StripEnd(p)
  {
    PrintedStrip(p);
    StripEndCanonical(p);
    PrintedPrintable(StripEnd(p));
    SplitUnparse(StripEnd(p));
  }

  /** The normal form is an absolute URL and has the canonical parts; stripped once more, it loses the spaces that
      the path, or the authority when the path is empty, ends in. */
  lemma {:induction false} NormalFormAbsolute(url: string)
    requires Absolute(url)
    ensures Absolute(NormalizeUrl(url))
    ensures UrlSplit(NormalizeUrl(url)) == NormalParts(UrlSplit(Text.Strip(url)))
    ensures UrlSplit(Text.Strip(NormalizeUrl(url))) == StripEnd(NormalParts(UrlSplit(Text.Strip(url))))
  {
    var n := NormalParts(UrlSplit(Text.Strip(url)));
    NormalForm(url);
    NormalPartsCanonical(Text.Strip(url));
    PrintedIsAbsolute(n);
    SplitUnparse(n);
  }

  /** What canonicalising once more makes of canonical parts. */
  lemma NormalPartsAgain(p: Parts)
    requires HostPort(p.netloc)
    ensures var n := NormalParts(p);
            NormalParts(n) == n <==> Parameterless(TrimSlashes(DropParams(p.path)))
  {
    LowerKeeps(p.netloc);
    DropDefaultPortKeeps(p.scheme, Lower(p.netloc));
    CanonicalQueryAgain(p.query);
    PathAgain(DropParams(p.path));
  }

  lemma NormalPartsShrink(p: Parts)
    requires HostPort(p.netloc)
    ensures |NormalParts(p).netloc| <= |p.netloc| && |NormalParts(p).path| <= |p.path|
  {
    LowerKeeps(p.netloc);
    DropDefaultPortKeeps(p.scheme, Lower(p.netloc));
    DropParamsKeeps(p.path);
    TrimSlashesAgain(DropParams(p.path));
  }

  /** Spaces that the second application strips do not come back. */
  lemma SpacesStayOff(n: Parts)
    requires HostPort(n.netloc) && EndsInSpace(n)
    ensures NormalParts(StripEnd(n)) != n
  {
    EndsInSpaceStrips(n);
    HostPortTrimmed(n.netloc);
    TrimEndPrefix(n.netloc);
    TrimEndPrefix(n.path);
    NormalPartsShrink(StripEnd(n));
  }

  /** Normalising twice is normalising once exactly when the trimmed path, its parameters dropped, has no ';'
      in its last segment, and the normal form does not end in a space; in particular whenever the URL has neither
      a ';' in its path nor an inner space. */
  lemma {:induction false} NormalizeIdempotent(url: string)
    requires Absolute(url)
    ensures NormalizeUrl(NormalizeUrl(url)) == NormalizeUrl(url) <==>
            && Parameterless(TrimSlashes(DropParams(UrlSplit(Text.Strip(url)).path)))
            && !EndsInSpace(NormalParts(UrlSplit(Text.Strip(url))))
  {
    var p := UrlSplit(Text.Strip(url));
    var n := NormalParts(p);
    NormalForm(url);
    NormalFormAbsolute(url);
    NormalForm(NormalizeUrl(url));
    NormalPartsCanonical(Text.Strip(url));
    NormalPartsAgain(p);
    EndsInSpaceStrips(n);
    if EndsInSpace(n) {
      SpacesStayOff(n);
    }
    if NormalizeUrl(NormalizeUrl(url)) == NormalizeUrl(url) {
      UnparseInjective(NormalParts(StripEnd(n)), n);
    }
  }

  lemma SlashPath(path: string, trimmed: string)
    requires path == trimmed + "/" && trimmed != "" && trimmed[|trimmed| - 1] != '/'
    ensures DropParams(path) == path && TrimSlashes(path) == trimmed
  {
    assert path[|path| - 1] == '/' && path[..|path| - 1] == trimmed;
    assert LastSegmentStart(path) == |path| && LastSegment(path) == "" && path[..|path|] == path;
    StripSlashesPrefix(trimmed);
  }

  /** The parts of a URL whose path ends in '/'. */
  lemma SlashUrl(p: Parts, trimmed: string)
    requires Canonical(p) && p.netloc == "h" && p.query == "" && Printable(p.path)
    requires p.path == trimmed + "/" && trimmed != "" && trimmed[|trimmed| - 1] != '/'
    ensures Absolute(UrlUnparse(p)) && UrlSplit(Text.Strip(UrlUnparse(p))) == p
    ensures NormalParts(p).path == trimmed && NormalParts(p).query == "" && DropParams(p.path) == p.path
  {
    assert HostCharAt(p.netloc, 0);
    PrintedIsAbsolute(p);
    TrimEndPlain(p.path);
    SlashPath(p.path, trimmed);
  }

  lemma SlashNotIdempotent(p: Parts, trimmed: string)
    requires Canonical(p) && p.netloc == "h" && p.query == "" && Printable(p.path)
    requires p.path == trimmed + "/" && trimmed != "" && trimmed[|trimmed| - 1] != '/'
    requires !Parameterless(trimmed) || trimmed[|trimmed| - 1] == ' '
    ensures var url := UrlUnparse(p); Absolute(url) && NormalizeUrl(NormalizeUrl(url)) != NormalizeUrl(url)
  {
    SlashUrl(p, trimmed);
    SlashPath(p.path, trimmed);
    NormalizeIdempotent(UrlUnparse(p));
    var s := NormalParts(p).netloc + trimmed;
    assert s[|s| - 1] == trimmed[|trimmed| - 1];
  }

  lemma SemicolonInLast(a: char, b: char)
    requires a != '/' && b != '/'
    ensures !Parameterless(['/', a, ';', b])
  {
    var path := ['/', a, ';', b];
    var i := LastSegmentStart(path);
    assert LastSegment(path)[2 - i] == ';';
  }

  /** Two URLs whose normal form is normalised further: http://h/a;b/, whose ';' comes to stand in the last segment,
      and "http://h/a /", which comes to end in a space. */
  lemma NotIdempotent(p: Parts)
    requires p == Parts("http", "h", "/a;b/", "") || p == Parts("http", "h", "/a /", "")
    ensures var url := UrlUnparse(p); Absolute(url) && NormalizeUrl(NormalizeUrl(url)) != NormalizeUrl(url)
  {
    if p.path == "/a;b/" {
      SemicolonInLast('a', 'b');
      assert p.path == "/a;b" + "/" && "/a;b" == ['/', 'a', ';', 'b'];
      SlashNotIdempotent(p, "/a;b");
    } else {
      assert p.path == "/a " + "/";
      SlashNotIdempotent(p, "/a ");
    }
  }

  lemma NoSemicolon(path: string)
    requires ';' !in path
    ensures Parameterless(TrimSlashes(DropParams(path)))
  {
    DropParamsKeeps(path);
    TrimSlashesAgain(DropParams(path));
    var trimmed := TrimSlashes(DropParams(path));
    assert forall c :: c in LastSegment(trimmed) ==> c in trimmed;
    assert forall c :: c in trimmed ==> c in path;
  }

  /** Host and port of an authority. */
  function HostText(netloc: string): string {
    netloc[..LastColon(netloc)]
  }

  function PortText(netloc: string): Option<string> {
    var i := LastColon(netloc);
    if i < |netloc| then Some(netloc[i + 1..]) else None
  }

  /** No port, or the scheme's own. */
  predicate OnDefaultPort(scheme: string, netloc: string) {
    PortText(netloc).None? || IsDefaultPort(scheme, PortText(netloc).value)
  }

  lemma AuthorityText(scheme: string, a: string)
    requires HostPort(a)
    ensures a == HostText(a) + if PortText(a).Some? then ":" + PortText(a).value else ""
    ensures ':' !in HostText(a) && (PortText(a).Some? ==> ':' in a)
    ensures DropDefaultPort(scheme, a) == if OnDefaultPort(scheme, a) then HostText(a) else a
  {
    HostHasNoColon(a);
    var i := LastColon(a);
    if i < |a| {
      assert a == a[..i] + ":" + a[i + 1..];
    }
  }

  lemma HostHasNoColon(a: string)
    requires HostPort(a)
    ensures ':' !in HostText(a) && (PortText(a).Some? ==> ':' in a)
  {
    var i := LastColon(a);
    assert forall k :: 0 <= k < i ==> a[k] != ':';
  }

  lemma SameAuthority(scheme: string, a: string, b: string)
    requires HostPort(a) && HostPort(b)
    ensures DropDefaultPort(scheme, a) == DropDefaultPort(scheme, b) <==>
            HostText(a) == HostText(b) &&
            (PortText(a) == PortText(b) || (OnDefaultPort(scheme, a) && OnDefaultPort(scheme, b)))
  {
    AuthorityText(scheme, a);
    AuthorityText(scheme, b);
  }

  /** Two absolute URLs have one normal form exactly when they agree on the scheme, on the host up to case, on
      the port up to the default one, on the path up to parameters and trailing slashes (the root path aside),
      and on the query's parameters up to their order and encoding; fragments do not matter. */
  lemma {:induction false} SameNormalForm(url: string, other: string)
    requires Absolute(url) && Absolute(other)
    ensures var p, q := UrlSplit(Text.Strip(url)), UrlSplit(Text.Strip(other));
            var a, b := Lower(p.netloc), Lower(q.netloc);
            var x, y := DropParams(p.path), DropParams(q.path);
            NormalizeUrl(url) == NormalizeUrl(other) <==>
              && p.scheme == q.scheme
              && HostText(a) == HostText(b)
              && (PortText(a) == PortText(b) || (OnDefaultPort(p.scheme, a) && OnDefaultPort(p.scheme, b)))
              && (x == "/" <==> y == "/") && StripSlashes(x) == StripSlashes(y)
              && multiset(ParseQsl(p.query)) == multiset(ParseQsl(q.query))
  {
    var p, q := UrlSplit(Text.Strip(url)), UrlSplit(Text.Strip(other));
    NormalForm(url);
    NormalForm(other);
    if NormalizeUrl(url) == NormalizeUrl(other) {
      UnparseInjective(NormalParts(p), NormalParts(q));
    }
    LowerKeeps(p.netloc);
    LowerKeeps(q.netloc);
    SameAuthority(p.scheme, Lower(p.netloc), Lower(q.netloc));
    SamePath(DropParams(p.path), DropParams(q.path));
    SameCanonicalQuery(p.query, q.query);
  }

  lemma HostBeforeColon(netloc: string)
    requires HostPort(netloc)
    ensures netloc[..IndexOf(netloc, {':'})] == HostText(netloc)
  {
    var i := LastColon(netloc);
    assert forall k :: 0 <= k < i ==> netloc[k] != ':';
  }

  lemma HostWithoutPort(scheme: string, netloc: string)
    requires HostPort(netloc)
    ensures HostText(DropDefaultPort(scheme, netloc)) == HostText(netloc)
  {
    var i := LastColon(netloc);
    var n := DropDefaultPort(scheme, netloc);
    assert forall k :: 0 <= k < i ==> netloc[k] != ':';
    if n != netloc {
      assert forall k :: 0 <= k < i ==> n[k] == netloc[k];
      assert LastColon(n) == |n|;
    }
  }

  lemma NormalizedHost(url: string)
    requires Absolute(url)
    ensures ExtractDomain(url) == HostText(Lower(UrlSplit(Text.Strip(url)).netloc))
  {
    var p := UrlSplit(Text.Strip(url));
    var n := NormalParts(p);
    NormalForm(url);
    SplitUnparse(n);
    NormalNetloc(Text.Strip(url));
    assert Netloc(NormalizeUrl(url)) == n.netloc;
    HostBeforeColon(n.netloc);
    LowerKeeps(p.netloc);
    HostWithoutPort(p.scheme, Lower(p.netloc));
  }

  /** The host that is left when the printed form is stripped. */
  lemma StrippedHost(n: Parts)
    requires HostPort(n.netloc)
    ensures HostText(StripEnd(n).netloc) == HostText(n.netloc) <==>
            !(EndsInSpace(n) && n.path == "" && PortText(n.netloc).None?)
  {
    TrimEndPrefix(n.netloc);
    var i, r := LastColon(n.netloc), TrimEnd(n.netloc);
    if i < |n.netloc| {
      assert n.netloc[i] == ':' && i < |r|;
      assert LastColon(r) == i;
    } else {
      assert forall k :: 0 <= k < |r| ==> r[k] == n.netloc[k] != ':';
      assert LastColon(r) == |r|;
    }
  }

  /** The domain of an absolute URL is its host in lower case; normalising first changes it exactly when the normal
      form is a bare host that ends in a space. */
  lemma {:induction false} DomainIsHost(url: string)
    requires Absolute(url)
    ensures ExtractDomain(url) == HostText(Lower(UrlSplit(Text.Strip(url)).netloc))
    ensures var n := NormalParts(UrlSplit(Text.Strip(url)));
            ExtractDomain(NormalizeUrl(url)) == ExtractDomain(url) <==>
            !(EndsInSpace(n) && n.path == "" && PortText(n.netloc).None?)
  {
    var p := UrlSplit(Text.Strip(url));
    var n := NormalParts(p);
    NormalizedHost(url);
    NormalFormAbsolute(url);
    NormalPartsCanonical(Text.Strip(url));
    StripEndCanonical(n);
    NormalizedHost(NormalizeUrl(url));
    LowerKeeps(p.netloc);
    HostWithoutPort(p.scheme, Lower(p.netloc));
    StrippedHost(n);
  }
}
