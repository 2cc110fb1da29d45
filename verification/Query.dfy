/** Query strings: parse_qsl with blank values kept, urlencode, and sorting by name and value. */
module Query {
  import opened Links
  import opened Percent

  datatype Param = Param(name: string, value: string)

  // ---------------------------------------------------------------- parse_qsl

  /** A field without '=' has an empty value. */
  function ParamOf(field: string): Param {
    var i := IndexOf(field, {'='});
    Param(UnquotePlus(field[..i]), if i < |field| then UnquotePlus(field[i + 1..]) else "")
  }

  /** Empty fields are passed over. */
  function ParseQsl(query: string): seq<Param>
    decreases |query|
  {
    var i := IndexOf(query, {'&'});
    var head := if i == 0 then [] else [ParamOf(query[..i])];
    head + if i < |query| then ParseQsl(query[i + 1..]) else []
  }

  // ---------------------------------------------------------------- urlencode

  function Field(p: Param): string {
    QuotePlus(p.name) + "=" + QuotePlus(p.value)
  }

  function UrlEncode(params: seq<Param>): string {
    if params == [] then ""
    else if |params| == 1 then Field(params[0])
    else Field(params[0]) + "&" + UrlEncode(params[1..])
  }

  lemma SplitsAt(front: string, c: char, back: string)
    requires forall i :: 0 <= i < |front| ==> front[i] != c
    ensures var s := front + [c] + back;
            IndexOf(s, {c}) == |front| && s[..|front|] == front && s[|front| + 1..] == back
  {
    var s := front + [c] + back;
    assert s == front + ([c] + back);
    IndexBehind(front, [c] + back, {c});
  }

  lemma FieldParses(p: Param)
    ensures ParamOf(Field(p)) == p
    ensures Field(p) != "" && forall i :: 0 <= i < |Field(p)| ==> Field(p)[i] != '&'
  {
    QuoteRoundTrip(p.name);
    QuoteRoundTrip(p.value);
    SplitsAt(QuotePlus(p.name), '=', QuotePlus(p.value));
  }

  lemma ParseField(p: Param, rest: string)
    ensures ParseQsl(Field(p)) == [p]
    ensures ParseQsl(Field(p) + "&" + rest) == [p] + ParseQsl(rest)
  {
    FieldParses(p);
    var f := Field(p);
    IndexBehind(f, "", {'&'});
    assert f + "" == f && f[..|f|] == f;
    SplitsAt(f, '&', rest);
  }

  /** Parsing undoes printing. */
  lemma {:induction false} ParseEncode(params: seq<Param>)
    ensures ParseQsl(UrlEncode(params)) == params
  {
    if params != [] {
      ParseField(params[0], UrlEncode(params[1..]));
      ParseEncode(params[1..]);
      assert params == [params[0]] + params[1..];
      EncodeAhead(params);
    }
  }

  lemma EncodeAhead(params: seq<Param>)
    requires params != []
    ensures UrlEncode(params) ==
            if |params| == 1 then Field(params[0]) else Field(params[0]) + "&" + UrlEncode(params[1..])
  {
  }

  // ---------------------------------------------------------------- what is parsed, for any query

  lemma NoneBefore(front: string, rest: string, c: char)
    requires c !in front && (rest == "" || rest[0] == c)
    ensures IndexOf(front + rest, {c}) == |front|
  {
    assert forall i :: 0 <= i < |front| ==> front[i] in front;
    IndexBehind(front, rest, {c});
  }

  lemma ParseLast(field: string)
    requires '&' !in field
    ensures ParseQsl(field) == if field == "" then [] else [ParamOf(field)]
  {
    NoneBefore(field, "", '&');
    assert field + "" == field && field[..|field|] == field;
  }

  lemma AroundSep(front: string, sep: string, back: string, s: string)
    requires |sep| == 1 && s == front + sep + back
    ensures s == front + (sep + back) && s[..|front|] == front && s[|front| + 1..] == back
  {
  }

  lemma ParseAhead(field: string, rest: string, s: string)
    requires '&' !in field && s == field + "&" + rest
    ensures ParseQsl(s) == ParseQsl(field) + ParseQsl(rest)
  {
    AroundSep(field, "&", rest, s);
    NoneBefore(field, "&" + rest, '&');
    ParseLast(field);
  }

  lemma SplitFirst(s: string, sep: string) returns (front: string, back: string)
    requires |sep| == 1 && sep[0] in s
    ensures s == front + sep + back && sep[0] !in front
  {
    var i := IndexOf(s, {sep[0]});
    front, back := s[..i], s[i + 1..];
  }

  lemma Regroup(a: string, sep: string, b: string, d: string)
    ensures a + sep + b + sep + d == a + sep + (b + sep + d)
  {
  }

  lemma Glue(x: seq<Param>, y: seq<Param>, z: seq<Param>, xy: seq<Param>, yz: seq<Param>, all: seq<Param>)
    requires xy == x + y && yz == y + z && all == x + yz
    ensures all == xy + z
  {
  }

  /** The fields before and behind a '&' are parsed on their own. */
  lemma {:induction false} ParseConcat(a: string, b: string, s: string)
    requires s == a + "&" + b
    ensures ParseQsl(s) == ParseQsl(a) + ParseQsl(b)
    decreases |a|
  {
    if '&' in a {
      var field, rest := SplitFirst(a, "&");
      var behind := rest + "&" + b;
      Regroup(field, "&", rest, b);
      ParseAhead(field, rest, a);
      ParseAhead(field, behind, s);
      ParseConcat(rest, b, behind);
      Glue(ParseQsl(field), ParseQsl(rest), ParseQsl(b), ParseQsl(a), ParseQsl(behind), ParseQsl(s));
    } else {
      ParseAhead(a, b, s);
    }
  }

  /** A single field without '=' is a name with a blank value. */
  lemma BlankField(name: string)
    requires '&' !in name && '=' !in name
    ensures ParseQsl(name) == if name == "" then [] else [Param(UnquotePlus(name), "")]
  {
    ParseLast(name);
    NoneBefore(name, "", '=');
    assert name + "" == name && name[..|name|] == name;
  }

  /** Any other is a name and a value, on the two sides of its first '='. */
  lemma NamedField(name: string, value: string, field: string)
    requires '&' !in field && '=' !in name && field == name + "=" + value
    ensures ParseQsl(field) == [Param(UnquotePlus(name), UnquotePlus(value))]
  {
    ParseLast(field);
    NameAndValue(name, value, field);
  }

  lemma NameAndValue(name: string, value: string, field: string)
    requires '=' !in name && field == name + "=" + value
    ensures ParamOf(field) == Param(UnquotePlus(name), UnquotePlus(value))
  {
    AroundSep(name, "=", value, field);
    NoneBefore(name, "=" + value, '=');
  }

  /** The fields of a query, '&' between them. */
  function JoinFields(fields: seq<string>): string
    requires fields != []
  {
    if |fields| == 1 then fields[0] else fields[0] + "&" + JoinFields(fields[1..])
  }

  ghost predicate FieldsOf(query: string, fields: seq<string>) {
    fields != [] && JoinFields(fields) == query && forall i :: 0 <= i < |fields| ==> '&' !in fields[i]
  }

  /** The parameter reads the field: up to its first '=' the name, behind it the value, blank if there is none. */
  ghost predicate Reads(p: Param, field: string) {
    || ('=' !in field && p == Param(UnquotePlus(field), ""))
    || exists name, value :: '=' !in name && field == name + "=" + value
                             && p == Param(UnquotePlus(name), UnquotePlus(value))
  }

  lemma FieldRead(field: string)
    requires '&' !in field && field != ""
    ensures |ParseQsl(field)| == 1 && Reads(ParseQsl(field)[0], field)
  {
    if '=' in field {
      var name, value := SplitFirst(field, "=");
      NamedField(name, value, field);
    } else {
      BlankField(field);
    }
  }

  /** The positions of the fields that are not empty, in order. */
  ghost predicate NotEmpty(fields: seq<string>, from: nat, picks: seq<nat>) {
    && (forall a, b :: 0 <= a < b < |picks| ==> picks[a] < picks[b])
    && (forall i: nat :: i in picks <==> from <= i < |fields| && fields[i] != "")
  }

  /** Each of the parameters reads one of the fields, in order. */
  ghost predicate AllRead(ps: seq<Param>, fields: seq<string>, picks: seq<nat>) {
    && |ps| == |picks|
    && forall n :: 0 <= n < |ps| ==> picks[n] < |fields| && Reads(ps[n], fields[picks[n]])
  }

  lemma PickHead(fields: seq<string>, from: nat, first: seq<nat>, later: seq<nat>)
    requires from < |fields| && first == if fields[from] == "" then [] else [from]
    requires NotEmpty(fields, from + 1, later)
    ensures NotEmpty(fields, from, first + later)
  {
    assert forall b :: 0 <= b < |later| ==> later[b] in later;
    assert forall i: nat :: i in first + later <==> i in first || i in later;
  }

  lemma ReadBoth(fields: seq<string>, first: seq<nat>, later: seq<nat>, head: seq<Param>, tail: seq<Param>)
    requires AllRead(head, fields, first) && AllRead(tail, fields, later)
    ensures AllRead(head + tail, fields, first + later)
  {
    var ps, picks := head + tail, first + later;
    forall n | 0 <= n < |ps|
      ensures picks[n] < |fields| && Reads(ps[n], fields[picks[n]])
    {
      if n < |head| {
        assert ps[n] == head[n] && picks[n] == first[n];
      } else {
        assert ps[n] == tail[n - |head|] && picks[n] == later[n - |head|];
      }
    }
  }

  lemma HeadRead(field: string)
    requires '&' !in field
    ensures field == "" ==> ParseQsl(field) == []
    ensures field != "" ==> |ParseQsl(field)| == 1 && Reads(ParseQsl(field)[0], field)
  {
    if field == "" {
      ParseLast(field);
    } else {
      FieldRead(field);
    }
  }

  lemma {:induction false} FieldsFrom(fields: seq<string>, from: nat, query: string) returns (picks: seq<nat>)
    requires from < |fields| && forall i :: 0 <= i < |fields| ==> '&' !in fields[i]
    requires query == JoinFields(fields[from..])
    ensures NotEmpty(fields, from, picks) && AllRead(ParseQsl(query), fields, picks)
    decreases |fields| - from
  {
    var first := if fields[from] == "" then [] else [from];
    HeadRead(fields[from]);
    if from + 1 == |fields| {
      PickHead(fields, from, first, []);
      assert first + [] == first;
      picks := first;
    } else {
      var rest := JoinFields(fields[from + 1..]);
      assert fields[from..][1..] == fields[from + 1..];
      var later := FieldsFrom(fields, from + 1, rest);
      ParseAhead(fields[from], rest, query);
      PickHead(fields, from, first, later);
      ReadBoth(fields, first, later, ParseQsl(fields[from]), ParseQsl(rest));
      picks := first + later;
    }
  }

  /** Whatever the query, it has one parameter for each field that is not empty, in order, and each reads its field. */
  lemma {:induction false} OneParamPerField(query: string, fields: seq<string>) returns (picks: seq<nat>)
    requires FieldsOf(query, fields)
    ensures NotEmpty(fields, 0, picks) && AllRead(ParseQsl(query), fields, picks)
  {
    assert fields[0..] == fields;
    picks := FieldsFrom(fields, 0, query);
  }

  // ---------------------------------------------------------------- order

  predicate StringLe(a: string, b: string) {
    a == "" || (b != "" && (a[0] < b[0] || (a[0] == b[0] && StringLe(a[1..], b[1..]))))
  }

  /** It is the order of the dictionary: a prefix comes first, else the first character that differs decides. */
  lemma {:induction false} StringLeIsLexicographic(a: string, b: string)
    ensures StringLe(a, b) <==> a <= b || exists i :: FirstLess(a, b, i)
  {
    if a != "" && b != "" && a[0] == b[0] {
      StringLeIsLexicographic(a[1..], b[1..]);
      SameFirstCharacter(a, b, a[1..], b[1..]);
    } else if a != "" && b != "" && a[0] < b[0] {
      assert FirstLess(a, b, 0);
    }
  }

  /** At i the texts differ for the first time, and a has the smaller character there. */
  predicate FirstLess(a: string, b: string, i: int) {
    0 <= i < |a| && i < |b| && a[i] < b[i] && forall j :: 0 <= j < i ==> a[j] == b[j]
  }

  lemma SameFirstCharacter(a: string, b: string, a1: string, b1: string)
    requires a != "" && b != "" && a[0] == b[0] && a1 == a[1..] && b1 == b[1..]
    ensures a <= b <==> a1 <= b1
    ensures (exists i :: FirstLess(a, b, i)) <==> exists i :: FirstLess(a1, b1, i)
  {
    assert a == [a[0]] + a1 && b == [b[0]] + b1;
    if i :| FirstLess(a, b, i) {
      assert FirstLess(a1, b1, i - 1);
    }
    if i :| FirstLess(a1, b1, i) {
      assert FirstLess(a, b, i + 1);
    }
  }

  predicate ParamLe(p: Param, q: Param) {
    if p.name == q.name then StringLe(p.value, q.value) else StringLe(p.name, q.name)
  }

  lemma {:induction false} StringLeTotal(a: string, b: string)
    ensures StringLe(a, b) || StringLe(b, a)
    ensures StringLe(a, b) && StringLe(b, a) ==> a == b
  {
    if a != "" && b != "" && a[0] == b[0] {
      StringLeTotal(a[1..], b[1..]);
      assert a == [a[0]] + a[1..] && b == [b[0]] + b[1..];
    }
  }

  lemma {:induction false} StringLeTransitive(a: string, b: string, c: string)
    requires StringLe(a, b) && StringLe(b, c)
    ensures StringLe(a, c)
  {
    if a != "" && a[0] == b[0] == c[0] {
      StringLeTransitive(a[1..], b[1..], c[1..]);
    }
  }

  lemma ParamLeTotal(p: Param, q: Param)
    ensures ParamLe(p, q) || ParamLe(q, p)
    ensures ParamLe(p, q) && ParamLe(q, p) ==> p == q
  {
    StringLeTotal(p.name, q.name);
    StringLeTotal(p.value, q.value);
  }

  lemma ParamLeTransitive(p: Param, q: Param, r: Param)
    requires ParamLe(p, q) && ParamLe(q, r)
    ensures ParamLe(p, r)
  {
    if p.name == q.name == r.name {
      StringLeTransitive(p.value, q.value, r.value);
    } else if p.name != q.name && q.name != r.name {
      StringLeTransitive(p.name, q.name, r.name);
      StringLeTotal(p.name, q.name);
    }
  }

  // ---------------------------------------------------------------- sorting

  predicate Sorted(ps: seq<Param>) {
    forall i, j :: 0 <= i < j < |ps| ==> ParamLe(ps[i], ps[j])
  }

  function Insert(p: Param, ps: seq<Param>): seq<Param> {
    if ps == [] || ParamLe(p, ps[0]) then [p] + ps else [ps[0]] + Insert(p, ps[1..])
  }

  function Sort(ps: seq<Param>): seq<Param> {
    if ps == [] then [] else Insert(ps[0], Sort(ps[1..]))
  }

  lemma {:induction false} InsertSorts(p: Param, ps: seq<Param>)
    requires Sorted(ps)
    ensures Sorted(Insert(p, ps)) && multiset(Insert(p, ps)) == multiset(ps) + multiset{p}
  {
    if ps == [] {
    } else if ParamLe(p, ps[0]) {
      forall j | 0 <= j < |ps|
        ensures ParamLe(p, ps[j])
      {
        if j > 0 {
          ParamLeTransitive(p, ps[0], ps[j]);
        }
      }
    } else {
      var rest := Insert(p, ps[1..]);
      InsertSorts(p, ps[1..]);
      ParamLeTotal(p, ps[0]);
      assert ps == [ps[0]] + ps[1..];
      forall j | 0 <= j < |rest|
        ensures ParamLe(ps[0], rest[j])
      {
        assert rest[j] in multiset(rest);
        assert rest[j] == p || rest[j] in ps[1..];
      }
    }
  }

  lemma {:induction false} SortSorts(ps: seq<Param>)
    ensures Sorted(Sort(ps)) && multiset(Sort(ps)) == multiset(ps)
  {
    if ps != [] {
      SortSorts(ps[1..]);
      InsertSorts(ps[0], Sort(ps[1..]));
      assert ps == [ps[0]] + ps[1..];
    }
  }

  lemma FirstIsLeast(a: seq<Param>, p: Param)
    requires Sorted(a) && p in a
    ensures ParamLe(a[0], p)
  {
    ParamLeTotal(a[0], a[0]);
  }

  lemma SameFirst(a: seq<Param>, b: seq<Param>)
    requires Sorted(a) && Sorted(b) && multiset(a) == multiset(b) && a != []
    ensures b != [] && a[0] == b[0]
  {
    assert |multiset(b)| == |multiset(a)| == |a|;
    assert a[0] in multiset(b) && b[0] in multiset(a);
    FirstIsLeast(a, b[0]);
    FirstIsLeast(b, a[0]);
    ParamLeTotal(a[0], b[0]);
  }

  lemma MultisetOfTail(a: seq<Param>)
    requires a != []
    ensures multiset(a[1..]) == multiset(a) - multiset{a[0]}
  {
    assert a == [a[0]] + a[1..];
  }

  /** There is one sorted list of given elements. */
  lemma {:induction false} SortedUnique(a: seq<Param>, b: seq<Param>)
    requires Sorted(a) && Sorted(b) && multiset(a) == multiset(b)
    ensures a == b
  {
    assert |multiset(b)| == |multiset(a)| == |a|;
    if a != [] {
      SameFirst(a, b);
      MultisetOfTail(a);
      MultisetOfTail(b);
      SortedUnique(a[1..], b[1..]);
      assert a == [a[0]] + a[1..] && b == [b[0]] + b[1..];
    }
  }

  // ---------------------------------------------------------------- canonical queries

  /** urlencode(sorted(parse_qsl(query))), for an empty query too. */
  function CanonicalQuery(query: string): string {
    UrlEncode(Sort(ParseQsl(query)))
  }

  lemma {:induction false} CanonicalQueryAgain(query: string)
    ensures CanonicalQuery(CanonicalQuery(query)) == CanonicalQuery(query)
  {
    var sorted := Sort(ParseQsl(query));
    SortSorts(ParseQsl(query));
    ParseEncode(sorted);
    SortSorts(sorted);
    SortedUnique(Sort(sorted), sorted);
  }

  /** The canonical form prints the parameters of the query, each as often, by name and then by value: quoted, '='
      between name and value, '&' between two of them. */
  lemma {:induction false} CanonicalQueryPrints(query: string) returns (ps: seq<Param>, fields: seq<string>)
    ensures multiset(ps) == multiset(ParseQsl(query))
    ensures forall i, j :: 0 <= i < j < |ps| && ps[i].name == ps[j].name ==> StringLe(ps[i].value, ps[j].value)
    ensures forall i, j :: 0 <= i < j < |ps| ==> StringLe(ps[i].name, ps[j].name)
    ensures |fields| == |ps|
    ensures forall i :: 0 <= i < |ps| ==> fields[i] == QuotePlus(ps[i].name) + "=" + QuotePlus(ps[i].value)
    ensures CanonicalQuery(query) == if fields == [] then "" else JoinFields(fields)
  {
    ps := Sort(ParseQsl(query));
    SortSorts(ParseQsl(query));
    fields := EncodeIsJoin(ps);
    forall i, j | 0 <= i < j < |ps|
      ensures ps[i].name == ps[j].name ==> StringLe(ps[i].value, ps[j].value)
      ensures StringLe(ps[i].name, ps[j].name)
    {
      assert ParamLe(ps[i], ps[j]);
      StringLeTotal(ps[i].name, ps[i].name);
    }
  }

  lemma {:induction false} EncodeIsJoin(ps: seq<Param>) returns (fields: seq<string>)
    ensures |fields| == |ps|
    ensures forall i :: 0 <= i < |ps| ==> fields[i] == QuotePlus(ps[i].name) + "=" + QuotePlus(ps[i].value)
    ensures UrlEncode(ps) == if fields == [] then "" else JoinFields(fields)
  {
    if ps == [] {
      return [];
    }
    var rest := EncodeIsJoin(ps[1..]);
    fields := [Field(ps[0])] + rest;
    assert fields[1..] == rest;
    EncodeAhead(ps);
  }

  /** Two queries have one canonical form exactly when they hold the same parameters, each as often. */
  lemma {:induction false} SameCanonicalQuery(q: string, r: string)
    ensures CanonicalQuery(q) == CanonicalQuery(r) <==> multiset(ParseQsl(q)) == multiset(ParseQsl(r))
  {
    SortSorts(ParseQsl(q));
    SortSorts(ParseQsl(r));
    ParseEncode(Sort(ParseQsl(q)));
    ParseEncode(Sort(ParseQsl(r)));
    if multiset(ParseQsl(q)) == multiset(ParseQsl(r)) {
      SortedUnique(Sort(ParseQsl(q)), Sort(ParseQsl(r)));
    }
  }

  // ---------------------------------------------------------------- raw queries alike and not alike

  lemma ShorterDiffers(q: string, r: string)
    requires |ParseQsl(q)| != |ParseQsl(r)|
    ensures CanonicalQuery(q) != CanonicalQuery(r)
  {
    SameCanonicalQuery(q, r);
    assert |multiset(ParseQsl(q))| == |ParseQsl(q)| && |multiset(ParseQsl(r))| == |ParseQsl(r)|;
  }

  /** A field without '=' is kept, as if it had one, behind any other fields. */
  lemma {:induction false} BlankValueKept(q: string, name: string)
    requires name != "" && '&' !in name && '=' !in name
    ensures CanonicalQuery(name) == CanonicalQuery(name + "=") != CanonicalQuery("")
    ensures CanonicalQuery(q + "&" + name) == CanonicalQuery(q + "&" + (name + "=")) != CanonicalQuery(q)
  {
    BlankField(name);
    NamedField(name, "", name + "=");
    assert UnquotePlus("") == "";
    ParseConcat(q, name, q + "&" + name);
    ParseConcat(q, name + "=", q + "&" + (name + "="));
    ShorterDiffers(name, "");
    ShorterDiffers(q + "&" + name, q);
  }

  /** A text with a byte between two pieces that were quoted on their own. */
  function Around(a: string, b: byte, rest: string): string {
    DecodeText(Unquote(a) + [b] + Unquote(rest))
  }

  /** The parameter of a field with an escaped byte in it. */
  function FieldAround(a: string, b: byte, rest: string): Param {
    var i, j := IndexOf(a, {'='}), IndexOf(rest, {'='});
    if i < |a| then Param(UnquotePlus(a[..i]), Around(a[i + 1..], b, rest))
    else if j < |rest| then Param(Around(a, b, rest[..j]), UnquotePlus(rest[j + 1..]))
    else Param(Around(a, b, rest), "")
  }

  lemma CutFront(a: string, x: string, rest: string, i: nat, sep: string)
    requires i < |a| && sep == [a[i]]
    ensures a + x + rest == a[..i] + sep + (a[i + 1..] + x + rest)
  {
  }

  lemma CutBack(a: string, x: string, rest: string, j: nat, sep: string)
    requires j < |rest| && sep == [rest[j]]
    ensures a + x + rest == (a + x + rest[..j]) + sep + rest[j + 1..]
  {
  }

  lemma AroundReads(a: string, x: string, b: byte, rest: string, s: string)
    requires Escapes(x, b) && s == a + x + rest
    ensures UnquotePlus(s) == Around(a, b, rest)
  {
    EscapeInside(a, x, b, rest, s);
  }

  /** An escape holds no delimiter of a query. */
  lemma NoDelimiter(x: string, b: byte)
    requires Escapes(x, b)
    ensures x != "" && '&' !in x && '=' !in x
  {
  }

  lemma NotInPieces(a: string, x: string, rest: string, s: string, c: char)
    requires s == a + x + rest && c !in a && c !in x && c !in rest
    ensures c !in s
  {
  }

  lemma EscapeInValue(a: string, x: string, b: byte, rest: string, s: string, i: nat)
    requires Escapes(x, b) && '&' !in s && s == a + x + rest && i < |a| && a[i] == '=' && '=' !in a[..i]
    ensures ParseQsl(s) == [Param(UnquotePlus(a[..i]), Around(a[i + 1..], b, rest))]
  {
    var value := a[i + 1..] + x + rest;
    CutFront(a, x, rest, i, "=");
    AroundReads(a[i + 1..], x, b, rest, value);
    NamedField(a[..i], value, s);
  }

  lemma EscapeInName(a: string, x: string, b: byte, rest: string, s: string, j: nat)
    requires Escapes(x, b) && '&' !in s && s == a + x + rest && j < |rest| && rest[j] == '='
    requires '=' !in a && '=' !in rest[..j]
    ensures ParseQsl(s) == [Param(Around(a, b, rest[..j]), UnquotePlus(rest[j + 1..]))]
  {
    var name := a + x + rest[..j];
    CutBack(a, x, rest, j, "=");
    AroundReads(a, x, b, rest[..j], name);
    NoDelimiter(x, b);
    NotInPieces(a, x, rest[..j], name, '=');
    NamedField(name, rest[j + 1..], s);
  }

  lemma EscapeInField(a: string, x: string, b: byte, rest: string, s: string)
    requires Escapes(x, b) && '&' !in a && '&' !in rest && s == a + x + rest
    ensures ParseQsl(s) == [FieldAround(a, b, rest)]
  {
    var i, j := IndexOf(a, {'='}), IndexOf(rest, {'='});
    NoDelimiter(x, b);
    NotInPieces(a, x, rest, s, '&');
    if i < |a| {
      EscapeInValue(a, x, b, rest, s, i);
    } else if j < |rest| {
      EscapeInName(a, x, b, rest, s, j);
    } else {
      NotInPieces(a, x, rest, s, '=');
      AroundReads(a, x, b, rest, s);
      BlankField(s);
    }
  }

  /** The parameters of a query with an escaped byte in it. */
  function ParamsAround(a: string, b: byte, rest: string): seq<Param>
    decreases |a|
  {
    var i, j := IndexOf(a, {'&'}), IndexOf(rest, {'&'});
    if i < |a| then ParseQsl(a[..i]) + ParamsAround(a[i + 1..], b, rest)
    else if j < |rest| then [FieldAround(a, b, rest[..j])] + ParseQsl(rest[j + 1..])
    else [FieldAround(a, b, rest)]
  }

  lemma FieldBefore(a: string, x: string, rest: string, s: string, i: nat, behind: string)
    requires s == a + x + rest && i < |a| && a[i] == '&' && '&' !in a[..i] && behind == a[i + 1..] + x + rest
    ensures ParseQsl(s) == ParseQsl(a[..i]) + ParseQsl(behind)
  {
    CutFront(a, x, rest, i, "&");
    ParseAhead(a[..i], behind, s);
  }

  lemma FieldBehind(a: string, x: string, b: byte, rest: string, s: string, j: nat)
    requires Escapes(x, b) && s == a + x + rest && '&' !in a && j < |rest| && rest[j] == '&' && '&' !in rest[..j]
    ensures ParseQsl(s) == [FieldAround(a, b, rest[..j])] + ParseQsl(rest[j + 1..])
  {
    var field := a + x + rest[..j];
    CutBack(a, x, rest, j, "&");
    NoDelimiter(x, b);
    NotInPieces(a, x, rest[..j], field, '&');
    ParseAhead(field, rest[j + 1..], s);
    EscapeInField(a, x, b, rest[..j], field);
  }

  lemma {:induction false} EscapeInQuery(a: string, x: string, b: byte, rest: string, s: string)
    requires Escapes(x, b) && s == a + x + rest
    ensures ParseQsl(s) == ParamsAround(a, b, rest)
    decreases |a|
  {
    var i, j := IndexOf(a, {'&'}), IndexOf(rest, {'&'});
    if i < |a| {
      var behind := a[i + 1..] + x + rest;
      FieldBefore(a, x, rest, s, i, behind);
      EscapeInQuery(a[i + 1..], x, b, rest, behind);
    } else if j < |rest| {
      FieldBehind(a, x, b, rest, s, j);
    } else {
      EscapeInField(a, x, b, rest, s);
    }
  }

  /** Two escapes of one byte, such as '+' and "%20", or "%2f" and "%2F", are alike anywhere in a query. */
  lemma {:induction false} EscapesAlike(a: string, x: string, y: string, b: byte, rest: string)
    requires Escapes(x, b) && Escapes(y, b)
    ensures ParseQsl(a + x + rest) == ParseQsl(a + y + rest)
  {
    EscapeInQuery(a, x, b, rest, a + x + rest);
    EscapeInQuery(a, y, b, rest, a + y + rest);
  }
}
