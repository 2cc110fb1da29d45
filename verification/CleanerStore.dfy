/** The cleaner's three tables: one URL, one artifact and one page per normalized URL, looked up and then
    updated or inserted. */
module CleanerStore {
  import opened Wrappers
  import opened Events
  import Links
  import Text
  import UrlNormalize

  // ---------------------------------------------------------------- tables

  /** The domain column, by the URL whose domain it holds. */
  datatype Domain = DomainOf(normalized: Url) {
    function Column(): string {
      UrlNormalize.ExtractDomain(normalized.text)
    }
  }

  /** The columns of a `urls` row that are set when it is inserted and never again. */
  datatype Identity = Identity(job: JobId, canonical: string, domain: Domain, depth: int)

  /** A row's id is its number in the table. */
  datatype UrlRow = UrlRow(normalized: Url, identity: Identity, hash: string, lastCrawled: int)

  datatype Artifact = Artifact(storageKey: string, checksum: string)

  datatype PageBody = PageBody(
    title: Option<string>, description: Option<string>, language: Option<string>, snippet: Option<string>,
    links: seq<string>, metadata: map<string, string>)

  /** A row of `html_artifacts` or `pages`. */
  datatype Row<T> = Row(urlId: nat, value: T)

  datatype Tables = Tables(urls: seq<UrlRow>, artifacts: seq<Row<Artifact>>, pages: seq<Row<PageBody>>)

  function IdentityOf(e: PageParsed): Identity {
    Identity(e.jobId, e.url, DomainOf(e.normalized), e.depth)
  }

  function ArtifactOf(e: PageParsed): Artifact {
    Artifact(e.storageKey, e.checksum)
  }

  function BodyOf(e: PageParsed): PageBody {
    PageBody(Text.CleanText(e.page.title, 1024), Text.CleanText(e.page.description, 10000), e.page.language,
             Text.CleanText(e.page.snippet, 500), Links.Dedupe(e.page.links), e.page.metadata)
  }

  // ---------------------------------------------------------------- SELECT .. WHERE

  function FindUrl(urls: seq<UrlRow>, n: Url): (r: Option<nat>)
    ensures r.Some? ==> r.value < |urls| && urls[r.value].normalized == n
    ensures r.None? ==> forall i :: 0 <= i < |urls| ==> urls[i].normalized != n
  {
    if urls == [] then None
    else if urls[|urls| - 1].normalized == n then Some(|urls| - 1)
    else FindUrl(urls[..|urls| - 1], n)
  }

  function Find<T>(rows: seq<Row<T>>, id: nat): (r: Option<nat>)
    ensures r.Some? ==> r.value < |rows| && rows[r.value].urlId == id
    ensures r.None? ==> forall i :: 0 <= i < |rows| ==> rows[i].urlId != id
  {
    if rows == [] then None
    else if rows[|rows| - 1].urlId == id then Some(|rows| - 1)
    else Find(rows[..|rows| - 1], id)
  }

  // ---------------------------------------------------------------- the upserts

  /** The id of the row that an upsert of n finds or inserts. */
  function UrlId(urls: seq<UrlRow>, n: Url): nat {
    var found := FindUrl(urls, n);
    if found.Some? then found.value else |urls|
  }

  function UrlsAfter(urls: seq<UrlRow>, e: PageParsed, now: int): seq<UrlRow> {
    match FindUrl(urls, e.normalized)
    case Some(i) => urls[i := urls[i].(hash := e.checksum, lastCrawled := now)]
    case None => urls + [UrlRow(e.normalized, IdentityOf(e), e.checksum, now)]
  }

  function RowsAfter<T>(rows: seq<Row<T>>, id: nat, value: T): seq<Row<T>> {
    match Find(rows, id)
    case Some(i) => rows[i := rows[i].(value := value)]
    case None => rows + [Row(id, value)]
  }

  function TablesAfter(t: Tables, e: PageParsed, now: int): Tables {
    var id := UrlId(t.urls, e.normalized);
    Tables(UrlsAfter(t.urls, e, now), RowsAfter(t.artifacts, id, ArtifactOf(e)), RowsAfter(t.pages, id, BodyOf(e)))
  }

  // ---------------------------------------------------------------- the upserts, told field by field

  /** Row id is the one of n: it was there, or is the last and new; the other rows are as before. */
  predicate UrlStored(urls: seq<UrlRow>, urls': seq<UrlRow>, n: Url, id: nat) {
    && id < |urls'| && urls'[id].normalized == n
    && (forall i :: 0 <= i < |urls| && i != id ==> i < |urls'| && urls'[i] == urls[i])
    && if id < |urls| then |urls'| == |urls| && urls[id].normalized == n
       else |urls'| == |urls| + 1 && id == |urls| && forall i :: 0 <= i < |urls| ==> urls[i].normalized != n
  }

  /** A known URL keeps job, canonical form, domain and depth; a new one has those of the event. The content hash is
      the event's checksum. */
  predicate IsUrlOf(urls: seq<UrlRow>, row: UrlRow, id: nat, e: PageParsed, now: int) {
    && row.hash == e.checksum && row.lastCrawled == now
    && if id < |urls| then row.identity == urls[id].identity
       else row.identity.job == e.jobId && row.identity.canonical == e.url
            && row.identity.domain == DomainOf(e.normalized) && row.identity.depth == e.depth
  }

  /** Row at is the one for id: it was there, or is the last and new; the other rows are as before. */
  ghost predicate RowStored<T>(rows: seq<Row<T>>, rows': seq<Row<T>>, id: nat, at: nat) {
    && at < |rows'| && rows'[at].urlId == id
    && (forall i :: 0 <= i < |rows| && i != at ==> i < |rows'| && rows'[i] == rows[i])
    && if at < |rows| then |rows'| == |rows| && rows[at].urlId == id
       else |rows'| == |rows| + 1 && at == |rows| && forall i :: 0 <= i < |rows| ==> rows[i].urlId != id
  }

  predicate IsArtifactOf(a: Artifact, e: PageParsed) {
    a.storageKey == e.storageKey && a.checksum == e.checksum
  }

  /** The texts cleaned and cut, the links without repeats, the rest as it came. */
  predicate IsPageOf(b: PageBody, e: PageParsed) {
    && b.title == Text.CleanText(e.page.title, 1024)
    && b.description == Text.CleanText(e.page.description, 10000)
    && b.snippet == Text.CleanText(e.page.snippet, 500)
    && b.language == e.page.language && b.metadata == e.page.metadata
    && b.links == Links.Dedupe(e.page.links)
  }

  /** What one event's transaction does to the three tables. */
  ghost predicate Cleaned(t: Tables, t': Tables, e: PageParsed, now: int) {
    exists id: nat, a: nat, p: nat ::
      && UrlStored(t.urls, t'.urls, e.normalized, id) && IsUrlOf(t.urls, t'.urls[id], id, e, now)
      && RowStored(t.artifacts, t'.artifacts, id, a) && IsArtifactOf(t'.artifacts[a].value, e)
      && RowStored(t.pages, t'.pages, id, p) && IsPageOf(t'.pages[p].value, e)
  }

  lemma StoresUrl(urls: seq<UrlRow>, e: PageParsed, now: int)
    ensures var id, urls' := UrlId(urls, e.normalized), UrlsAfter(urls, e, now);
            UrlStored(urls, urls', e.normalized, id) && IsUrlOf(urls, urls'[id], id, e, now)
  {
  }

  lemma StoresRow<T>(rows: seq<Row<T>>, id: nat, value: T) returns (at: nat)
    ensures RowStored(rows, RowsAfter(rows, id, value), id, at) && RowsAfter(rows, id, value)[at].value == value
  {
    at := if Find(rows, id).Some? then Find(rows, id).value else |rows|;
  }

  /** The upserts do that, for any event, time and tables. */
  lemma {:induction false} UpsertsClean(t: Tables, e: PageParsed, now: int)
    ensures Cleaned(t, TablesAfter(t, e, now), e, now)
  {
    var id := UrlId(t.urls, e.normalized);
    StoresUrl(t.urls, e, now);
    var a := StoresRow(t.artifacts, id, ArtifactOf(e));
    var p := StoresRow(t.pages, id, BodyOf(e));
  }

  class CleanerDatabase {
    var urls: seq<UrlRow>
    var artifacts: seq<Row<Artifact>>
    var pages: seq<Row<PageBody>>

    constructor ()
      ensures Contents() == Tables([], [], [])
    {
      urls, artifacts, pages := [], [], [];
    }

    function Contents(): Tables
      reads this
    {
      Tables(urls, artifacts, pages)
    }

    method UpsertUrl(e: PageParsed, now: int) returns (id: nat)
      modifies `urls
      ensures id == UrlId(old(urls), e.normalized) && urls == UrlsAfter(old(urls), e, now)
      ensures UrlStored(old(urls), urls, e.normalized, id) && IsUrlOf(old(urls), urls[id], id, e, now)
    {
      StoresUrl(urls, e, now);
      var existing := FindUrl(urls, e.normalized);
      if existing.Some? {
        id := existing.value;
        urls := urls[id := urls[id].(hash := e.checksum, lastCrawled := now)];
        return;
      }
      id := |urls|;
      urls := urls + [UrlRow(e.normalized, IdentityOf(e), e.checksum, now)];
    }

    method UpsertArtifact(id: nat, e: PageParsed)
      modifies `artifacts
      ensures artifacts == RowsAfter(old(artifacts), id, ArtifactOf(e))
      ensures exists at: nat :: RowStored(old(artifacts), artifacts, id, at) && IsArtifactOf(artifacts[at].value, e)
    {
      ghost var at := StoresRow(artifacts, id, ArtifactOf(e));
      var existing := Find(artifacts, id);
      if existing.Some? {
        var i := existing.value;
        artifacts := artifacts[i := artifacts[i].(value := Artifact(e.storageKey, e.checksum))];
        return;
      }
      artifacts := artifacts + [Row(id, Artifact(e.storageKey, e.checksum))];
    }

    method UpsertPage(id: nat, e: PageParsed)
      modifies `pages
      ensures pages == RowsAfter(old(pages), id, BodyOf(e))
      ensures exists at: nat :: RowStored(old(pages), pages, id, at) && IsPageOf(pages[at].value, e)
    {
      ghost var at := StoresRow(pages, id, BodyOf(e));
      var links := Links.DedupeLinks(e.page.links);
      var title := Text.CleanText(e.page.title, 1024);
      var description := Text.CleanText(e.page.description, 10000);
      var snippet := Text.CleanText(e.page.snippet, 500);
      var body := PageBody(title, description, e.page.language, snippet, links, e.page.metadata);
      var existing := Find(pages, id);
      if existing.Some? {
        pages := pages[existing.value := pages[existing.value].(value := body)];
        return;
      }
      pages := pages + [Row(id, body)];
    }

    /** The transaction of one event: tables that stood for a map stand for the map with the event in it. */
    method Clean(e: PageParsed, now: int, ghost m: map<Url, Entry>)
      requires Shows(Contents(), m)
      modifies this
      ensures Contents() == TablesAfter(old(Contents()), e, now)
      ensures Cleaned(old(Contents()), Contents(), e, now)
      ensures Shows(Contents(), Upsert(m, e))
    {
      ghost var before := Contents();
      var id := UpsertUrl(e, now);
      UpsertArtifact(id, e);
      UpsertPage(id, e);
      CleanedShows(before, m, e, now, id, Contents());
      UpsertsClean(before, e, now);
    }
  }

  // ---------------------------------------------------------------- a simple map

  datatype Entry = Entry(identity: Identity, hash: string, artifact: Artifact, body: PageBody)

  /** The entry an event leaves: the identity stays, the content is the event's. */
  function EntryAfter(m: map<Url, Entry>, e: PageParsed): Entry {
    Entry(if e.normalized in m then m[e.normalized].identity else IdentityOf(e), e.checksum, ArtifactOf(e), BodyOf(e))
  }

  function Upsert(m: map<Url, Entry>, e: PageParsed): map<Url, Entry> {
    m[e.normalized := EntryAfter(m, e)]
  }

  /** Exactly one row for each key of the map, with the key's identity and hash. */
  ghost predicate UrlsShow(urls: seq<UrlRow>, m: map<Url, Entry>) {
    && (forall i, j :: 0 <= i < j < |urls| ==> urls[i].normalized != urls[j].normalized)
    && (forall n :: n in m ==> FindUrl(urls, n).Some?)
    && (forall i :: 0 <= i < |urls| ==>
          && urls[i].normalized in m
          && m[urls[i].normalized].identity == urls[i].identity && m[urls[i].normalized].hash == urls[i].hash)
  }

  /** Exactly one row for each id below |expected|, holding what is expected. */
  ghost predicate RowsShow<T>(rows: seq<Row<T>>, expected: seq<T>) {
    && (forall i, j :: 0 <= i < j < |rows| ==> rows[i].urlId != rows[j].urlId)
    && (forall id :: 0 <= id < |expected| ==> Find(rows, id).Some?)
    && (forall i :: 0 <= i < |rows| ==> rows[i].urlId < |expected| && rows[i].value == expected[rows[i].urlId])
  }

  /** The map's entries in the order of the URL rows. */
  ghost function Listing(urls: seq<UrlRow>, m: map<Url, Entry>): seq<Entry>
    requires UrlsShow(urls, m)
  {
    seq(|urls|, i requires 0 <= i < |urls| => m[urls[i].normalized])
  }

  ghost function Artifacts(entries: seq<Entry>): seq<Artifact> {
    seq(|entries|, i requires 0 <= i < |entries| => entries[i].artifact)
  }

  ghost function Bodies(entries: seq<Entry>): seq<PageBody> {
    seq(|entries|, i requires 0 <= i < |entries| => entries[i].body)
  }

  /** The tables stand for the map: exactly one URL, artifact and page row per key, holding its entry. */
  ghost predicate Shows(t: Tables, m: map<Url, Entry>) {
    && UrlsShow(t.urls, m)
    && RowsShow(t.artifacts, Artifacts(Listing(t.urls, m))) && RowsShow(t.pages, Bodies(Listing(t.urls, m)))
  }

  function Put<T>(xs: seq<T>, id: nat, x: T): seq<T>
    requires id <= |xs|
  {
    if id < |xs| then xs[id := x] else xs + [x]
  }

  lemma RowsAfterShow<T>(rows: seq<Row<T>>, expected: seq<T>, id: nat, value: T)
    requires RowsShow(rows, expected) && id <= |expected|
    ensures RowsShow(RowsAfter(rows, id, value), Put(expected, id, value))
  {
    var rows', expected' := RowsAfter(rows, id, value), Put(expected, id, value);
    forall k: nat | k < |expected'|
      ensures Find(rows', k).Some?
    {
      if k == id {
        var i := if Find(rows, id).Some? then Find(rows, id).value else |rows|;
        assert rows'[i].urlId == k;
      } else {
        assert rows'[Find(rows, k).value].urlId == k;
      }
    }
  }

  lemma PutUrlShows(urls: seq<UrlRow>, m: map<Url, Entry>, row: UrlRow, entry: Entry)
    requires UrlsShow(urls, m) && row.identity == entry.identity && row.hash == entry.hash
    ensures UrlsShow(Put(urls, UrlId(urls, row.normalized), row), m[row.normalized := entry])
  {
    var id := UrlId(urls, row.normalized);
    var urls' := Put(urls, id, row);
    forall n | n in m[row.normalized := entry]
      ensures FindUrl(urls', n).Some?
    {
      if n == row.normalized {
        assert urls'[id].normalized == n;
      } else {
        assert urls'[FindUrl(urls, n).value].normalized == n;
      }
    }
  }

  lemma PutListing(urls: seq<UrlRow>, m: map<Url, Entry>, row: UrlRow, entry: Entry)
    requires UrlsShow(urls, m)
    requires UrlsShow(Put(urls, UrlId(urls, row.normalized), row), m[row.normalized := entry])
    ensures Listing(Put(urls, UrlId(urls, row.normalized), row), m[row.normalized := entry]) ==
            Put(Listing(urls, m), UrlId(urls, row.normalized), entry)
  {
  }

  lemma PutColumns(entries: seq<Entry>, id: nat, entry: Entry)
    requires id <= |entries|
    ensures Artifacts(Put(entries, id, entry)) == Put(Artifacts(entries), id, entry.artifact)
    ensures Bodies(Put(entries, id, entry)) == Put(Bodies(entries), id, entry.body)
  {
  }

  lemma {:induction false} UpsertShows(t: Tables, m: map<Url, Entry>, e: PageParsed, now: int)
    requires Shows(t, m)
    ensures Shows(TablesAfter(t, e, now), Upsert(m, e))
  {
    var id, entry := UrlId(t.urls, e.normalized), EntryAfter(m, e);
    var row := UrlRow(e.normalized, entry.identity, e.checksum, now);
    assert UrlsAfter(t.urls, e, now) == Put(t.urls, id, row);
    PutUrlShows(t.urls, m, row, entry);
    PutListing(t.urls, m, row, entry);
    PutColumns(Listing(t.urls, m), id, entry);
    RowsAfterShow(t.artifacts, Artifacts(Listing(t.urls, m)), id, ArtifactOf(e));
    RowsAfterShow(t.pages, Bodies(Listing(t.urls, m)), id, BodyOf(e));
  }

  /** The three upserts together. */
  lemma CleanedShows(t: Tables, m: map<Url, Entry>, e: PageParsed, now: int, id: nat, t': Tables)
    requires Shows(t, m) && id == UrlId(t.urls, e.normalized) && t'.urls == UrlsAfter(t.urls, e, now)
    requires t'.artifacts == RowsAfter(t.artifacts, id, ArtifactOf(e))
    requires t'.pages == RowsAfter(t.pages, id, BodyOf(e))
    ensures t' == TablesAfter(t, e, now) && Shows(t', Upsert(m, e))
  {
    UpsertShows(t, m, e, now);
  }

  // ---------------------------------------------------------------- whole histories

  /** An event and the time its transaction ran. */
  datatype Cleaning = Cleaning(event: PageParsed, at: int)

  function CleanAll(t: Tables, history: seq<Cleaning>): Tables {
    if history == [] then t
    else
      var last := history[|history| - 1];
      TablesAfter(CleanAll(t, history[..|history| - 1]), last.event, last.at)
  }

  function UpsertAll(history: seq<Cleaning>): map<Url, Entry> {
    if history == [] then map[] else Upsert(UpsertAll(history[..|history| - 1]), history[|history| - 1].event)
  }

  const NO_TABLES := Tables([], [], [])

  /** After any sequence of transactions the tables stand for the map of first identities and last contents. */
  lemma {:induction false} TablesRefineMap(history: seq<Cleaning>)
    ensures Shows(CleanAll(NO_TABLES, history), UpsertAll(history))
  {
    if history != [] {
      var init, last := history[..|history| - 1], history[|history| - 1];
      TablesRefineMap(init);
      UpsertShows(CleanAll(NO_TABLES, init), UpsertAll(init), last.event, last.at);
    }
  }

  /** An entry brought for a URL. */
  datatype Brought = Brought(url: Url, entry: Entry)

  /** A new URL gets the whole entry, a known one keeps its identity. */
  function PutEntry(m: map<Url, Entry>, put: Brought): map<Url, Entry> {
    m[put.url := if put.url in m then put.entry.(identity := m[put.url].identity) else put.entry]
  }

  function PutAll(puts: seq<Brought>): map<Url, Entry> {
    if puts == [] then map[] else PutEntry(PutAll(puts[..|puts| - 1]), puts[|puts| - 1])
  }

  /** What an event brings. */
  function PutOf(e: PageParsed): Brought {
    Brought(e.normalized, Entry(IdentityOf(e), e.checksum, ArtifactOf(e), BodyOf(e)))
  }

  function PutsOf(history: seq<Cleaning>): (puts: seq<Brought>)
    ensures |puts| == |history| && forall i :: 0 <= i < |history| ==> puts[i] == PutOf(history[i].event)
  {
    seq(|history|, i requires 0 <= i < |history| => PutOf(history[i].event))
  }

  lemma UpsertIsPut(m: map<Url, Entry>, e: PageParsed)
    ensures Upsert(m, e) == PutEntry(m, PutOf(e))
  {
  }

  lemma {:induction false} UpsertAllIsPutAll(history: seq<Cleaning>)
    ensures UpsertAll(history) == PutAll(PutsOf(history))
  {
    if history != [] {
      var init, e := history[..|history| - 1], history[|history| - 1].event;
      UpsertAllIsPutAll(init);
      UpsertIsPut(UpsertAll(init), e);
      assert PutsOf(history)[..|init|] == PutsOf(init);
    }
  }

  /** Positions of the first and of the last entry for n. */
  ghost predicate FirstFor(puts: seq<Brought>, n: Url, i: nat) {
    i < |puts| && puts[i].url == n && forall k :: 0 <= k < i ==> puts[k].url != n
  }

  ghost predicate LastFor(puts: seq<Brought>, n: Url, i: nat) {
    i < |puts| && puts[i].url == n && forall k :: i < k < |puts| ==> puts[k].url != n
  }

  lemma {:induction false} FirstAndLastPut(puts: seq<Brought>, n: Url, first: nat, last: nat)
    requires FirstFor(puts, n, first) && LastFor(puts, n, last)
    ensures n in PutAll(puts) && PutAll(puts)[n] == puts[last].entry.(identity := puts[first].entry.identity)
  {
    var init := puts[..|puts| - 1];
    if puts[|puts| - 1].url != n {
      FirstAndLastPut(init, n, first, last);
    } else if first == |puts| - 1 {
      Unseen(init, n);
    } else {
      FirstAndLastPut(init, n, first, LastBefore(init, n, first));
    }
  }

  lemma {:induction false} Unseen(puts: seq<Brought>, n: Url)
    requires forall k :: 0 <= k < |puts| ==> puts[k].url != n
    ensures n !in PutAll(puts)
  {
    if puts != [] {
      Unseen(puts[..|puts| - 1], n);
    }
  }

  ghost function LastBefore(puts: seq<Brought>, n: Url, first: nat): (last: nat)
    requires FirstFor(puts, n, first)
    ensures LastFor(puts, n, last)
  {
    if puts[|puts| - 1].url == n then |puts| - 1 else LastBefore(puts[..|puts| - 1], n, first)
  }

  /** The map has the cleaned URLs; each has the identity of its first event and the content of its last, and the
      URL's content hash is the artifact's checksum. */
  lemma {:induction false} FirstAndLast(history: seq<Cleaning>, n: Url, first: nat, last: nat)
    requires FirstFor(PutsOf(history), n, first) && LastFor(PutsOf(history), n, last)
    ensures n in UpsertAll(history)
    ensures var entry, e := UpsertAll(history)[n], history[first].event;
            && entry.identity.job == e.jobId && entry.identity.canonical == e.url && entry.identity.depth == e.depth
            && entry.identity.domain == DomainOf(n)
    ensures var entry, e := UpsertAll(history)[n], history[last].event;
            && IsPageOf(entry.body, e) && IsArtifactOf(entry.artifact, e)
            && entry.hash == entry.artifact.checksum == e.checksum
  {
    UpsertAllIsPutAll(history);
    FirstAndLastPut(PutsOf(history), n, first, last);
    assert PutsOf(history)[first] == PutOf(history[first].event);
    assert PutsOf(history)[last] == PutOf(history[last].event);
  }

  lemma TimeAfter(urls: seq<UrlRow>, e: PageParsed, now: int, n: Url)
    requires forall i, j :: 0 <= i < j < |urls| ==> urls[i].normalized != urls[j].normalized
    ensures IsTimeOf(UrlsAfter(urls, e, now), e.normalized, now)
    ensures forall at :: n != e.normalized && IsTimeOf(urls, n, at) ==> IsTimeOf(UrlsAfter(urls, e, now), n, at)
  {
    var urls', id := UrlsAfter(urls, e, now), UrlId(urls, e.normalized);
    StoresUrl(urls, e, now);
    assert forall i :: 0 <= i < |urls'| && i != id ==> urls'[i].normalized != e.normalized;
  }

  /** The rows of n, if there are any, were last crawled at that time. */
  predicate IsTimeOf(urls: seq<UrlRow>, n: Url, at: int) {
    forall i :: 0 <= i < |urls| && urls[i].normalized == n ==> urls[i].lastCrawled == at
  }

  lemma UrlsOfHistory(history: seq<Cleaning>, init: seq<Cleaning>, c: Cleaning)
    requires history == init + [c]
    ensures var urls := CleanAll(NO_TABLES, init).urls;
            && CleanAll(NO_TABLES, history).urls == UrlsAfter(urls, c.event, c.at)
            && forall i, j :: 0 <= i < j < |urls| ==> urls[i].normalized != urls[j].normalized
  {
    assert history[..|history| - 1] == init;
    TablesRefineMap(init);
  }

  /** The row of a URL has the time of the last transaction for it. */
  lemma {:induction false} LastCrawled(history: seq<Cleaning>, n: Url, last: nat)
    requires last < |history| && history[last].event.normalized == n
    requires forall k :: last < k < |history| ==> history[k].event.normalized != n
    ensures IsTimeOf(CleanAll(NO_TABLES, history).urls, n, history[last].at)
  {
    var init, c := history[..|history| - 1], history[|history| - 1];
    UrlsOfHistory(history, init, c);
    TimeAfter(CleanAll(NO_TABLES, init).urls, c.event, c.at, n);
    if last < |init| {
      LastCrawled(init, n, last);
    }
  }

  /** After any sequence of transactions: n has one URL row, one artifact and one page. The URL row has job, canonical
      form, domain and depth of the first event for n, and hash and time of the last; the artifact and the page are the
      last event's. */
  lemma {:induction false} RowsOfUrl(history: seq<Cleaning>, n: Url, first: nat, last: nat)
    returns (id: nat, a: nat, p: nat)
    requires FirstFor(PutsOf(history), n, first) && LastFor(PutsOf(history), n, last)
    ensures var t := CleanAll(NO_TABLES, history);
            && id < |t.urls| && (forall i :: 0 <= i < |t.urls| ==> (t.urls[i].normalized == n <==> i == id))
            && a < |t.artifacts| && (forall i :: 0 <= i < |t.artifacts| ==> (t.artifacts[i].urlId == id <==> i == a))
            && p < |t.pages| && (forall i :: 0 <= i < |t.pages| ==> (t.pages[i].urlId == id <==> i == p))
    ensures var row, e := CleanAll(NO_TABLES, history).urls[id], history[first].event;
            && row.identity.job == e.jobId && row.identity.canonical == e.url && row.identity.depth == e.depth
            && row.identity.domain == DomainOf(n)
    ensures var t, c := CleanAll(NO_TABLES, history), history[last];
            && t.urls[id].hash == c.event.checksum && t.urls[id].lastCrawled == c.at
            && IsArtifactOf(t.artifacts[a].value, c.event) && IsPageOf(t.pages[p].value, c.event)
  {
    var t, m := CleanAll(NO_TABLES, history), UpsertAll(history);
    TablesRefineMap(history);
    FirstAndLast(history, n, first, last);
    assert forall k :: last < k < |history| ==> PutsOf(history)[k].url == history[k].event.normalized;
    LastCrawled(history, n, last);
    id := FindUrl(t.urls, n).value;
    a, p := RowsShown(t, m, id);
  }

  lemma RowsShown(t: Tables, m: map<Url, Entry>, id: nat) returns (a: nat, p: nat)
    requires Shows(t, m) && id < |t.urls|
    ensures a < |t.artifacts| && (forall i :: 0 <= i < |t.artifacts| ==> (t.artifacts[i].urlId == id <==> i == a))
    ensures p < |t.pages| && (forall i :: 0 <= i < |t.pages| ==> (t.pages[i].urlId == id <==> i == p))
    ensures t.urls[id].normalized in m
    ensures t.artifacts[a].value == m[t.urls[id].normalized].artifact
    ensures t.pages[p].value == m[t.urls[id].normalized].body
  {
    a, p := Find(t.artifacts, id).value, Find(t.pages, id).value;
  }

  // ---------------------------------------------------------------- idempotence and commutation

  predicate SameButTimes(t: Tables, t': Tables) {
    && t.artifacts == t'.artifacts && t.pages == t'.pages && |t.urls| == |t'.urls|
    && forall i :: 0 <= i < |t.urls| ==> t.urls[i].(lastCrawled := 0) == t'.urls[i].(lastCrawled := 0)
  }

  lemma RowsAfterTwice<T>(rows: seq<Row<T>>, id: nat, value: T)
    requires forall i, j :: 0 <= i < j < |rows| ==> rows[i].urlId != rows[j].urlId
    ensures RowsAfter(RowsAfter(rows, id, value), id, value) == RowsAfter(rows, id, value)
  {
    var once := RowsAfter(rows, id, value);
    var i := Find(once, id);
    var at := if Find(rows, id).Some? then Find(rows, id).value else |rows|;
    assert once[at] == Row(id, value);
    assert i.Some? && i.value == at;
  }

  lemma UrlsAfterTwice(urls: seq<UrlRow>, e: PageParsed, now: int, later: int)
    requires forall i, j :: 0 <= i < j < |urls| ==> urls[i].normalized != urls[j].normalized
    ensures var id := UrlId(urls, e.normalized); var once := UrlsAfter(urls, e, now);
            && UrlId(once, e.normalized) == id < |once|
            && UrlsAfter(once, e, later) == once[id := once[id].(lastCrawled := later)]
  {
    var id, once := UrlId(urls, e.normalized), UrlsAfter(urls, e, now);
    assert once[id].normalized == e.normalized && once[id].hash == e.checksum;
    assert forall i :: 0 <= i < |once| && i != id ==> once[i].normalized != e.normalized;
    assert UrlId(once, e.normalized) == id;
  }

  /** Applying an event again changes nothing but the time of the crawl. */
  lemma {:induction false} CleanAgain(t: Tables, m: map<Url, Entry>, e: PageParsed, now: int, later: int)
    requires Shows(t, m)
    ensures SameButTimes(TablesAfter(TablesAfter(t, e, now), e, later), TablesAfter(t, e, now))
  {
    var id := UrlId(t.urls, e.normalized);
    UrlsAfterTwice(t.urls, e, now, later);
    RowsAfterTwice(t.artifacts, id, ArtifactOf(e));
    RowsAfterTwice(t.pages, id, BodyOf(e));
  }

  lemma PutBoth(m: map<Url, Entry>, n: Url, x: Entry, k: Url, y: Entry)
    requires n != k
    ensures m[n := x][k := y] == m[k := y][n := x]
  {
  }

  lemma {:induction false} UpsertCommutes(m: map<Url, Entry>, a: PageParsed, b: PageParsed)
    requires a.normalized != b.normalized
    ensures Upsert(Upsert(m, a), b) == Upsert(Upsert(m, b), a)
  {
    PutBoth(m, a.normalized, EntryAfter(m, a), b.normalized, EntryAfter(m, b));
  }

  lemma {:induction false} TwoEvents(t: Tables, m: map<Url, Entry>, a: PageParsed, b: PageParsed, now: int, later: int)
    requires Shows(t, m)
    ensures Shows(TablesAfter(TablesAfter(t, a, now), b, later), Upsert(Upsert(m, a), b))
  {
    UpsertShows(t, m, a, now);
    UpsertShows(TablesAfter(t, a, now), Upsert(m, a), b, later);
  }

  /** Events about different URLs commute: in both orders the tables stand for the same map. */
  lemma {:induction false} CleanCommutes(
      t: Tables, m: map<Url, Entry>, a: PageParsed, b: PageParsed, now: int, later: int)
    requires Shows(t, m) && a.normalized != b.normalized
    ensures Shows(TablesAfter(TablesAfter(t, a, now), b, later), Upsert(Upsert(m, a), b))
    ensures Shows(TablesAfter(TablesAfter(t, b, now), a, later), Upsert(Upsert(m, a), b))
  {
    TwoEvents(t, m, a, b, now, later);
    TwoEvents(t, m, b, a, now, later);
    UpsertCommutes(m, a, b);
  }
}
