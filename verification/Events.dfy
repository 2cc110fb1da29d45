/** The events of the crawl pipeline, their JSON form and the shape test of the DLQ replayer. */
module Events {
  import opened Wrappers

  type EventId = nat
  type JobId = nat

  /** A URL after normalisation: the key of every per-URL store. */
  datatype Url = Url(text: string)

  datatype Stage = Crawler | Parser | Cleaner

  datatype Error = Raised(text: string) | HttpStatus(code: int) | RobotsDisallowed

  datatype PageContent = PageContent(
    title: Option<string>,
    description: Option<string>,
    language: Option<string>,
    snippet: Option<string>,
    links: seq<string>,
    metadata: map<string, string>)

  datatype UrlDiscovered = UrlDiscovered(
    eventId: EventId, jobId: JobId, url: string, normalized: Url, attempt: int,
    depth: int, maxDepth: int, domains: seq<string>, force: bool)

  datatype HtmlFetched = HtmlFetched(
    eventId: EventId, jobId: JobId, url: string, normalized: Url, attempt: int,
    storageKey: string, checksum: string, depth: int, maxDepth: int, domains: seq<string>)

  datatype PageParsed = PageParsed(
    eventId: EventId, jobId: JobId, url: string, normalized: Url, attempt: int,
    storageKey: string, checksum: string, page: PageContent, depth: int)

  datatype UrlFailed = UrlFailed(
    eventId: EventId, jobId: JobId, url: string, normalized: Url, attempt: int,
    error: Error, stage: Stage, depth: int, maxDepth: int, domains: seq<string>, force: bool,
    storageKey: Option<string>, checksum: Option<string>, pagePayload: Option<PageParsed>)

  /** What a worker dumps into the `payload` of a DLQ envelope. */
  datatype DeadLetter =
    | DeadDiscovered(discovered: UrlDiscovered)
    | DeadFetched(fetched: HtmlFetched)
    | DeadParsed(parsed: PageParsed)
    | DeadFailed(failed: UrlFailed)

  /** Which publisher put a UrlDiscovered on its topic; the model's own annotation. */
  datatype Via = Seeded | Linked | Retried | Replayed

  datatype Message =
    | OnDiscovered(discovered: UrlDiscovered, via: Via)
    | OnFetched(fetched: HtmlFetched)
    | OnParsed(parsed: PageParsed)
    | OnFailed(failed: UrlFailed)
    | OnDlq(letter: DeadLetter)

  // ---------------------------------------------------------------- JSON objects

  /** A JSON object over the keys of the four event schemas. A key is in the object when its field is
      Some; a nullable value is an Option inside it. Every payload is some worker's dump, so a value
      never has another type than its schema gives it. */
  datatype Payload = Payload(
    eventId: Option<EventId>, jobId: Option<JobId>, url: Option<string>, normalized: Option<Url>,
    attempt: Option<int>, depth: Option<int>, maxDepth: Option<int>, domains: Option<seq<string>>,
    force: Option<bool>, storageKey: Option<Option<string>>, checksum: Option<Option<string>>,
    title: Option<Option<string>>, description: Option<Option<string>>, language: Option<Option<string>>,
    snippet: Option<Option<string>>, links: Option<seq<string>>, metadata: Option<map<string, string>>,
    error: Option<Error>, stage: Option<Stage>, pagePayload: Option<Option<Payload>>,
    traceId: Option<string>, schemaVersion: Option<int>, timestamp: Option<int>,
    sizeBytes: Option<int>, httpStatus: Option<int>, durationMs: Option<real>, contentType: Option<string>)

  const EMPTY := Payload(None, None, None, None, None, None, None, None, None, None,
                         None, None, None, None, None, None, None, None, None, None,
                         None, None, None, None, None, None, None)

  /** The fields of every event on which no worker decides anything. */
  datatype Envelope = Envelope(traceId: string, schemaVersion: int, timestamp: int)

  /** Those of an HtmlFetched. */
  datatype Download = Download(sizeBytes: int, httpStatus: int, durationMs: real, contentType: string)

  function Sealed(p: Payload, v: Envelope): Payload {
    p.(traceId := Some(v.traceId), schemaVersion := Some(v.schemaVersion), timestamp := Some(v.timestamp))
  }

  function WithDownload(p: Payload, d: Download): Payload {
    p.(sizeBytes := Some(d.sizeBytes), httpStatus := Some(d.httpStatus), durationMs := Some(d.durationMs),
       contentType := Some(d.contentType))
  }

  function DumpBase(id: EventId, job: JobId, url: string, normalized: Url, attempt: int): Payload {
    EMPTY.(eventId := Some(id), jobId := Some(job), url := Some(url), normalized := Some(normalized),
           attempt := Some(attempt))
  }

  function DumpDiscovered(e: UrlDiscovered): Payload {
    DumpBase(e.eventId, e.jobId, e.url, e.normalized, e.attempt)
    .(depth := Some(e.depth), maxDepth := Some(e.maxDepth), domains := Some(e.domains), force := Some(e.force))
  }

  function DumpFetched(e: HtmlFetched): Payload {
    DumpBase(e.eventId, e.jobId, e.url, e.normalized, e.attempt)
    .(storageKey := Some(Some(e.storageKey)), checksum := Some(Some(e.checksum)),
      depth := Some(e.depth), maxDepth := Some(e.maxDepth), domains := Some(e.domains))
  }

  function DumpParsed(e: PageParsed): Payload {
    DumpBase(e.eventId, e.jobId, e.url, e.normalized, e.attempt)
    .(storageKey := Some(Some(e.storageKey)), checksum := Some(Some(e.checksum)),
      title := Some(e.page.title), description := Some(e.page.description), language := Some(e.page.language),
      snippet := Some(e.page.snippet), links := Some(e.page.links), metadata := Some(e.page.metadata),
      depth := Some(e.depth))
  }

  function DumpFailed(e: UrlFailed): Payload {
    DumpBase(e.eventId, e.jobId, e.url, e.normalized, e.attempt)
    .(error := Some(e.error), stage := Some(e.stage), depth := Some(e.depth), maxDepth := Some(e.maxDepth),
      domains := Some(e.domains), force := Some(e.force),
      storageKey := Some(e.storageKey), checksum := Some(e.checksum),
      pagePayload := Some(if e.pagePayload.Some? then Some(DumpParsed(e.pagePayload.value)) else None))
  }

  function Dump(letter: DeadLetter): Payload {
    match letter
    case DeadDiscovered(e) => DumpDiscovered(e)
    case DeadFetched(e) => DumpFetched(e)
    case DeadParsed(e) => DumpParsed(e)
    case DeadFailed(e) => DumpFailed(e)
  }

  // ---------------------------------------------------------------- model_validate

  function OrElse<T>(o: Option<T>, default: T): T {
    if o.Some? then o.value else default
  }

  predicate HasBase(p: Payload) {
    p.jobId.Some? && p.url.Some? && p.normalized.Some?
  }

  /** UrlDiscovered.model_validate: other keys are ignored, missing ones take their defaults. */
  function ValidateDiscovered(p: Payload, newId: EventId): Option<UrlDiscovered> {
    if !HasBase(p) then None
    else Some(UrlDiscovered(
      OrElse(p.eventId, newId), p.jobId.value, p.url.value, p.normalized.value, OrElse(p.attempt, 1),
      OrElse(p.depth, 0), OrElse(p.maxDepth, 1), OrElse(p.domains, []), OrElse(p.force, false)))
  }

  /** The other fields of the base event; a missing timestamp becomes the time of validation. */
  function EnvelopeOf(p: Payload, now: int): Envelope {
    Envelope(OrElse(p.traceId, ""), OrElse(p.schemaVersion, 1), OrElse(p.timestamp, now))
  }

  /** The size is required. */
  function DownloadOf(p: Payload): Option<Download> {
    if p.sizeBytes.None? then None
    else Some(Download(p.sizeBytes.value, OrElse(p.httpStatus, 200), OrElse(p.durationMs, 0.0),
                       OrElse(p.contentType, "text/html")))
  }

  /** A required, non-null text. */
  predicate HasText(o: Option<Option<string>>) {
    o.Some? && o.value.Some?
  }

  function ValidateFetched(p: Payload, newId: EventId): Option<HtmlFetched> {
    if !HasBase(p) || !HasText(p.storageKey) || !HasText(p.checksum) || p.sizeBytes.None? then None
    else Some(HtmlFetched(
      OrElse(p.eventId, newId), p.jobId.value, p.url.value, p.normalized.value, OrElse(p.attempt, 1),
      p.storageKey.value.value, p.checksum.value.value,
      OrElse(p.depth, 0), OrElse(p.maxDepth, 1), OrElse(p.domains, [])))
  }

  function ValidateParsed(p: Payload, newId: EventId): Option<PageParsed> {
    if !HasBase(p) || !HasText(p.storageKey) || !HasText(p.checksum) then None
    else Some(PageParsed(
      OrElse(p.eventId, newId), p.jobId.value, p.url.value, p.normalized.value, OrElse(p.attempt, 1),
      p.storageKey.value.value, p.checksum.value.value,
      PageContent(OrElse(p.title, None), OrElse(p.description, None), OrElse(p.language, None),
                  OrElse(p.snippet, None), OrElse(p.links, []), OrElse(p.metadata, map[])),
      OrElse(p.depth, 0)))
  }

  /** UrlFailed.model_validate followed by the retry worker's validation of the nested page. */
  function ValidateFailed(p: Payload, newId: EventId): Option<UrlFailed> {
    if !HasBase(p) || p.error.None? then None
    else Some(UrlFailed(
      OrElse(p.eventId, newId), p.jobId.value, p.url.value, p.normalized.value, OrElse(p.attempt, 1),
      p.error.value, OrElse(p.stage, Crawler), OrElse(p.depth, 0), OrElse(p.maxDepth, 1),
      OrElse(p.domains, []), OrElse(p.force, false), OrElse(p.storageKey, None), OrElse(p.checksum, None),
      if p.pagePayload.Some? && p.pagePayload.value.Some?
      then ValidateParsed(p.pagePayload.value.value, newId) else None))
  }

  /** The payload with the three keys every event must have, and no other. */
  function OnlyBase(job: JobId, url: string, normalized: Url): Payload {
    EMPTY.(jobId := Some(job), url := Some(url), normalized := Some(normalized))
  }

  /** What a missing key stands for: a new id, the first attempt, depth 0, depth limit 1, no domains, not forced, the
      crawler's stage, an empty page. */
  lemma MissingKeys(job: JobId, url: string, normalized: Url, key: string, checksum: string, error: Error, size: int,
                    newId: EventId, now: int)
    ensures var p := OnlyBase(job, url, normalized);
            ValidateDiscovered(p, newId) == Some(UrlDiscovered(
              eventId := newId, jobId := job, url := url, normalized := normalized, attempt := 1, depth := 0,
              maxDepth := 1, domains := [], force := false))
    ensures var p := OnlyBase(job, url, normalized)
                     .(storageKey := Some(Some(key)), checksum := Some(Some(checksum)), sizeBytes := Some(size));
            && ValidateFetched(p, newId) == Some(HtmlFetched(
                 eventId := newId, jobId := job, url := url, normalized := normalized, attempt := 1,
                 storageKey := key, checksum := checksum, depth := 0, maxDepth := 1, domains := []))
            && DownloadOf(p) == Some(Download(
                 sizeBytes := size, httpStatus := 200, durationMs := 0.0, contentType := "text/html"))
            && EnvelopeOf(p, now) == Envelope(traceId := "", schemaVersion := 1, timestamp := now)
    ensures var p := OnlyBase(job, url, normalized).(storageKey := Some(Some(key)), checksum := Some(Some(checksum)));
            ValidateParsed(p, newId) == Some(PageParsed(
              eventId := newId, jobId := job, url := url, normalized := normalized, attempt := 1, storageKey := key,
              checksum := checksum, depth := 0,
              page := PageContent(title := None, description := None, language := None, snippet := None, links := [],
                                  metadata := map[])))
    ensures var p := OnlyBase(job, url, normalized).(error := Some(error));
            ValidateFailed(p, newId) == Some(UrlFailed(
              eventId := newId, jobId := job, url := url, normalized := normalized, attempt := 1, error := error,
              stage := Crawler, depth := 0, maxDepth := 1, domains := [], force := false, storageKey := None,
              checksum := None, pagePayload := None))
  {
  }

  /** An event without one of the keys it must have is refused, and no other is. */
  lemma RequiredKeys(p: Payload, newId: EventId)
    ensures ValidateDiscovered(p, newId).Some? <==> p.jobId.Some? && p.url.Some? && p.normalized.Some?
    ensures ValidateParsed(p, newId).Some? <==>
            && p.jobId.Some? && p.url.Some? && p.normalized.Some?
            && p.storageKey.Some? && p.storageKey.value.Some? && p.checksum.Some? && p.checksum.value.Some?
    ensures ValidateFetched(p, newId).Some? <==> ValidateParsed(p, newId).Some? && p.sizeBytes.Some?
    ensures ValidateFailed(p, newId).Some? <==> ValidateDiscovered(p, newId).Some? && p.error.Some?
  {
  }

  // ---------------------------------------------------------------- DLQ shape test

  /** The event the replayer publishes for a payload, chosen by the keys it finds there. */
  function Classify(p: Payload, newId: EventId): Option<Message> {
    if p.storageKey.Some? && p.checksum.Some? && p.links.Some? then
      var e := ValidateParsed(p, newId);
      if e.Some? then Some(OnParsed(e.value)) else None
    else if p.normalized.Some? && p.jobId.Some? then
      var e := ValidateDiscovered(p, newId);
      if e.Some? then Some(OnDiscovered(e.value.(force := true), Replayed)) else None
    else None
  }

  function ReplayOf(letter: DeadLetter, newId: EventId): Option<Message> {
    Classify(Dump(letter), newId)
  }

  // ---------------------------------------------------------------- whole events

  function WholeFetched(h: HtmlFetched, v: Envelope, d: Download): Payload {
    Sealed(WithDownload(DumpFetched(h), d), v)
  }

  /** A cleaner's failure holds the dump of the page, with that page's own envelope. */
  function WholeFailed(f: UrlFailed, v: Envelope, page: Envelope): Payload {
    Sealed(DumpFailed(f), v)
    .(pagePayload := Some(match f.pagePayload
                          case Some(p) => Some(Sealed(DumpParsed(p), page))
                          case None => None))
  }

  /** What a worker dumps, with all fields. */
  function WholeLetter(letter: DeadLetter, v: Envelope, d: Download, page: Envelope): Payload {
    match letter
    case DeadDiscovered(e) => Sealed(DumpDiscovered(e), v)
    case DeadFetched(e) => WholeFetched(e, v, d)
    case DeadParsed(e) => Sealed(DumpParsed(e), v)
    case DeadFailed(e) => WholeFailed(e, v, page)
  }

  /** Every event survives serialisation, all fields of its schema and a nested page's included, for any id and
      time that missing ones would have got. */
  lemma JsonRoundTrip(d: UrlDiscovered, h: HtmlFetched, p: PageParsed, f: UrlFailed, v: Envelope, page: Envelope,
                      dl: Download, newId: EventId, now: int)
    ensures var x := Sealed(DumpDiscovered(d), v);
            ValidateDiscovered(x, newId) == Some(d) && EnvelopeOf(x, now) == v
    ensures var x := WholeFetched(h, v, dl);
            ValidateFetched(x, newId) == Some(h) && EnvelopeOf(x, now) == v && DownloadOf(x) == Some(dl)
    ensures var x := Sealed(DumpParsed(p), v);
            ValidateParsed(x, newId) == Some(p) && EnvelopeOf(x, now) == v
    ensures var x := WholeFailed(f, v, page);
            && ValidateFailed(x, newId) == Some(f) && EnvelopeOf(x, now) == v
            && (f.pagePayload.Some? ==> EnvelopeOf(x.pagePayload.value.value, now) == page)
  {
  }

  /** The fields on which nothing depends do not change what the shape test makes of a payload, and a replay keeps
      the envelope. */
  lemma EnvelopeIsKept(letter: DeadLetter, v: Envelope, d: Download, page: Envelope, newId: EventId, now: int)
    ensures var x := WholeLetter(letter, v, d, page);
            Classify(x, newId) == ReplayOf(letter, newId) && EnvelopeOf(x, now) == v
  {
  }

  /** The UrlDiscovered a replay makes of an event that is not a page. */
  function Rediscovered(id: EventId, job: JobId, url: string, normalized: Url, attempt: int,
                        depth: int, maxDepth: int, domains: seq<string>): Message {
    OnDiscovered(UrlDiscovered(id, job, url, normalized, attempt, depth, maxDepth, domains, true), Replayed)
  }

  /** What the shape test makes of each kind of payload. A parser's HtmlFetched comes back as a
      UrlDiscovered with the same id and lineage; only a page comes back as a page. A dead UrlFailed
      would come back as a UrlDiscovered with whatever depth limit and domains that failure carries. */
  function ExpectedReplay(letter: DeadLetter): Message {
    match letter
    case DeadDiscovered(e) =>
      Rediscovered(e.eventId, e.jobId, e.url, e.normalized, e.attempt, e.depth, e.maxDepth, e.domains)
    case DeadFetched(e) =>
      Rediscovered(e.eventId, e.jobId, e.url, e.normalized, e.attempt, e.depth, e.maxDepth, e.domains)
    case DeadParsed(e) => OnParsed(e)
    case DeadFailed(e) =>
      Rediscovered(e.eventId, e.jobId, e.url, e.normalized, e.attempt, e.depth, e.maxDepth, e.domains)
  }

  lemma ReplayShapes(letter: DeadLetter, newId: EventId)
    ensures ReplayOf(letter, newId) == Some(ExpectedReplay(letter))
  {
  }
}
