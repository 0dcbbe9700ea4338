/**
 * The avatar cache of the GitHub bot, as values and pure functions.
 *
 * An avatar URL is mapped to the media reference (an mxc URI) under which its
 * image was uploaded. The cache keeps three maps keyed by URL (reference,
 * ETag, time of the last fetch or revalidation) and decides, per request,
 * between a fresh hit, a conditional revalidation, an error and a refetch
 * followed by an upload. The outside world enters as parameters: the clock
 * reading `now`, the HTTP response, and the reference the upload service
 * hands back (or its failure). Every row written to the database is returned
 * as part of a step, so that callers can keep a log of persisted rows.
 */
module AvatarSpec {

  datatype Option<+T> = None | Some(value: T)

  /** Seconds an entry counts as fresh after its last fetch or revalidation. */
  const TTL: int := 300

  /** The only request header the cache ever sends. */
  const IfNoneMatch: string := "If-None-Match"

  type Bytes = seq<bv8>
  type Headers = map<string, string>

  /** What the HTTP client hands back: status code, body and the ETag header, if any. */
  datatype Response = Response(status: int, body: Bytes, etag: Option<string>)

  /**
   * One row of the avatar table: as loaded at start-up (where `fetchedAt`
   * may be missing) and as upserted by the cache (where it is always set).
   */
  datatype AvatarRow = AvatarRow(url: string, mxc: string, etag: Option<string>, fetchedAt: Option<int>)

  /** The three dictionaries of the cache. */
  datatype Cache = Cache(avatars: map<string, string>, etags: map<string, Option<string>>, fetchedAt: map<string, int>)

  /** Why a lookup failed: an HTTP error status, or the upload service raised. */
  datatype Error = HttpStatus(status: int) | UploadError

  datatype Result<+T> = Ok(value: T) | Err(error: Error)

  /** The outcome of one phase together with the state after it and the rows it persisted. */
  datatype Phase<+T> = Phase(outcome: T, next: Cache, written: seq<AvatarRow>)

  /** The three maps describe the same set of URLs. */
  ghost predicate Coherent(c: Cache) {
    c.avatars.Keys == c.etags.Keys && c.etags.Keys == c.fetchedAt.Keys
  }

  const Empty: Cache := Cache(map[], map[], map[])

  // ---------------------------------------------------------------------------
  // Loading the table (load_db)
  // ---------------------------------------------------------------------------

  function MxcOf(r: AvatarRow): string { r.mxc }

  function EtagOf(r: AvatarRow): Option<string> { r.etag }

  /** A missing time stamp loads as 0, that is, as long expired. */
  function FetchedAtOf(r: AvatarRow): int {
    match r.fetchedAt
    case Some(t) => t
    case None => 0
  }

  function Urls(rows: seq<AvatarRow>): set<string> {
    set r | r in rows :: r.url
  }

  /** No later row has the same URL as row `i`. */
  ghost predicate LastFor(rows: seq<AvatarRow>, i: int)
    requires 0 <= i < |rows|
  {
    forall j :: i < j < |rows| ==> rows[j].url != rows[i].url
  }

  /**
   * A dictionary built from the rows in order, keyed by URL; when a URL
   * occurs twice the later row overwrites the earlier one.
   */
  function Index<V>(rows: seq<AvatarRow>, value: AvatarRow -> V): (m: map<string, V>)
    ensures m.Keys == Urls(rows)
    ensures forall i :: 0 <= i < |rows| && LastFor(rows, i) ==> m[rows[i].url] == value(rows[i])
  {
    if rows == [] then map[]
    else
      var init, last := rows[..|rows| - 1], rows[|rows| - 1];
      assert rows == init + [last];
      Index(init, value)[last.url := value(last)]
  }

  /** The cache rebuilt from stored rows. */
  function Load(rows: seq<AvatarRow>): (c: Cache)
    ensures Coherent(c)
    ensures c.avatars.Keys == Urls(rows)
  {
    Cache(Index(rows, MxcOf), Index(rows, EtagOf), Index(rows, FetchedAtOf))
  }

  /** What loading one more row does to a loaded cache. */
  function Put(c: Cache, r: AvatarRow): Cache {
    Cache(c.avatars[r.url := r.mxc], c.etags[r.url := r.etag], c.fetchedAt[r.url := FetchedAtOf(r)])
  }

  /** Rows written into a cache one after the other, each overwriting its URL's entry. */
  function Replay(c: Cache, rows: seq<AvatarRow>): Cache
    decreases |rows|
  {
    if rows == [] then c else Replay(Put(c, rows[0]), rows[1..])
  }

  // ---------------------------------------------------------------------------
  // Looking up a URL (get_mxc)
  // ---------------------------------------------------------------------------

  /** The fetch time of `url`, 0 when none is recorded. */
  function FetchedAtOrZero(c: Cache, url: string): int {
    if url in c.fetchedAt then c.fetchedAt[url] else 0
  }

  /** The cached ETag of `url`, None when none is recorded. */
  function CachedEtag(c: Cache, url: string): Option<string> {
    if url in c.etags then c.etags[url] else None
  }

  /** The TTL test, used both before the fetch and again before the upload. */
  predicate IsFresh(c: Cache, url: string, now: int)
    ensures IsFresh(c, url, now) ==> url in c.avatars
  {
    url in c.avatars && now - FetchedAtOrZero(c, url) < TTL
  }

  /** The request headers: a conditional request exactly when a non-empty ETag is cached. */
  function RequestHeaders(c: Cache, url: string): (h: Headers)
    ensures IfNoneMatch in h <==> url in c.etags && c.etags[url].Some? && c.etags[url].value != ""
    ensures IfNoneMatch in h ==> h[IfNoneMatch] == c.etags[url].value
    ensures h.Keys <= {IfNoneMatch}
  {
    var etag := CachedEtag(c, url);
    if etag.Some? && etag.value != "" then map[IfNoneMatch := etag.value] else map[]
  }

  /** How the part of a lookup before the upload lock ends. */
  datatype Fetch =
    | Fresh(mxc: string)                           // served from the cache, nothing sent
    | NotModified(mxc: string)                     // a 304 confirmed the cached entry
    | Failed(status: int)                          // the response carried an error status
    | Fetched(data: Bytes, newEtag: Option<string>) // a body to upload

  /** The fetch phase: TTL test, conditional GET, 304 and error handling. */
  function FetchStep(c: Cache, url: string, now: int, resp: Response): (r: Phase<Fetch>)
    ensures r.outcome.Fresh? <==> IsFresh(c, url, now)
    ensures r.outcome.NotModified? ==> url in c.avatars && r.next == c.(fetchedAt := c.fetchedAt[url := now])
    ensures !r.outcome.NotModified? ==> r.next == c && r.written == []
    ensures r.outcome.Failed? ==> r.outcome.status == resp.status >= 400
    ensures r.outcome.Fresh? ==> r.outcome.mxc == c.avatars[url]
    ensures r.outcome.NotModified? <==> !IsFresh(c, url, now) && resp.status == 304 && url in c.avatars
    ensures r.outcome.NotModified? ==>
      (r.outcome.mxc == c.avatars[url] && r.written == [AvatarRow(url, c.avatars[url], CachedEtag(c, url), Some(now))])
    ensures r.outcome.Failed? <==>
      !IsFresh(c, url, now) && !(resp.status == 304 && url in c.avatars) && resp.status >= 400
    ensures r.outcome.Fetched? ==> (r.outcome.data == resp.body && r.outcome.newEtag == resp.etag)
  {
    if IsFresh(c, url, now) then
      Phase(Fresh(c.avatars[url]), c, [])
    else if resp.status == 304 && url in c.avatars then
      Phase(NotModified(c.avatars[url]), c.(fetchedAt := c.fetchedAt[url := now]),
            [AvatarRow(url, c.avatars[url], CachedEtag(c, url), Some(now))])
    else if resp.status >= 400 then
      Phase(Failed(resp.status), c, [])
    else
      Phase(Fetched(resp.body, resp.etag), c, [])
  }

  /** How the part of a lookup under the upload lock ends. */
  datatype Commit =
    | RaceLost(mxc: string)   // someone refreshed the entry meanwhile
    | UploadFailed            // the upload service raised
    | Committed(mxc: string)  // the new reference is stored

  /**
   * The commit phase: the TTL test again, then the upload (whose answer is
   * `upload`) and the write of all three maps and of the row.
   */
  function CommitStep(c: Cache, url: string, now: int, newEtag: Option<string>, upload: Option<string>): (r: Phase<Commit>)
    ensures r.outcome.RaceLost? <==> IsFresh(c, url, now)
    ensures r.outcome.UploadFailed? <==> !IsFresh(c, url, now) && upload.None?
    ensures !r.outcome.Committed? ==> r.next == c && r.written == []
    ensures r.outcome.Committed? ==> r.outcome.mxc == upload.value && IsFresh(r.next, url, now)
    ensures r.outcome.RaceLost? ==> r.outcome.mxc == c.avatars[url]
    ensures r.outcome.Committed? ==>
      (r.next == Cache(c.avatars[url := upload.value], c.etags[url := newEtag], c.fetchedAt[url := now])
       && r.written == [AvatarRow(url, upload.value, newEtag, Some(now))])
  {
    if IsFresh(c, url, now) then
      Phase(RaceLost(c.avatars[url]), c, [])
    else if upload.None? then
      Phase(UploadFailed, c, [])
    else
      var mxc := upload.value;
      Phase(Committed(mxc), Cache(c.avatars[url := mxc], c.etags[url := newEtag], c.fetchedAt[url := now]),
            [AvatarRow(url, mxc, newEtag, Some(now))])
  }

  /** What the caller of a lookup sees of a commit phase. */
  function CommitResult(k: Commit): Result<string> {
    match k
    case RaceLost(m) => Ok(m)
    case UploadFailed => Err(UploadError)
    case Committed(m) => Ok(m)
  }

  /**
   * One whole lookup: its result, the state after it, the rows persisted,
   * the headers of the GET it sent (None: no GET) and the bytes it uploaded
   * (None: no upload).
   */
  datatype Call = Call(result: Result<string>, next: Cache, written: seq<AvatarRow>,
                       request: Option<Headers>, upload: Option<Bytes>)

  /** A lookup run without interference: the fetch phase, then the commit phase. */
  function Resolve(c: Cache, url: string, now: int, resp: Response, upload: Option<string>): (r: Call)
    ensures r.request.None? <==> IsFresh(c, url, now)
    ensures r.upload.Some? ==> r.upload.value == resp.body && !IsFresh(c, url, now)
    ensures r.result.Err? ==> r.next == c && r.written == []
    ensures |r.written| <= 1
  {
    var f := FetchStep(c, url, now, resp);
    match f.outcome
    case Fresh(m) => Call(Ok(m), f.next, f.written, None, None)
    case NotModified(m) => Call(Ok(m), f.next, f.written, Some(RequestHeaders(c, url)), None)
    case Failed(s) => Call(Err(HttpStatus(s)), f.next, f.written, Some(RequestHeaders(c, url)), None)
    case Fetched(data, newEtag) =>
      var k := CommitStep(f.next, url, now, newEtag, upload);
      Call(CommitResult(k.outcome), k.next, f.written + k.written, Some(RequestHeaders(c, url)),
           if k.outcome.RaceLost? then None else Some(data))
  }

  /** One lookup of a sequential run, with the world's answers to it. */
  datatype Request = Request(url: string, now: int, resp: Response, upload: Option<string>)

  /** Lookups one after the other: their results, the final state and all rows persisted. */
  function Run(c: Cache, calls: seq<Request>): Phase<seq<Result<string>>>
    decreases |calls|
  {
    if calls == [] then Phase([], c, [])
    else
      var q := calls[0];
      var s := Resolve(c, q.url, q.now, q.resp, q.upload);
      var rest := Run(s.next, calls[1..]);
      Phase([s.result] + rest.outcome, rest.next, s.written + rest.written)
  }

  /** A lookup that finished its fetch phase and now waits for the upload lock. */
  datatype Pending = Pending(now: int, newEtag: Option<string>, upload: Option<string>)

  /** Callers of the same URL entering the upload lock one after the other. */
  function CommitAll(c: Cache, url: string, pending: seq<Pending>): (r: Phase<seq<Commit>>)
    ensures |r.outcome| == |pending|
    ensures |r.written| <= |pending|
    ensures forall w :: w in r.written ==> w.url == url
    decreases |pending|
  {
    if pending == [] then Phase([], c, [])
    else
      var p := pending[0];
      var k := CommitStep(c, url, p.now, p.newEtag, p.upload);
      var rest := CommitAll(k.next, url, pending[1..]);
      Phase([k.outcome] + rest.outcome, rest.next, k.written + rest.written)
  }
}
