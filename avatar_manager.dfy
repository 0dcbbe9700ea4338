/**
 * The avatar cache as the object the bot holds: three dictionaries that
 * lookups update in place and that a start-up load replaces wholesale.
 * Each method is proved to do what the matching function of AvatarSpec
 * describes; the database is represented by a ghost log of upserted rows.
 */
module Avatars {
  import opened AvatarSpec
  import AvatarProofs

  class AvatarManager {
    var avatars: map<string, string>
    var etags: map<string, Option<string>>
    var fetchedAt: map<string, int>
    /** Every row upserted into the avatar table, oldest first. */
    ghost var persisted: seq<AvatarRow>

    function State(): Cache
      reads this
    {
      Cache(avatars, etags, fetchedAt)
    }

    ghost predicate Valid()
      reads this
    {
      Coherent(State())
    }

    constructor ()
      ensures State() == Empty && Valid()
      ensures persisted == []
    {
      avatars := map[];
      etags := map[];
      fetchedAt := map[];
      persisted := [];
    }

    /** Replaces all three dictionaries by the ones built from the stored rows. */
    method LoadDb(rows: seq<AvatarRow>)
      modifies this
      ensures State() == Load(rows) && Valid()
      ensures persisted == old(persisted)
    {
      avatars := Index(rows, MxcOf);
      etags := Index(rows, EtagOf);
      fetchedAt := Index(rows, FetchedAtOf);
    }

    /**
     * The part of a lookup before the upload lock. `resp` is what the server
     * answers to the GET; `sent` holds the headers of that GET, or None when
     * the entry was fresh and nothing was sent.
     */
    method FetchPhase(url: string, now: int, resp: Response) returns (f: Fetch, sent: Option<Headers>)
      modifies this
      ensures var s := FetchStep(old(State()), url, now, resp);
        f == s.outcome && State() == s.next && persisted == old(persisted) + s.written
      ensures sent == if f.Fresh? then None else Some(RequestHeaders(old(State()), url))
      ensures old(Valid()) ==> Valid()
    {
      if url in avatars && now - (if url in fetchedAt then fetchedAt[url] else 0) < TTL {
        return Fresh(avatars[url]), None;
      }

      var headers: Headers := map[];
      var etag := if url in etags then etags[url] else None;
      if etag.Some? && etag.value != "" {
        headers := headers[IfNoneMatch := etag.value];
      }
      sent := Some(headers);

      if resp.status == 304 && url in avatars {
        fetchedAt := fetchedAt[url := now];
        persisted := persisted + [AvatarRow(url, avatars[url], if url in etags then etags[url] else None, Some(now))];
        return NotModified(avatars[url]), sent;
      }

      if resp.status >= 400 {
        return Failed(resp.status), sent;
      }
      f := Fetched(resp.body, resp.etag);
    }

    /**
     * The part of a lookup under the upload lock. `upload` is what the upload
     * service answers for `data` (None: it raised); `uploaded` holds the bytes
     * handed to it, or None when the race guard returned before the upload.
     */
    method CommitPhase(url: string, now: int, data: Bytes, newEtag: Option<string>, upload: Option<string>)
      returns (k: Commit, uploaded: Option<Bytes>)
      modifies this
      ensures var s := CommitStep(old(State()), url, now, newEtag, upload);
        k == s.outcome && State() == s.next && persisted == old(persisted) + s.written
      ensures uploaded == if k.RaceLost? then None else Some(data)
      ensures old(Valid()) ==> Valid()
    {
      if url in avatars && now - (if url in fetchedAt then fetchedAt[url] else 0) < TTL {
        return RaceLost(avatars[url]), None;
      }

      uploaded := Some(data);
      if upload.None? {
        return UploadFailed, uploaded;
      }
      var mxc := upload.value;
      avatars := avatars[url := mxc];
      etags := etags[url := newEtag];
      fetchedAt := fetchedAt[url := now];
      persisted := persisted + [AvatarRow(url, mxc, newEtag, Some(now))];
      k := Committed(mxc);
    }

    /** A whole lookup, run without another caller in between its two phases. */
    method GetMxc(url: string, now: int, resp: Response, upload: Option<string>)
      returns (r: Result<string>, sent: Option<Headers>, uploaded: Option<Bytes>)
      modifies this
      ensures var s := Resolve(old(State()), url, now, resp, upload);
        && r == s.result && sent == s.request && uploaded == s.upload
        && State() == s.next && persisted == old(persisted) + s.written
      ensures old(Valid()) ==> Valid()
      ensures avatars - {url} == old(avatars) - {url}
      ensures etags - {url} == old(etags) - {url}
      ensures fetchedAt - {url} == old(fetchedAt) - {url}
      ensures old(Valid()) && url in old(fetchedAt) ==>
        url in fetchedAt && (fetchedAt[url] == old(fetchedAt[url]) || fetchedAt[url] >= old(fetchedAt[url]) + TTL)
    {
      AvatarProofs.OnlyUrlChanges(State(), url, now, resp, upload);
      if Valid() && url in fetchedAt {
        AvatarProofs.FetchedAtMovesForward(State(), url, now, resp, upload);
      }
      var f;
      f, sent := FetchPhase(url, now, resp);
      match f {
        case Fresh(m) =>
          r, uploaded := Ok(m), None;
        case NotModified(m) =>
          r, uploaded := Ok(m), None;
        case Failed(status) =>
          r, uploaded := Err(HttpStatus(status)), None;
        case Fetched(data, newEtag) =>
          var k;
          k, uploaded := CommitPhase(url, now, data, newEtag, upload);
          r := CommitResult(k);
      }
    }
  }
}
