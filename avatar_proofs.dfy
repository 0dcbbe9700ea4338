/**
 * Properties of the avatar cache: what each branch of a lookup does, what it
 * leaves alone, the invariants lookups keep, the double-checked upload under
 * racing callers, and the agreement between the cache and the rows persisted.
 */
module AvatarProofs {
  import opened AvatarSpec

  // ---------------------------------------------------------------------------
  // The branches of one lookup
  // ---------------------------------------------------------------------------

  /** A fresh entry is served as is: no GET, no upload, no write, no change. */
  lemma FreshHitChangesNothing(c: Cache, url: string, now: int, resp: Response, upload: Option<string>)
    requires url in c.avatars && now - FetchedAtOrZero(c, url) < TTL
    ensures Resolve(c, url, now, resp, upload) == Call(Ok(c.avatars[url]), c, [], None, None)
  {
  }

  /** A GET is sent exactly when the entry is not fresh, and it carries the cached ETag. */
  lemma RequestSentIffStale(c: Cache, url: string, now: int, resp: Response, upload: Option<string>)
    ensures Resolve(c, url, now, resp, upload).request.None? <==> IsFresh(c, url, now)
    ensures Resolve(c, url, now, resp, upload).request.Some? ==>
      Resolve(c, url, now, resp, upload).request.value == RequestHeaders(c, url)
  {
  }

  /** A 304 for a cached URL renews the time stamp only, persists the row and uploads nothing. */
  lemma NotModifiedRevalidates(c: Cache, url: string, now: int, resp: Response, upload: Option<string>)
    requires !IsFresh(c, url, now) && url in c.avatars && resp.status == 304
    ensures var s := Resolve(c, url, now, resp, upload);
      && s.result == Ok(c.avatars[url])
      && s.next == Cache(c.avatars, c.etags, c.fetchedAt[url := now])
      && s.written == [AvatarRow(url, c.avatars[url], CachedEtag(c, url), Some(now))]
      && s.request == Some(RequestHeaders(c, url))
      && s.upload == None
  {
  }

  /** An error status fails the lookup and changes neither the cache nor the table. */
  lemma ErrorStatusChangesNothing(c: Cache, url: string, now: int, resp: Response, upload: Option<string>)
    requires !IsFresh(c, url, now) && resp.status >= 400
    ensures var s := Resolve(c, url, now, resp, upload);
      s.result == Err(HttpStatus(resp.status)) && s.next == c && s.written == [] && s.upload == None
  {
  }

  /** A body that is neither a 304 for a cached URL nor an error is uploaded and committed. */
  lemma RefetchCommits(c: Cache, url: string, now: int, resp: Response, upload: Option<string>)
    requires !IsFresh(c, url, now) && !(resp.status == 304 && url in c.avatars) && resp.status < 400
    requires upload.Some?
    ensures var s := Resolve(c, url, now, resp, upload);
      && s.result == Ok(upload.value)
      && s.next == Cache(c.avatars[url := upload.value], c.etags[url := resp.etag], c.fetchedAt[url := now])
      && s.written == [AvatarRow(url, upload.value, resp.etag, Some(now))]
      && s.upload == Some(resp.body)
  {
  }

  /** A failed upload leaves no trace: the next lookup starts from the same state. */
  lemma UploadFailureLeavesNoTrace(c: Cache, url: string, now: int, resp: Response)
    requires !IsFresh(c, url, now) && !(resp.status == 304 && url in c.avatars) && resp.status < 400
    ensures var s := Resolve(c, url, now, resp, None);
      s.result == Err(UploadError) && s.next == c && s.written == [] && s.upload == Some(resp.body)
  {
  }

  /** A 304 for a URL that is not cached is not a hit: its (empty) body goes to the upload. */
  lemma NotModifiedUncachedIsRefetch(c: Cache, url: string, now: int, resp: Response, upload: Option<string>)
    requires url !in c.avatars && resp.status == 304
    ensures var s := Resolve(c, url, now, resp, upload);
      && s.upload == Some(resp.body)
      && s.result == (if upload.Some? then Ok(upload.value) else Err(UploadError))
  {
  }

  /** Under the lock, an entry refreshed by someone else is returned without upload or change. */
  lemma RaceGuardReturnsCached(c: Cache, url: string, now: int, newEtag: Option<string>, upload: Option<string>)
    requires url in c.avatars && now - FetchedAtOrZero(c, url) < TTL
    ensures CommitStep(c, url, now, newEtag, upload) == Phase(RaceLost(c.avatars[url]), c, [])
  {
  }

  /**
   * Without another caller in between, the guard under the lock never fires:
   * the fetch phase left the state alone and its own TTL test already failed
   * with the same clock reading, so every refetch is uploaded.
   */
  lemma SequentialGuardNeverFires(c: Cache, url: string, now: int, resp: Response, upload: Option<string>)
    requires FetchStep(c, url, now, resp).outcome.Fetched?
    ensures FetchStep(c, url, now, resp).next == c
    ensures !IsFresh(FetchStep(c, url, now, resp).next, url, now)
    ensures Resolve(c, url, now, resp, upload).upload == Some(resp.body)
  {
  }

  /** An entry found stale stays stale for every later clock reading until it is rewritten. */
  lemma StaleStaysStale(c: Cache, url: string, now: int, later: int)
    requires !IsFresh(c, url, now) && now <= later
    ensures !IsFresh(c, url, later)
  {
  }

  /** A lookup touches the entry of its own URL and persists rows for that URL only. */
  lemma OnlyUrlChanges(c: Cache, url: string, now: int, resp: Response, upload: Option<string>)
    ensures var s := Resolve(c, url, now, resp, upload);
      && s.next.avatars - {url} == c.avatars - {url}
      && s.next.etags - {url} == c.etags - {url}
      && s.next.fetchedAt - {url} == c.fetchedAt - {url}
      && |s.written| <= 1
      && forall w :: w in s.written ==> w.url == url
  {
  }

  /** A lookup keeps the three maps on the same set of URLs. */
  lemma ResolveKeepsCoherent(c: Cache, url: string, now: int, resp: Response, upload: Option<string>)
    requires Coherent(c)
    ensures Coherent(Resolve(c, url, now, resp, upload).next)
  {
  }

  /**
   * When a lookup rewrites a time stamp it moves it forward by at least the
   * TTL, since the entry was found stale with that very clock reading.
   */
  lemma FetchedAtMovesForward(c: Cache, url: string, now: int, resp: Response, upload: Option<string>)
    requires Coherent(c) && url in c.fetchedAt
    ensures var n := Resolve(c, url, now, resp, upload).next;
      && url in n.fetchedAt
      && (n.fetchedAt[url] == c.fetchedAt[url] || n.fetchedAt[url] >= c.fetchedAt[url] + TTL)
  {
  }

  /** What a lookup persisted is served, without a GET, by any lookup within the TTL. */
  lemma WrittenRowServedWithinTtl(c: Cache, url: string, now: int, resp: Response, upload: Option<string>,
                                  later: int, resp': Response, upload': Option<string>)
    requires Resolve(c, url, now, resp, upload).written != []
    requires now <= later < now + TTL
    ensures var s := Resolve(c, url, now, resp, upload);
      && s.result == Ok(s.written[0].mxc)
      && Resolve(s.next, url, later, resp', upload') == Call(s.result, s.next, [], None, None)
  {
  }

  // ---------------------------------------------------------------------------
  // Sequential runs of lookups
  // ---------------------------------------------------------------------------

  /** Any run keeps the three maps on the same set of URLs. */
  lemma {:induction false} RunKeepsCoherent(c: Cache, calls: seq<Request>)
    requires Coherent(c)
    ensures Coherent(Run(c, calls).next)
    decreases |calls|
  {
    if calls != [] {
      var q := calls[0];
      ResolveKeepsCoherent(c, q.url, q.now, q.resp, q.upload);
      RunKeepsCoherent(Resolve(c, q.url, q.now, q.resp, q.upload).next, calls[1..]);
    }
  }

  /**
   * Whatever the clock readings of a run, no time stamp ever goes back: each
   * rewrite happens only after the entry was found stale.
   */
  lemma {:induction false} RunNeverLowersFetchedAt(c: Cache, calls: seq<Request>, url: string)
    requires Coherent(c) && url in c.fetchedAt
    ensures url in Run(c, calls).next.fetchedAt
    ensures Run(c, calls).next.fetchedAt[url] >= c.fetchedAt[url]
    decreases |calls|
  {
    if calls != [] {
      var q := calls[0];
      var s := Resolve(c, q.url, q.now, q.resp, q.upload);
      ResolveKeepsCoherent(c, q.url, q.now, q.resp, q.upload);
      if q.url == url {
        FetchedAtMovesForward(c, q.url, q.now, q.resp, q.upload);
      } else {
        OnlyUrlChanges(c, q.url, q.now, q.resp, q.upload);
        assert url in s.next.fetchedAt - {q.url};
      }
      RunNeverLowersFetchedAt(s.next, calls[1..], url);
    }
  }

  // ---------------------------------------------------------------------------
  // The table and the cache
  // ---------------------------------------------------------------------------

  /** Loading one more row is the same as writing that row into the loaded cache. */
  lemma LoadAppend(rows: seq<AvatarRow>, r: AvatarRow)
    ensures Load(rows + [r]) == Put(Load(rows), r)
  {
  }

  /**
   * After loading, each URL of the table maps to the values of its last row,
   * a missing time stamp reading as 0.
   */
  lemma LoadLastRowWins(rows: seq<AvatarRow>, i: int)
    requires 0 <= i < |rows| && LastFor(rows, i)
    ensures var c, u := Load(rows), rows[i].url;
      && u in c.avatars && u in c.etags && u in c.fetchedAt
      && c.avatars[u] == rows[i].mxc
      && c.etags[u] == rows[i].etag
      && c.fetchedAt[u] == (if rows[i].fetchedAt.Some? then rows[i].fetchedAt.value else 0)
  {
  }

  /** A row loaded at start-up that is still within the TTL is served without a GET. */
  lemma RestartServesStoredRow(rows: seq<AvatarRow>, i: int, now: int, resp: Response, upload: Option<string>)
    requires 0 <= i < |rows| && LastFor(rows, i)
    requires now - FetchedAtOf(rows[i]) < TTL
    ensures Resolve(Load(rows), rows[i].url, now, resp, upload) == Call(Ok(rows[i].mxc), Load(rows), [], None, None)
  {
  }

  /**
   * A lookup either changes nothing and persists nothing, or persists one row
   * and leaves the cache exactly as loading that row into it would.
   */
  lemma ResolveIsPut(c: Cache, url: string, now: int, resp: Response, upload: Option<string>)
    requires Coherent(c)
    ensures var s := Resolve(c, url, now, resp, upload);
      || (s.written == [] && s.next == c)
      || (|s.written| == 1 && s.next == Put(c, s.written[0]))
  {
  }

  /** Writing two batches of rows is writing their concatenation. */
  lemma {:induction false} ReplayConcat(c: Cache, a: seq<AvatarRow>, b: seq<AvatarRow>)
    ensures Replay(c, a + b) == Replay(Replay(c, a), b)
    decreases |a|
  {
    if a != [] {
      assert (a + b)[1..] == a[1..] + b;
      ReplayConcat(Put(c, a[0]), a[1..], b);
    } else {
      assert a + b == b;
    }
  }

  /** Loading a longer table is loading its prefix and writing the remaining rows into it. */
  lemma {:induction false} LoadIsReplay(log: seq<AvatarRow>, more: seq<AvatarRow>)
    ensures Load(log + more) == Replay(Load(log), more)
    decreases |more|
  {
    if more == [] {
      assert log + more == log;
    } else {
      var log', more' := log + [more[0]], more[1..];
      assert log' + more' == log + more;
      LoadAppend(log, more[0]);
      LoadIsReplay(log', more');
      assert Replay(Load(log), more) == Replay(Load(log'), more');
    }
  }

  /** The rows a run persists, written into the starting cache, give the final cache. */
  lemma {:induction false} RunIsReplay(c: Cache, calls: seq<Request>)
    requires Coherent(c)
    ensures Replay(c, Run(c, calls).written) == Run(c, calls).next
    decreases |calls|
  {
    if calls != [] {
      var q := calls[0];
      var s := Resolve(c, q.url, q.now, q.resp, q.upload);
      var rest := Run(s.next, calls[1..]);
      ResolveIsPut(c, q.url, q.now, q.resp, q.upload);
      ResolveKeepsCoherent(c, q.url, q.now, q.resp, q.upload);
      RunIsReplay(s.next, calls[1..]);
      ReplayConcat(c, s.written, rest.written);
      if s.written != [] {
        assert s.written == [s.written[0]];
        assert Replay(c, s.written) == Replay(Put(c, s.written[0]), []);
      }
    }
  }

  /**
   * Write-through: if the cache is what the table loads to, then after any
   * run of lookups the table with the rows they persisted loads to the new
   * cache, so a restart resumes from the state the run left behind.
   */
  lemma RunMirrorsStore(log: seq<AvatarRow>, calls: seq<Request>)
    ensures Load(log + Run(Load(log), calls).written) == Run(Load(log), calls).next
  {
    RunIsReplay(Load(log), calls);
    LoadIsReplay(log, Run(Load(log), calls).written);
  }

  // ---------------------------------------------------------------------------
  // Callers racing for the upload lock
  // ---------------------------------------------------------------------------

  /** Once an entry is fresh for every waiting caller, each of them loses the race. */
  lemma {:induction false} LaterCallersSeeWinner(c: Cache, url: string, pending: seq<Pending>)
    requires url in c.avatars
    requires forall j :: 0 <= j < |pending| ==> pending[j].now - FetchedAtOrZero(c, url) < TTL
    ensures var r := CommitAll(c, url, pending);
      && |r.outcome| == |pending|
      && (forall j :: 0 <= j < |pending| ==> r.outcome[j] == RaceLost(c.avatars[url]))
      && r.next == c && r.written == []
    decreases |pending|
  {
    if pending != [] {
      LaterCallersSeeWinner(c, url, pending[1..]);
      var r := CommitAll(c, url, pending);
      var rest := CommitAll(c, url, pending[1..]);
      forall j | 0 <= j < |pending| ensures r.outcome[j] == RaceLost(c.avatars[url]) {
        if j > 0 {
          assert r.outcome[j] == rest.outcome[j - 1];
        }
      }
    }
  }

  /**
   * Callers whose clock readings lie within one TTL of each other commit at
   * most once: every caller after a commit returns the committed reference
   * without uploading.
   */
  lemma {:induction false} AtMostOneCommit(c: Cache, url: string, t: int, pending: seq<Pending>)
    requires forall j :: 0 <= j < |pending| ==> t <= pending[j].now < t + TTL
    ensures var r := CommitAll(c, url, pending);
      && |r.outcome| == |pending|
      && forall i, j :: 0 <= i < j < |pending| && r.outcome[i].Committed? ==>
           r.outcome[j] == RaceLost(r.outcome[i].mxc)
    decreases |pending|
  {
    if pending != [] {
      var p := pending[0];
      var k := CommitStep(c, url, p.now, p.newEtag, p.upload);
      var rest := CommitAll(k.next, url, pending[1..]);
      var r := CommitAll(c, url, pending);
      AtMostOneCommit(k.next, url, t, pending[1..]);
      if k.outcome.Committed? {
        LaterCallersSeeWinner(k.next, url, pending[1..]);
      }
      forall i, j | 0 <= i < j < |pending| && r.outcome[i].Committed?
        ensures r.outcome[j] == RaceLost(r.outcome[i].mxc)
      {
        assert r.outcome[j] == rest.outcome[j - 1];
        if i > 0 {
          assert r.outcome[i] == rest.outcome[i - 1];
        }
      }
    }
  }

  /**
   * Callers that all found the entry stale and whose clock readings lie
   * within one TTL: the first to take the lock uploads, and every other one
   * returns its reference without uploading; one row is persisted.
   */
  lemma SingleUploadUnderRace(c: Cache, url: string, t: int, pending: seq<Pending>)
    requires |pending| > 0
    requires forall j :: 0 <= j < |pending| ==> t <= pending[j].now < t + TTL
    requires !IsFresh(c, url, pending[0].now) && pending[0].upload.Some?
    ensures var r := CommitAll(c, url, pending);
      var m := pending[0].upload.value;
      && |r.outcome| == |pending|
      && r.outcome[0] == Committed(m)
      && (forall j :: 0 < j < |pending| ==> r.outcome[j] == RaceLost(m))
      && r.written == [AvatarRow(url, m, pending[0].newEtag, Some(pending[0].now))]
      && url in r.next.avatars && r.next.avatars[url] == m
  {
    var p := pending[0];
    var k := CommitStep(c, url, p.now, p.newEtag, p.upload);
    LaterCallersSeeWinner(k.next, url, pending[1..]);
    var r := CommitAll(c, url, pending);
    var rest := CommitAll(k.next, url, pending[1..]);
    assert k.next.avatars[url] == p.upload.value;
    assert r.next == rest.next == k.next;
    forall j | 0 < j < |pending| ensures r.outcome[j] == RaceLost(p.upload.value) {
      assert r.outcome[j] == rest.outcome[j - 1];
    }
  }
}
