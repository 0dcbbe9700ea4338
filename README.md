# Avatar cache of the GitHub bot, in Dafny

The bot mirrors avatar images into Matrix storage. `AvatarManager` maps the
URL of an avatar to the mxc URI under which the image was uploaded. It keeps
three dictionaries keyed by URL: the mxc URI, the ETag and the time of the
last fetch or revalidation. `load_db` rebuilds them from the avatar table.
`get_mxc` does one of four things:

- serves an entry younger than 300 seconds;
- revalidates with `If-None-Match`, where a 304 only renews the time stamp;
- fails on an error status;
- refetches, uploads and commits the new reference under a lock, after
  checking freshness a second time.

The project has three modules:

- `AvatarSpec` (avatar_spec.dfy) holds the values and pure functions. The
  cache is the `Cache` of three maps. `Load` and `Index` are `load_db`.
  `FetchStep` is the part of `get_mxc` before the lock. `CommitStep` is the
  part under the lock. `Resolve` is the whole call when no other caller runs
  between the two parts. `Run` is a sequence of calls. `CommitAll` is
  callers entering the lock one after another after their fetches overlapped.
  `Replay` writes rows into a cache the way the table's upsert does.
- `Avatars` (avatar_manager.dfy) holds the class `AvatarManager`. It has the
  three dictionaries as `map` fields that its methods update in place, and a
  ghost log `persisted` of every row upserted into the table. Each method is
  proved to match the `AvatarSpec` function for its part of the source.
- `AvatarProofs` (avatar_proofs.dfy) holds the lemmas: one per branch of
  `get_mxc`, frame and invariant properties, sequential runs, the race
  between callers, and write-through persistence.

The outside world enters as parameters:

- `now` is the clock reading (`int(time.time())`).
- `Response(status, body, etag)` is the HTTP response.
- `upload: Option<string>` is what `upload_media` returns. `None` means it
  raised.
- The outcome says whether a GET was sent and with which headers, and
  which bytes were handed to the upload.

## Model

| member | source | states |
|---|---|---|
| `Avatars.AvatarManager.constructor` | github/avatar_manager.py:25-31 | A new manager has three empty dictionaries, which agree on their keys, and has persisted nothing. |
| `Avatars.AvatarManager.LoadDb` | github/avatar_manager.py:33-37 | All three dictionaries are replaced by those built from the stored rows. Their keys are exactly the rows' URLs. Nothing is written to the table. |
| `Avatars.AvatarManager.FetchPhase` | github/avatar_manager.py:39-64 | The code before the lock does what `FetchStep` says: new state, rows persisted, and outcome (fresh, not modified, failed or fetched). It sends no GET exactly on a fresh hit; otherwise it sends `RequestHeaders`. It keeps the three key sets equal. |
| `Avatars.AvatarManager.CommitPhase` | github/avatar_manager.py:66-76 | The code under the lock does what `CommitStep` says. The bytes reach the upload unless the race guard returned first. It keeps the three key sets equal. |
| `Avatars.AvatarManager.GetMxc` | github/avatar_manager.py:39-76 | A whole lookup returns `Resolve`'s result, GET headers and uploaded bytes. It leaves `Resolve`'s state and appends exactly `Resolve`'s rows to the persisted log. Entries of other URLs stay unchanged in all three dictionaries. When the dictionaries agree on their keys, the URL's time stamp stays as it was or rises by at least 300. |
| `AvatarSpec.Index` | github/avatar_manager.py:35-37 | A dictionary built from rows has exactly the rows' URLs as keys. For a URL that occurs more than once, the later row wins. |
| `AvatarSpec.Load` | github/avatar_manager.py:33-37 | A loaded cache has the same key set in all three maps, and that set is the URLs of the rows. |
| `AvatarProofs.LoadLastRowWins` | github/avatar_manager.py:35-37 | After loading, each URL maps to the mxc, ETag and time stamp of its last row. A missing time stamp loads as 0. |
| `AvatarSpec.IsFresh` | github/avatar_manager.py:42 | The TTL test of lines 42 and 68. It holds only for a cached URL, so the dictionary reads at lines 43 and 69 are safe. |
| `AvatarProofs.StaleStaysStale` | github/avatar_manager.py:42 | An entry that fails the TTL test at one clock reading fails it at every later reading, as long as it is not rewritten. |
| `AvatarSpec.FetchStep` | github/avatar_manager.py:40-64 | The code before the lock ends in exactly one of four ways. A fresh hit happens exactly when the TTL test holds, and it returns the cached URI. A not-modified outcome happens exactly when the entry is stale, the status is 304 and the URL is cached. It returns the cached URI, sets only that URL's time stamp to `now`, and persists (url, cached URI, cached ETag, now). A failure happens exactly when the entry is stale, it is not that 304 case and the status is at least 400, and it carries the status. Otherwise the response's body and ETag go on to the upload. Only the 304 case changes state or persists a row. |
| `AvatarSpec.CommitStep` | github/avatar_manager.py:66-76 | The guard fires exactly when the entry is fresh, and it returns the cached URI. The upload fails exactly when the entry is stale and the upload raises. Neither outcome changes state or persists a row. A commit returns the uploaded URI. It stores that URI, the new ETag and `now` for the URL, leaving every other entry alone, and persists exactly that row. The entry is then fresh at `now`. |
| `AvatarSpec.Resolve` | github/avatar_manager.py:39-76 | A whole lookup sends a GET exactly when the entry is not fresh. Any bytes it uploads are the response body of a stale lookup. A failed lookup changes nothing and persists nothing, and no lookup persists more than one row. |
| `AvatarSpec.CommitAll` | github/avatar_manager.py:66-76 | Callers that take the lock one after another each get one outcome. Together they persist at most one row per caller, all of them for the URL in question. |
| `AvatarSpec.RequestHeaders` | github/avatar_manager.py:45-48 | `If-None-Match` is sent exactly when a non-empty ETag is cached for the URL, with that ETag as its value. No other header is ever sent. |
| `AvatarProofs.FreshHitChangesNothing` | github/avatar_manager.py:40-43 | A cached URL with `now - fetched_at < 300` returns the cached URI. It sends no GET, uploads nothing, persists nothing and changes nothing. |
| `AvatarProofs.RequestSentIffStale` | github/avatar_manager.py:42-50 | A GET is sent if and only if the entry is not fresh, and it carries `RequestHeaders`. |
| `AvatarProofs.NotModifiedRevalidates` | github/avatar_manager.py:51-60 | A 304 for a cached URL sets `fetched_at[url] = now` and leaves the URI and the ETag maps unchanged. It persists (url, cached URI, cached ETag, now), returns the cached URI and uploads nothing. |
| `AvatarProofs.ErrorStatusChangesNothing` | github/avatar_manager.py:62 | A stale lookup with status >= 400 fails with that status. It changes no map and persists nothing. |
| `AvatarProofs.RefetchCommits` | github/avatar_manager.py:62-76 | Any other stale response has its body uploaded. The URI, the ETag (possibly none) and `now` are stored for the URL. Exactly that row is persisted and the new URI is returned. |
| `AvatarProofs.UploadFailureLeavesNoTrace` | github/avatar_manager.py:71 | When the upload raises, the lookup fails after handing over the body. The state and the table are left exactly as they were. |
| `AvatarProofs.NotModifiedUncachedIsRefetch` | github/avatar_manager.py:51-64 | A 304 for a URL that is not cached is not a hit. It passes the status check and its body goes to the upload. |
| `AvatarProofs.RaceGuardReturnsCached` | github/avatar_manager.py:66-69 | Under the lock, an entry that has become fresh is returned without an upload, a change or a write. |
| `AvatarProofs.SequentialGuardNeverFires` | github/avatar_manager.py:42-69 | Without an interleaved caller, the guard at line 68 never fires. The fetch phase left the state alone and line 42 already failed with the same `now`, so the body is always uploaded. |
| `AvatarProofs.OnlyUrlChanges` | github/avatar_manager.py:51-76 | A lookup changes no entry of any other URL in any of the three maps. It persists at most one row, and only for its own URL. |
| `AvatarProofs.ResolveKeepsCoherent` | github/avatar_manager.py:51-76 | A lookup keeps the three maps on the same set of URLs. |
| `AvatarProofs.FetchedAtMovesForward` | github/avatar_manager.py:42-74 | In a coherent cache, a lookup leaves `fetched_at[url]` as it was or raises it by at least 300. |
| `AvatarProofs.WrittenRowServedWithinTtl` | github/avatar_manager.py:40-76 | After a lookup that persisted a row (a 304 or a commit), the lookup returns that row's URI. A later lookup within 300 s returns the same URI with no GET and no change. |
| `AvatarProofs.RunKeepsCoherent` | github/avatar_manager.py:39-76 | Any sequence of lookups keeps the three maps on the same set of URLs. |
| `AvatarProofs.RunNeverLowersFetchedAt` | github/avatar_manager.py:39-76 | In any sequence of lookups, no URL's time stamp ever decreases, whatever the clock readings. |
| `AvatarProofs.LoadAppend` | github/avatar_manager.py:35-37 | Loading one more row is the same as upserting that row into the loaded cache. |
| `AvatarProofs.LoadIsReplay` | github/avatar_manager.py:35-37 | Loading a longer table is the same as loading its prefix and upserting the remaining rows in order. |
| `AvatarProofs.ResolveIsPut` | github/avatar_manager.py:51-76 | In a coherent cache, a lookup either changes nothing and persists nothing, or persists one row and leaves the state that upserting that row would give. |
| `AvatarProofs.ReplayConcat` | github/avatar_manager.py:54-75 | Upserting two batches of rows one after the other is the same as upserting their concatenation. |
| `AvatarProofs.RunIsReplay` | github/avatar_manager.py:54-75 | The rows a run persists, upserted into the starting cache, give exactly the run's final cache. |
| `AvatarProofs.RunMirrorsStore` | github/avatar_manager.py:33-76 | Write-through: when the cache was loaded from the table, reloading the table plus the rows a run persisted gives back the run's final cache. |
| `AvatarProofs.RestartServesStoredRow` | github/avatar_manager.py:33-43 | After `load_db`, a URL whose last row is younger than 300 s returns that row's URI with no GET and no change. |
| `AvatarProofs.LaterCallersSeeWinner` | github/avatar_manager.py:66-69 | Waiting callers that all find the entry fresh each return the cached URI. None of them uploads, changes or persists anything. |
| `AvatarProofs.AtMostOneCommit` | github/avatar_manager.py:66-76 | Callers reach the lock one after another with clock readings within one TTL of each other. After any caller commits, every later caller returns the committed URI without uploading. |
| `AvatarProofs.SingleUploadUnderRace` | github/avatar_manager.py:66-76 | Several callers fetched a stale entry concurrently, with clock readings within one TTL. Suppose the first to take the lock finds the entry stale and its upload succeeds. Then it alone commits, every other caller returns that same URI without uploading, and exactly one row is persisted. When that first upload raises, the entry stays stale and the next caller uploads again; `AtMostOneCommit` covers that case. |

## Left out

- The `asyncio.Lock` and true concurrency. A lookup is split into `FetchPhase` and `CommitPhase`. Concurrent callers whose fetches end in a body to upload are modelled as fetch phases against the same state, followed by commit phases taken one at a time (`CommitAll`). Linearisability under arbitrary interleavings is not proved.
- FetchStep: treats lines 42-64 as one atomic step, although the GET at line 50 and `put_avatar` at line 54 can suspend between the TTL test and the 304 branch. The 304 write at lines 53-59 happens outside the lock, with no second freshness test, and it is not part of `CommitAll`. So `FetchedAtMovesForward`, `RunNeverLowersFetchedAt` and the time stamp clause of `GetMxc` hold only for lookups that do not interleave. With concurrent 304s the time stamp can go down. For example, start with `fetched_at = 600`, and let callers at `now = 1000` and `now = 1005` both pass line 42 and both receive a 304. If the second caller's response is handled first, the stamp becomes 1005 and then drops to 1000, and 1000 is persisted.
- The HTTP client and the aiohttp response. The response is an input value. Transport errors and a failing `resp.read()` are not modelled; like an error status, they raise before any state change.
- `upload_media` is an input answer: the mxc URI, or `None` when it raises.
- `DBManager` and SQLAlchemy. `get_avatars` is the input row sequence. `put_avatar` appends to the ghost log `persisted`, and `Replay` gives the table's upsert semantics. A failing `put_avatar` is not modelled: every write succeeds. In the source, a failure there would leave the in-memory update in place and raise to the caller.
- The conversion `int(avatar.fetched_at or 0)` on what the database returns is modelled as `Option<int>`, with a missing value reading as 0. The table definition (db.py) is not part of this model, so a textual column is not parsed.
- `time.time()` is the parameter `now`, already truncated to an integer.
- `ContentURI` and the `GitHubBot` reference: mxc URIs are plain strings, and the bot object is not modelled.
