# Cache-aside show pipeline: a Dafny model

This project models the core of a small GraphQL API that answers the query `show(id)`
about a TV show. The API reads through a local key-value cache. On a miss it fetches the
show and then every season of the show from a remote catalog. It persists the composed
record as an envelope `{ item, date }` under the show id. On every call, hit or miss, it
normalizes the resolved record into the camelCase `Show` / `Season` / `Episode` schema.

Modules, one per part of `packages/api/src/index.ts`:

- `Records` (records.dfy): the record interfaces. The remote records keep their snake_case JSON keys
  as field names. `RemoteShow<S>` is generic in its season element type, so
  `RemoteShow<SeasonSummary>` is the show endpoint's answer and `ComposedShow =
  RemoteShow<RemoteSeason>` is the cached record.
- `Cache` (cache.dfy): the cache-aside lookup `get`. The store is a class `Store<T>` whose field
  `entries` maps keys to what `JSON.parse` makes of the stored text. `Store.Get` reassigns a
  local `wrapper` and writes through `Store.Put`, as the source does. It is proved equal to
  the specification function `GetSpec`, and `GetSpec` states the hit/miss/error semantics.
- `ShowFetch` (showfetch.dfy): the producer `Compose` handed to the lookup. It makes one show
  fetch, then the all-or-nothing join `JoinSeasons` of one season fetch per summary, and it
  returns the remote calls it made along with its result. The module also holds the query
  `QueryShow` (lookup, then normalization) and its specification `QuerySpec`.
- `Normalize` (normalize.dfy): the pure projection onto the domain records. The inverse
  renamings `EpisodeToRemote` / `SeasonToRemote` show that normalization loses no field.
- `Decimal` (decimal.dfy): the text `${id}` of an integer id, and a strict parser that undoes it.
- `Seqs`, `Wrappers`, `Errors`: `.map` on sequences, `Option`/`Result`, and rejection reasons.

What the environment supplies becomes a parameter:
- the remote endpoints: a `Remote` value holding two functions;
- the clock reading `now`;
- the faults the store raises on a read or a write: `readFault`, `writeFault`.

A method's `fetched` flag says whether the producer was invoked. `requests` lists the remote
calls made.

Where the program's behaviour is surprising, the model follows it:
- A rejection whose reason is falsy (`undefined`, `null`, `false`, `0`, `""`, `NaN`: `Error.Blank`) is swallowed like "not found". This is the
  `error &&` guard on line 110.
- A stored text that parses to a falsy JSON value (`Stored.FalsyJson`) is treated as a miss
  and overwritten. This is the `!wrapper` test on line 115.
- Nothing checks that the key is non-empty.
- The remote records are not validated, so there is no separate malformed-record error. A
  remote answer is either a well-shaped record or a failure.

## Model

| member | source | states |
|---|---|---|
| `Errors.Rethrown` | packages/api/src/index.ts:110 | the guard of the read's catch handler: the store's not-found error and a falsy reason are never rethrown; a store fault is rethrown exactly when it lacks the `notFound` flag; a parse error or a remote failure always is |
| `Cache.Store.constructor` | packages/api/src/index.ts:8 | opening the persistent database yields a store holding the envelopes already on disk |
| `Cache.ReadResult` | packages/api/src/index.ts:106-107 | a store read yields the fault the environment raises, else the stored text for a present key, else an error flagged `notFound` |
| `Cache.Store.Read` | packages/api/src/index.ts:106-107 | the read method returns `ReadResult` of the current contents and changes nothing |
| `Cache.Caught` | packages/api/src/index.ts:109-113 | the catch handler rethrows a reason exactly when it is truthy and not flagged `notFound`, and otherwise yields a miss, never a hit |
| `Cache.LookupOf` | packages/api/src/index.ts:106-113 | the lookup hits exactly when the text parses to an envelope; a parse failure becomes a rethrown `SyntaxError`; a read failure goes through the catch handler |
| `Cache.GetSpec` | packages/api/src/index.ts:102-122 | the producer runs if and only if the lookup misses; a hit returns the stored item and leaves the store alone; a rethrown read error, a failed producer or a failed write fails with that error and writes nothing; a miss whose producer succeeds and whose write is accepted returns the produced item and stores `{ item, date: now }` under `id` and returns the item; any returned item is the one stored under `id`; no other key changes |
| `Cache.Store.Put` | packages/api/src/index.ts:117 | an accepted write sets the key to the envelope; a refused one reports the fault and leaves the contents as they were |
| `Cache.Store.Get` | packages/api/src/index.ts:102-122 | the method's result, its `fetched` flag and the new contents are exactly `GetSpec` of the old contents and the value the producer yields |
| `Cache.SecondGetHits` | packages/api/src/index.ts:115-121 | after a lookup that returned an item, a second lookup of the same key returns the same item without running its producer, whatever that would yield, and leaves the store unchanged |
| `Cache.AbsentOrFalsyIsMiss` | packages/api/src/index.ts:109-116 | an absent key, or a stored text parsing to a falsy value, runs the producer |
| `Cache.ReadFaultClassified` | packages/api/src/index.ts:109-113 | a read fault leads to fetching if and only if it is blank or flagged `notFound`; any other fault, in particular a store I/O fault without the flag, is returned as the failure, with no fetch and no write |
| `Cache.UnparsableIsFatal` | packages/api/src/index.ts:108-113 | a stored text that does not parse fails the lookup with the syntax error, without fetching or writing |
| `Seqs.Map` | packages/api/src/index.ts:149-151 | `.map` yields one result per element, same length and order |
| `ShowFetch.JoinSeasons` | packages/api/src/index.ts:130-138 | the join succeeds if and only if every season fetch succeeds; then it holds, at position `i`, the season fetched for the `i`-th number; on failure the error is that of a failing fetch with all earlier ones successful |
| `ShowFetch.WithSeasons` | packages/api/src/index.ts:140 | the spread record carries the new season list, and every one of the other 22 fields equals the original's |
| `ShowFetch.SeasonCalls` | packages/api/src/index.ts:131-135 | one season call per summary, in summary order, each for that summary's `season_number` |
| `ShowFetch.WithFetchedSeasons` | packages/api/src/index.ts:130-140 | once the show has arrived, the record succeeds if and only if each summary's season fetch succeeds; its seasons have the summaries' length and order, element `i` being the season fetched for `seasons[i].season_number`; every other field equals the show's; a failure is that of some season fetch |
| `ShowFetch.Compose` | packages/api/src/index.ts:125-140 | the producer calls the show endpoint first; a failed show fetch is its failure, with no further call; otherwise it then makes the season calls of `SeasonCalls` and yields the record of `WithFetchedSeasons` |
| `ShowFetch.QuerySpec` | packages/api/src/index.ts:124-173 | the query makes remote calls exactly when the lookup misses; a returned show is the normalization of the record the store then holds under `id`; no other key changes |
| `ShowFetch.QueryShow` | packages/api/src/index.ts:124-173 | the query's result, remote calls and new store contents are exactly `QuerySpec` of the old contents: the lookup keyed by `id` with the composing producer, then normalization of the resolved record |
| `ShowFetch.CachedQuery` | packages/api/src/index.ts:106-121 | a stored envelope is normalized and returned with no remote call and no write |
| `ShowFetch.MissRequests` | packages/api/src/index.ts:115-135 | on any miss (absent key, falsy stored text, blank or `notFound` fault) the query makes one show call and, once the show has arrived, exactly one season call per summary, in summary order |
| `ShowFetch.MissWritesComposed` | packages/api/src/index.ts:115-121 | on any miss whose composition succeeds and whose write is accepted, the query writes exactly one entry, the composed record stamped with the clock reading under `id`, and returns its normalization |
| `ShowFetch.SeasonFailureWritesNothing` | packages/api/src/index.ts:116-138 | if any one season fetch fails the store is left unchanged, and the query fails unless the record was already cached |
| `ShowFetch.SecondQueryCached` | packages/api/src/index.ts:106-173 | after a successful query, the next query of the same id returns a structurally equal show, makes zero remote calls even if the remote has changed, and writes nothing |
| `ShowFetch.ShowSevenOnEmptyStore` | packages/api/src/index.ts:124-173 | concrete case: remote show 7 with one season record of two episodes gives id "7", run time 0, one season numbered 1 holding two episodes, calls for the show and for season 1, and one stored key |
| `Normalize.RunTime` | packages/api/src/index.ts:143 | `?? 0` on the first element: 0 for an empty list, else the first element |
| `Normalize.NormalizeEpisode` | packages/api/src/index.ts:151-161 | the renamed episode converts back to the remote episode it came from |
| `Normalize.NormalizeSeason` | packages/api/src/index.ts:149-167 | the season keeps its number of episodes and converts back to the remote season it came from |
| `Normalize.NormalizeShow` | packages/api/src/index.ts:141-173 | the domain id parses back to the remote id; the seasons keep length and order, each converting back to the remote season; the other fields are stated by `RenamedShowFields` and `RunTimeDefault` |
| `Normalize.RunTimeDefault` | packages/api/src/index.ts:143 | `episodeRunTime` is the first remote run time, or 0 when the list is empty |
| `Normalize.NormalizedId` | packages/api/src/index.ts:144 | the domain id parses back to the remote numeric id; two shows get equal id strings if and only if their numeric ids are equal |
| `Normalize.NormalizedSeasons` | packages/api/src/index.ts:149-167 | seasons and each season's episodes are mapped element by element, keeping length and order; each remote season can be rebuilt from its normalized form |
| `Normalize.RenamedShowFields` | packages/api/src/index.ts:142-172 | every other domain show field equals the remote field of the corresponding snake_case name |
| `Normalize.EpisodeRoundTrip` | packages/api/src/index.ts:151-161 | episode normalization is a bijective renaming: it and `EpisodeToRemote` undo each other |
| `Normalize.SeasonRoundTrip` | packages/api/src/index.ts:149-167 | season normalization, episodes included, is a bijective renaming: it and `SeasonToRemote` undo each other |
| `Decimal.IdString` | packages/api/src/index.ts:144 | the text is non-empty, starts with `-` exactly for a negative id, and is otherwise decimal digits; that it reads back is `ParseIdInverse` |
| `Decimal.DigitsCanonical` | packages/api/src/index.ts:144 | the digits of a natural number are canonical (no leading zero) and read back as that number |
| `Decimal.CanonicalDigits` | packages/api/src/index.ts:144 | every canonical digit string is the digits of the number it denotes |
| `Decimal.IdStringParses` | packages/api/src/index.ts:144 | `ParseId` reads back the id from the text `IdString` writes |
| `Decimal.ParsedIdIsWritten` | packages/api/src/index.ts:144 | a text `ParseId` accepts is exactly the text `IdString` writes for the id it returns |
| `Decimal.ParseIdInverse` | packages/api/src/index.ts:144 | `ParseId(s)` is `Some(n)` if and only if `IdString(n)` is `s` |
| `Decimal.IdStringInjective` | packages/api/src/index.ts:144 | distinct ids have distinct texts |

## Left out

- The GraphQL server, its resolver and the reading of `schema.graphql` (lines 175-190) are process bootstrapping and I/O.
- The HTTP client and URL/API-key formatting (lines 126-135) are not modelled. The two endpoints are function parameters (`Remote`), and a `Request` value records only the path parameters of a call.
- The LevelDB handle (line 8) and its type declarations (`packages/api/index.d.ts`) are not modelled. The store is the `entries` map, and store faults are parameters.
- Cache.Store.Put: assumes that a write the store refuses leaves the store as it was, because an atomic put is not visible from the source.
- `JSON.stringify` / `JSON.parse` are identity on the envelope. A stored text either parses to an envelope, parses to a falsy value, or fails to parse. A text that parses to some other truthy value, which would make the lookup return `undefined`, is not modelled, because it is outside the record types.
- The clock `new Date().getTime()` is the parameter `now`, read after the producer has resolved.
- `console.log(inspect(...))` (line 119) is logging only.
- Concurrency is not modelled: the parallel season fetches, and the interleaving of simultaneous queries with its lost-update hazard. The fan-out is sequential.
- ShowFetch.JoinSeasons: reports the first failing season in list order, and its contract fixes that choice. `Promise.all` promises only the error of some failing fetch, whichever settles first. The contracts of `WithFetchedSeasons` and `Compose` promise only that weaker fact.
- A remote record that lacks a field, such as a show without `episode_run_time` or a season without `episodes`, is not modelled. The source composes and caches such a record unchecked (line 117). Normalization then throws a `TypeError` (lines 143, 151) on that query and on every later one, because the bad record stays cached. The model's records always carry every field.
- Numbers are `int` for ids, counts and minutes and `real` for popularity and ratings. They are passed along; there is no floating-point arithmetic.
- Normalize.NormalizedId: JavaScript writes integers of magnitude 10^21 or more in exponent notation and non-integer numbers with a fraction. The model always writes plain decimal digits of an integer.
