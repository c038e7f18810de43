/** The `show` query (packages/api/src/index.ts): a cache-aside lookup keyed by the show id
    whose producer fetches the show and then every one of its seasons, followed by the
    normalization of whatever record the lookup resolves. */
module ShowFetch {
  import opened Wrappers
  import opened Errors
  import opened Records
  import opened Seqs
  import opened Cache
  import opened Normalize

  /** The two remote catalog endpoints, `GET /tv/{id}` and `GET /tv/{id}/season/{n}`, with
      every transport or HTTP failure folded into the error. */
  datatype Remote = Remote(
    show: string -> Result<RemoteShow<SeasonSummary>, Error>,
    season: (string, int) -> Result<RemoteSeason, Error>)

  /** One remote call, named by the path parameters of its URL. */
  datatype Request = ShowRequest(id: string) | SeasonRequest(id: string, seasonNumber: int)

  /** The season number of each summary, in list order. */
  function SeasonNumbers(summaries: seq<SeasonSummary>): seq<int>
  {
    Map((s: SeasonSummary) => s.season_number, summaries)
  }

  /** `Promise.all` over the season fetches: every season, in request order, or the failure of
      a request that failed; this model reports the first failing request in list order. */
  function JoinSeasons(remote: Remote, id: string, numbers: seq<int>): (r: Result<seq<RemoteSeason>, Error>)
    ensures r.Success? <==> forall i :: 0 <= i < |numbers| ==> remote.season(id, numbers[i]).Success?
    ensures r.Success? ==> |r.value| == |numbers|
    ensures r.Success? ==> forall i :: 0 <= i < |numbers| ==> r.value[i] == remote.season(id, numbers[i]).value
    ensures r.Failure? ==>
              exists i :: && 0 <= i < |numbers|
                          && remote.season(id, numbers[i]) == Failure(r.error)
                          && forall j :: 0 <= j < i ==> remote.season(id, numbers[j]).Success?
    decreases |numbers|
  {
    if numbers == [] then Success([])
    else
      match remote.season(id, numbers[0])
      case Failure(e) => Failure(e)
      case Success(first) =>
        match JoinSeasons(remote, id, numbers[1..])
        case Failure(e) => Failure(e)
        case Success(rest) => Success([first] + rest)
  }

  /** Two show records agree on every field except their season lists. */
  predicate SameShowFields<S, U>(a: RemoteShow<S>, b: RemoteShow<U>) {
    && a.backdrop_path == b.backdrop_path
    && a.episode_run_time == b.episode_run_time
    && a.first_air_date == b.first_air_date
    && a.genres == b.genres
    && a.homepage == b.homepage
    && a.id == b.id
    && a.in_production == b.in_production
    && a.last_air_date == b.last_air_date
    && a.name == b.name
    && a.number_of_episodes == b.number_of_episodes
    && a.number_of_seasons == b.number_of_seasons
    && a.origin_country == b.origin_country
    && a.original_language == b.original_language
    && a.original_name == b.original_name
    && a.overview == b.overview
    && a.popularity == b.popularity
    && a.poster_path == b.poster_path
    && a.status == b.status
    && a.tagline == b.tagline
    && a.show_type == b.show_type
    && a.vote_average == b.vote_average
    && a.vote_count == b.vote_count
  }

  /** `{ ...data, seasons }`: the show record with its season list replaced and every other
      field copied. */
  function WithSeasons<S, U>(data: RemoteShow<S>, seasons: seq<U>): (r: RemoteShow<U>)
    ensures r.seasons == seasons
    ensures SameShowFields(r, data)
  {
    RemoteShow(data.backdrop_path, data.episode_run_time, data.first_air_date, data.genres,
               data.homepage, data.id, data.in_production, data.last_air_date, data.name,
               data.number_of_episodes, data.number_of_seasons, data.origin_country,
               data.original_language, data.original_name, data.overview, data.popularity,
               data.poster_path, seasons, data.status, data.tagline, data.show_type,
               data.vote_average, data.vote_count)
  }

  /** The season calls for a show's summaries, one per summary, in summary order. */
  function SeasonCalls(id: string, summaries: seq<SeasonSummary>): (calls: seq<Request>)
    ensures |calls| == |summaries|
    ensures forall i :: 0 <= i < |summaries| ==> calls[i] == SeasonRequest(id, summaries[i].season_number)
  {
    Map((n: int) => SeasonRequest(id, n), SeasonNumbers(summaries))
  }

  /** The composed record once the show has arrived: all seasons joined, or the failure. */
  function WithFetchedSeasons(remote: Remote, id: string, data: RemoteShow<SeasonSummary>): (r: Result<ComposedShow, Error>)
    ensures r.Success? <==> forall i :: 0 <= i < |data.seasons| ==>
                              remote.season(id, data.seasons[i].season_number).Success?
    ensures r.Success? ==>
              && SameShowFields(r.value, data)
              && |r.value.seasons| == |data.seasons|
              && forall i :: 0 <= i < |data.seasons| ==>
                   r.value.seasons[i] == remote.season(id, data.seasons[i].season_number).value
    ensures r.Failure? ==>
              exists i :: && 0 <= i < |data.seasons|
                          && remote.season(id, data.seasons[i].season_number) == Failure(r.error)
  {
    var numbers := SeasonNumbers(data.seasons);
    match JoinSeasons(remote, id, numbers)
    case Failure(e) => Failure(e)
    case Success(seasons) => Success(WithSeasons(data, seasons))
  }

  /** What the producer yields, together with the remote calls it made to get there. */
  datatype Fetched = Fetched(result: Result<ComposedShow, Error>, requests: seq<Request>)

  /** The producer the `show` query hands to the lookup (lines 125-140): the show call, then,
      once the show has arrived, one season call per summary. All season calls are issued
      before any of them is awaited, so a failing one does not stop the others. */
  function Compose(remote: Remote, id: string): (f: Fetched)
    ensures f.requests != [] && f.requests[0] == ShowRequest(id)
    ensures remote.show(id).Failure? ==> f == Fetched(Failure(remote.show(id).error), [ShowRequest(id)])
    ensures remote.show(id).Success? ==>
              && f.requests == [ShowRequest(id)] + SeasonCalls(id, remote.show(id).value.seasons)
              && f.result == WithFetchedSeasons(remote, id, remote.show(id).value)
  {
    match remote.show(id)
    case Failure(e) => Fetched(Failure(e), [ShowRequest(id)])
    case Success(data) => Fetched(WithFetchedSeasons(remote, id, data), [ShowRequest(id)] + SeasonCalls(id, data.seasons))
  }

  /** The outcome of one query: the normalized show or the error, the remote calls made, and
      the store contents afterwards. */
  datatype Answer = Answer(result: Result<Show, Error>, requests: seq<Request>,
                           entries: map<string, Stored<ComposedShow>>)

  function QuerySpec(entries: map<string, Stored<ComposedShow>>, remote: Remote, id: string, now: int,
                     readFault: Option<Error>, writeFault: Option<Error>): (a: Answer)
    // remote calls are made exactly when the lookup misses
    ensures a.requests != [] <==> LookupOf(ReadResult(entries, id, readFault)).Miss?
    // the show returned is the normalization of the record the store now holds under `id`
    ensures a.result.Success? ==>
              id in a.entries && a.entries[id].Envelope? && a.result.value == NormalizeShow(a.entries[id].wrapper.item)
    // no other key changes
    ensures a.entries - {id} == entries - {id}
  {
    var fetched := Compose(remote, id);
    var s := GetSpec(entries, id, fetched.result, now, readFault, writeFault);
    Answer(
      match s.result
      case Success(data) => Success(NormalizeShow(data))
      case Failure(e) => Failure(e),
      if s.fetched then fetched.requests else [],
      s.entries)
  }

  /** `show(id)`: the lookup with the composing producer, then normalization (lines 124-173).
      `requests` are the calls the producer made, none when it was not invoked. */
  method QueryShow(store: Store<ComposedShow>, remote: Remote, id: string, now: int,
                   readFault: Option<Error>, writeFault: Option<Error>)
    returns (r: Result<Show, Error>, requests: seq<Request>)
    modifies store
    ensures Answer(r, requests, store.entries) == QuerySpec(old(store.entries), remote, id, now, readFault, writeFault)
  {
    var data, fetched := store.Get(id, () => Compose(remote, id).result, now, readFault, writeFault);
    requests := if fetched then Compose(remote, id).requests else [];
    match data {
      case Success(d) => r := Success(NormalizeShow(d));
      case Failure(e) => r := Failure(e);
    }
  }

  // ----- Properties of the query -----

  /** A cached record is normalized and returned with no remote call and no write. */
  lemma CachedQuery(entries: map<string, Stored<ComposedShow>>, remote: Remote, id: string, now: int,
                    writeFault: Option<Error>)
    requires id in entries && entries[id].Envelope?
    ensures QuerySpec(entries, remote, id, now, None, writeFault) ==
            Answer(Success(NormalizeShow(entries[id].wrapper.item)), [], entries)
  {
  }

  /** On a miss the query calls the show endpoint once and, when the show arrives, the season
      endpoint once per summary, in summary order. */
  lemma MissRequests(entries: map<string, Stored<ComposedShow>>, remote: Remote, id: string, now: int,
                     readFault: Option<Error>, writeFault: Option<Error>)
    requires LookupOf(ReadResult(entries, id, readFault)).Miss?
    ensures var a := QuerySpec(entries, remote, id, now, readFault, writeFault);
            && a.requests != [] && a.requests[0] == ShowRequest(id)
            && (remote.show(id).Failure? ==> a.requests == [ShowRequest(id)])
            && (remote.show(id).Success? ==>
                  var summaries := remote.show(id).value.seasons;
                  && |a.requests| == 1 + |summaries|
                  && forall i :: 0 <= i < |summaries| ==>
                       a.requests[1 + i] == SeasonRequest(id, summaries[i].season_number))
  {
    var a := QuerySpec(entries, remote, id, now, readFault, writeFault);
    assert a.requests == Compose(remote, id).requests;
    if remote.show(id).Success? {
      var summaries := remote.show(id).value.seasons;
      var calls := SeasonCalls(id, summaries);
      assert a.requests == [ShowRequest(id)] + calls;
      forall i | 0 <= i < |summaries| ensures a.requests[1 + i] == SeasonRequest(id, summaries[i].season_number) {
        assert a.requests[1 + i] == calls[i];
      }
    }
  }

  /** A successful miss writes exactly one entry, the composed record under `id` stamped with
      the clock reading, and returns its normalization. */
  lemma MissWritesComposed(entries: map<string, Stored<ComposedShow>>, remote: Remote, id: string, now: int,
                           readFault: Option<Error>)
    requires LookupOf(ReadResult(entries, id, readFault)).Miss?
    requires Compose(remote, id).result.Success?
    ensures QuerySpec(entries, remote, id, now, readFault, None).entries ==
            entries[id := Envelope(Wrapper(Compose(remote, id).result.value, now))]
    ensures QuerySpec(entries, remote, id, now, readFault, None).result ==
            Success(NormalizeShow(Compose(remote, id).result.value))
  {
  }

  /** One failing season fails the whole query, and the store is not written. */
  lemma SeasonFailureWritesNothing(entries: map<string, Stored<ComposedShow>>, remote: Remote, id: string,
                                   now: int, readFault: Option<Error>, writeFault: Option<Error>, k: int)
    requires remote.show(id).Success?
    requires 0 <= k < |remote.show(id).value.seasons|
    requires remote.season(id, remote.show(id).value.seasons[k].season_number).Failure?
    ensures QuerySpec(entries, remote, id, now, readFault, writeFault).result.Failure? ||
            LookupOf(ReadResult(entries, id, readFault)).Hit?
    ensures QuerySpec(entries, remote, id, now, readFault, writeFault).entries == entries
  {
  }

  /** After a successful query, the next query of the same id (read not failing) returns a
      structurally equal show, makes no remote call (whatever the remote now says) and
      leaves the store alone. */
  lemma SecondQueryCached(entries: map<string, Stored<ComposedShow>>, remote: Remote, id: string, now: int,
                          readFault: Option<Error>, writeFault: Option<Error>,
                          remote': Remote, now': int, writeFault': Option<Error>)
    requires QuerySpec(entries, remote, id, now, readFault, writeFault).result.Success?
    ensures var first := QuerySpec(entries, remote, id, now, readFault, writeFault);
            QuerySpec(first.entries, remote', id, now', None, writeFault') == Answer(first.result, [], first.entries)
  {
  }

  /** A worked case: show 7 with one season summary for season 1, whose season record holds
      two episodes, queried against an empty store. */
  lemma ShowSevenOnEmptyStore(now: int)
    ensures
      var summary := SeasonSummary("2020-01-01", 2, 70, "Season 1", "", None, 1);
      var data := RemoteShow(None, [], "2020-01-01", [], "", 7, false, "2020-01-08", "X", 2, 1, [],
                             "en", "X", "", 0.0, None, [summary], "Ended", "", "Scripted", 0.0, 0);
      var first := RemoteEpisode("2020-01-01", "1", 1, "E1", "", "", "", 0.0, 0);
      var second := RemoteEpisode("2020-01-08", "2", 2, "E2", "", "", "", 0.0, 0);
      var season := RemoteSeason("2020-01-01", [first, second], 70, "Season 1", "", None, 1);
      var remote := Remote(
        (id: string) => if id == "7" then Success(data) else Failure(RemoteFault(404)),
        (id: string, n: int) => if id == "7" && n == 1 then Success(season) else Failure(RemoteFault(404)));
      var a := QuerySpec(map[], remote, "7", now, None, None);
      && a.result.Success?
      && a.result.value.id == "7"
      && a.result.value.episodeRunTime == 0
      && |a.result.value.seasons| == 1
      && a.result.value.seasons[0].seasonNumber == 1
      && |a.result.value.seasons[0].episodes| == 2
      && a.requests == [ShowRequest("7"), SeasonRequest("7", 1)]
      && a.entries.Keys == {"7"}
  {
  }
}
