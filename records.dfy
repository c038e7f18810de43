/** The record shapes of the pipeline. The remote records keep the remote catalog's JSON keys
    (snake_case) as field names, the domain records the camelCase names of the query schema;
    the keyword `type` appears as `show_type` and `showType`. Numbers the pipeline only passes
    along are `int` (identifiers, counts, minutes) or `real` (popularity, ratings). */
module Records {
  import opened Wrappers

  datatype Genre = Genre(id: string, name: string)

  /** One element of a show's `seasons` list as the show endpoint returns it. */
  datatype SeasonSummary = SeasonSummary(
    air_date: string,
    episode_count: int,
    id: int,
    name: string,
    overview: string,
    poster_path: Option<string>,
    season_number: int)

  /** A show as the remote catalog describes it. The season element type `S` is
      `SeasonSummary` for the show endpoint's answer and `RemoteSeason` once the
      summaries have been replaced by full season records. */
  datatype RemoteShow<S> = RemoteShow(
    backdrop_path: Option<string>,
    episode_run_time: seq<int>,
    first_air_date: string,
    genres: seq<Genre>,
    homepage: string,
    id: int,
    in_production: bool,
    last_air_date: string,
    name: string,
    number_of_episodes: int,
    number_of_seasons: int,
    origin_country: seq<string>,
    original_language: string,
    original_name: string,
    overview: string,
    popularity: real,
    poster_path: Option<string>,
    seasons: seq<S>,
    status: string,
    tagline: string,
    show_type: string,
    vote_average: real,
    vote_count: int)

  /** The show record with full seasons: the value the cache persists. */
  type ComposedShow = RemoteShow<RemoteSeason>

  datatype RemoteEpisode = RemoteEpisode(
    air_date: string,
    episode_number: string,
    id: int,
    name: string,
    overview: string,
    production_code: string,
    still_path: string,
    vote_average: real,
    vote_count: int)

  datatype RemoteSeason = RemoteSeason(
    air_date: string,
    episodes: seq<RemoteEpisode>,
    id: int,
    name: string,
    overview: string,
    poster_path: Option<string>,
    season_number: int)

  datatype Episode = Episode(
    airDate: string,
    episodeNumber: string,
    id: int,
    name: string,
    overview: string,
    productionCode: string,
    stillPath: string,
    voteAverage: real,
    voteCount: int)

  datatype Season = Season(
    airDate: string,
    episodes: seq<Episode>,
    id: int,
    name: string,
    overview: string,
    posterPath: Option<string>,
    seasonNumber: int)

  datatype Show = Show(
    backdropPath: Option<string>,
    episodeRunTime: int,
    id: string,
    name: string,
    overview: string,
    popularity: real,
    posterPath: Option<string>,
    seasons: seq<Season>,
    status: string,
    tagline: string,
    showType: string,
    voteAverage: real,
    voteCount: int)
}
