/** The projection of the composed remote record onto the domain `Show`, done afresh on every
    query (packages/api/src/index.ts, the `.then` after the cache lookup). Pure: it builds new
    records and changes nothing. */
module Normalize {
  import opened Wrappers
  import opened Records
  import opened Seqs
  import Decimal

  /** `episode_run_time[0] ?? 0`: the first run time, or 0 for an empty list. */
  function RunTime(times: seq<int>): (r: int)
    ensures |times| == 0 ==> r == 0
    ensures |times| > 0 ==> r == times[0]
  {
    if |times| > 0 then times[0] else 0
  }

  function NormalizeEpisode(e: RemoteEpisode): (r: Episode)
    ensures EpisodeToRemote(r) == e
  {
    Episode(
      airDate := e.air_date,
      episodeNumber := e.episode_number,
      id := e.id,
      name := e.name,
      overview := e.overview,
      productionCode := e.production_code,
      stillPath := e.still_path,
      voteAverage := e.vote_average,
      voteCount := e.vote_count)
  }

  function NormalizeSeason(s: RemoteSeason): (r: Season)
    ensures |r.episodes| == |s.episodes|
    ensures SeasonToRemote(r) == s
  {
    Season(
      airDate := s.air_date,
      episodes := Map(NormalizeEpisode, s.episodes),
      id := s.id,
      name := s.name,
      overview := s.overview,
      posterPath := s.poster_path,
      seasonNumber := s.season_number)
  }

  function NormalizeShow(data: ComposedShow): (r: Show)
    ensures Decimal.ParseId(r.id) == Some(data.id)
    ensures |r.seasons| == |data.seasons|
    ensures forall i :: 0 <= i < |data.seasons| ==> SeasonToRemote(r.seasons[i]) == data.seasons[i]
  {
    Decimal.ParseIdInverse(Decimal.IdString(data.id), data.id);
    Show(
      backdropPath := data.backdrop_path,
      episodeRunTime := RunTime(data.episode_run_time),
      id := Decimal.IdString(data.id),
      name := data.name,
      overview := data.overview,
      popularity := data.popularity,
      posterPath := data.poster_path,
      seasons := Map(NormalizeSeason, data.seasons),
      status := data.status,
      tagline := data.tagline,
      showType := data.show_type,
      voteAverage := data.vote_average,
      voteCount := data.vote_count)
  }

  // ----- The renaming in the other direction: episodes and seasons lose nothing. -----

  function EpisodeToRemote(e: Episode): RemoteEpisode
  {
    RemoteEpisode(e.airDate, e.episodeNumber, e.id, e.name, e.overview,
                  e.productionCode, e.stillPath, e.voteAverage, e.voteCount)
  }

  function SeasonToRemote(s: Season): RemoteSeason
  {
    RemoteSeason(s.airDate, Map(EpisodeToRemote, s.episodes), s.id, s.name, s.overview,
                 s.posterPath, s.seasonNumber)
  }

  /** Normalizing an episode is a bijective renaming. */
  lemma EpisodeRoundTrip(e: RemoteEpisode, d: Episode)
    ensures EpisodeToRemote(NormalizeEpisode(e)) == e
    ensures NormalizeEpisode(EpisodeToRemote(d)) == d
  {
  }

  /** Normalizing a season is a bijective renaming too: the remote season, episodes included,
      can be rebuilt from it, and every domain season is the normalization of one. */
  lemma SeasonRoundTrip(s: RemoteSeason, d: Season)
    ensures SeasonToRemote(NormalizeSeason(s)) == s
    ensures NormalizeSeason(SeasonToRemote(d)) == d
  {
  }

  // ----- What the normalized show says about the composed record. -----

  /** `episodeRunTime` is the first remote run time, or 0 when the list is empty. */
  lemma RunTimeDefault(data: ComposedShow)
    ensures |data.episode_run_time| == 0 ==> NormalizeShow(data).episodeRunTime == 0
    ensures |data.episode_run_time| > 0 ==> NormalizeShow(data).episodeRunTime == data.episode_run_time[0]
  {
  }

  /** The domain id is the decimal text of the remote number: it reads back as that number,
      and two shows get the same text only when they have the same remote id. */
  lemma NormalizedId(data: ComposedShow, other: ComposedShow)
    ensures Decimal.ParseId(NormalizeShow(data).id) == Some(data.id)
    ensures NormalizeShow(data).id == NormalizeShow(other).id <==> data.id == other.id
  {
    Decimal.ParseIdInverse(NormalizeShow(data).id, data.id);
    Decimal.IdStringInjective(data.id, other.id);
  }

  /** Seasons, and the episodes of each season, are mapped one to one, keeping length and
      order, and each full remote season can be rebuilt from its normalized form. */
  lemma NormalizedSeasons(data: ComposedShow)
    ensures |NormalizeShow(data).seasons| == |data.seasons|
    ensures forall i :: 0 <= i < |data.seasons| ==>
              var season := NormalizeShow(data).seasons[i];
              && season.seasonNumber == data.seasons[i].season_number
              && |season.episodes| == |data.seasons[i].episodes|
              && (forall j :: 0 <= j < |data.seasons[i].episodes| ==>
                    season.episodes[j] == NormalizeEpisode(data.seasons[i].episodes[j]))
              && SeasonToRemote(season) == data.seasons[i]
  {
  }

  /** Every other domain field carries the remote field of the corresponding snake_case name. */
  lemma RenamedShowFields(data: ComposedShow)
    ensures var r := NormalizeShow(data);
      && r.backdropPath == data.backdrop_path
      && r.name == data.name
      && r.overview == data.overview
      && r.popularity == data.popularity
      && r.posterPath == data.poster_path
      && r.status == data.status
      && r.tagline == data.tagline
      && r.showType == data.show_type
      && r.voteAverage == data.vote_average
      && r.voteCount == data.vote_count
  {
  }
}
