/** The Apple Music city-chart pipeline (mood-atlas-src/src/utils/cityCharts.ts): genre-based
    feature estimation, per-city mood, position and colour, the chart fetch, and the
    driver loop behind a one-hour cache keyed by city id. The catalogue API, the random
    draws and the clock are parameters. */
module CityCharts {
  import opened Js
  import opened Text
  import GenreTable
  import EmotionAnalysis
  import MockSongs
  import opened CityChartData
  import opened MusicKit

  // ---------------------------------------------------------------------------
  // generateAudioFeatures

  datatype AudioFeatures = AudioFeatures(energy: real, valence: real)

  /** Base (energy, valence) of each genre branch, in the order of the keyword table. */
  const BaseMoods: seq<(real, real)> := [
    (0.85, 0.7), (0.75, 0.55), (0.5, 0.65), (0.8, 0.5), (0.55, 0.5), (0.65, 0.75), (0.8, 0.8),
    (0.75, 0.75), (0.8, 0.8), (0.5, 0.7), (0.5, 0.6), (0.4, 0.55), (0.35, 0.6), (0.25, 0.6),
    (0.4, 0.5), (0.8, 0.8), (0.7, 0.6), (0.6, 0.35), (0.5, 0.5)]

  /** The spread of the random adjustment around the base. */
  const RandomFactor: real := 0.2

  /** The base features of a genre: those of the first branch whose keyword the
      lower-cased genre includes, else (0.5, 0.5). */
  function BaseMood(genre: string): (real, real)
  {
    var b := GenreTable.Branch(ToLower(genre));
    if b < |BaseMoods| then BaseMoods[b] else (0.5, 0.5)
  }

  /** One feature: the base moved by a draw in [0, 1), kept inside [0.1, 1.0]. */
  function Jitter(base: real, draw: real): (x: real)
    ensures 0.1 <= x <= 1.0
  {
    Clamp(base + (draw - 0.5) * RandomFactor, 0.1, 1.0)
  }

  /** `generateAudioFeatures(genre)`, with its two `Math.random()` draws as parameters. */
  function GenerateAudioFeatures(genre: string, energyDraw: real, valenceDraw: real): (f: AudioFeatures)
    ensures 0.1 <= f.energy <= 1.0 && 0.1 <= f.valence <= 1.0
  {
    var (energy, valence) := BaseMood(genre);
    AudioFeatures(Jitter(energy, energyDraw), Jitter(valence, valenceDraw))
  }

  lemma BaseMoodsInRange(b: nat)
    requires b < |BaseMoods|
    ensures 0.2 <= BaseMoods[b].0 <= 0.9 && 0.2 <= BaseMoods[b].1 <= 0.9
  {
    if b < 10 {
      assert 0.2 <= BaseMoods[b].0 <= 0.9 && 0.2 <= BaseMoods[b].1 <= 0.9;
    } else {
      assert 0.2 <= BaseMoods[b].0 <= 0.9 && 0.2 <= BaseMoods[b].1 <= 0.9;
    }
  }

  /** For draws in [0, 1) the clamp never bites: each feature is its base plus at most
      0.1 either way. */
  lemma FeaturesNearBase(genre: string, energyDraw: real, valenceDraw: real)
    requires 0.0 <= energyDraw < 1.0 && 0.0 <= valenceDraw < 1.0
    ensures var f := GenerateAudioFeatures(genre, energyDraw, valenceDraw);
            f.energy == BaseMood(genre).0 + (energyDraw - 0.5) * RandomFactor
            && f.valence == BaseMood(genre).1 + (valenceDraw - 0.5) * RandomFactor
  {
    var b := GenreTable.Branch(ToLower(genre));
    if b < |BaseMoods| {
      BaseMoodsInRange(b);
    }
  }

  /** A genre that includes none of the keywords keeps the (0.5, 0.5) base; so does a
      missing genre, which arrives as the empty string. */
  lemma UnmatchedGenreDefaults(genre: string)
    requires forall c :: 0 <= c < GenreTable.NoMatch ==> !GenreTable.Matches(ToLower(genre), c)
    ensures BaseMood(genre) == (0.5, 0.5)
  {
    GenreTable.BranchIsFirstMatch(ToLower(genre));
  }

  lemma EmptyGenreDefaults()
    ensures BaseMood("") == (0.5, 0.5)
  {
    GenreTable.EmptyGenreMatchesNothing();
  }

  /** A genre mentioning post-punk gets a base from the first four branches, never the
      (0.6, 0.35) of the post-punk branch. */
  lemma PostPunkNeverDarkwave(genre: string)
    requires Contains(ToLower(genre), "post-punk")
    ensures BaseMood(genre) in BaseMoods[..4]
    ensures BaseMood(genre) != BaseMoods[GenreTable.PostPunk]
  {
    GenreTable.PostPunkIsRock(ToLower(genre));
  }

  /** Larger draws never give smaller features. */
  lemma FeaturesMonotoneInDraws(genre: string, e1: real, e2: real, v1: real, v2: real)
    requires e1 <= e2 && v1 <= v2
    ensures GenerateAudioFeatures(genre, e1, v1).energy <= GenerateAudioFeatures(genre, e2, v2).energy
    ensures GenerateAudioFeatures(genre, e1, v1).valence <= GenerateAudioFeatures(genre, e2, v2).valence
  {
    var (be, bv) := BaseMood(genre);
    ClampMonotone(be + (e1 - 0.5) * RandomFactor, be + (e2 - 0.5) * RandomFactor, 0.1, 1.0);
    ClampMonotone(bv + (v1 - 0.5) * RandomFactor, bv + (v2 - 0.5) * RandomFactor, 0.1, 1.0);
  }

  // ---------------------------------------------------------------------------
  // processCityMood, calculateCityPosition, getCityColor

  datatype CityMood = CityMood(avgEnergy: real, avgValence: real, primaryEmotion: string)

  /** `processCityMood`: the mean energy and valence of the songs and their label; a
      fixed (0.5, 0.5, Calm) for no songs. */
  function ProcessCityMood(songs: seq<CityChartSong>): (m: CityMood)
    ensures |songs| == 0 ==> m == CityMood(0.5, 0.5, "Calm")
    ensures |songs| > 0 ==> m.avgEnergy * |songs| as real == Sum(Energies(songs))
                            && m.avgValence * |songs| as real == Sum(Valences(songs))
    ensures |songs| > 0 ==> m.primaryEmotion == EmotionAnalysis.AnalyzeSongEmotion(m.avgEnergy, m.avgValence)
  {
    if |songs| == 0 then CityMood(0.5, 0.5, "Calm")
    else
      var avgEnergy := Sum(Energies(songs)) / |songs| as real;
      var avgValence := Sum(Valences(songs)) / |songs| as real;
      CityMood(avgEnergy, avgValence, EmotionAnalysis.AnalyzeSongEmotion(avgEnergy, avgValence))
  }

  /** The averages lie within any bounds that hold for every song. */
  lemma MoodWithinSongBounds(songs: seq<CityChartSong>, lo: real, hi: real)
    requires |songs| > 0
    requires forall i :: 0 <= i < |songs| ==> lo <= songs[i].energy <= hi && lo <= songs[i].valence <= hi
    ensures lo <= ProcessCityMood(songs).avgEnergy <= hi
    ensures lo <= ProcessCityMood(songs).avgValence <= hi
  {
    MeanBounds(Energies(songs), lo, hi);
    MeanBounds(Valences(songs), lo, hi);
  }

  /** The empty-list default is not what the classifier says about (0.5, 0.5). */
  lemma EmptyMoodDisagreesWithClassifier()
    ensures ProcessCityMood([]).primaryEmotion == "Calm"
    ensures EmotionAnalysis.AnalyzeSongEmotion(0.5, 0.5) == "Romantic"
  {
  }

  /** `calculateCityPosition` without the z spread: valence on x and energy on y, each
      0..1 stretched onto -40..40, so the position gives the mood back. */
  function CalculateCityPosition(avgEnergy: real, avgValence: real): (p: Position)
    ensures p.x / 80.0 + 0.5 == avgValence && p.y / 80.0 + 0.5 == avgEnergy
    ensures 0.0 <= avgValence <= 1.0 ==> -40.0 <= p.x <= 40.0
    ensures 0.0 <= avgEnergy <= 1.0 ==> -40.0 <= p.y <= 40.0
  {
    Position((avgValence - 0.5) * 80.0, (avgEnergy - 0.5) * 80.0)
  }

  /** The lookup `getCityColor` makes, in a given colour table: the emotion's colour,
      white for an emotion the table does not list. */
  function ColorIn(colors: map<string, string>, primaryEmotion: string): string
  {
    if primaryEmotion in colors then colors[primaryEmotion] else "#ffffff"
  }

  /** `getCityColor`: the lookup in `emotionColors`. */
  function GetCityColor(primaryEmotion: string): (color: string)
    ensures primaryEmotion in MockSongs.EmotionColors ==> color == MockSongs.EmotionColors[primaryEmotion]
    ensures primaryEmotion !in MockSongs.EmotionColors ==> color == "#ffffff"
  {
    ColorIn(MockSongs.EmotionColors, primaryEmotion)
  }

  /** Every label the classifier can produce has a colour of its own. */
  lemma ClassifiedCitiesAreColoured(energy: real, valence: real)
    ensures GetCityColor(EmotionAnalysis.AnalyzeSongEmotion(energy, valence)) != "#ffffff"
  {
  }

  // ---------------------------------------------------------------------------
  // fetchCityChart

  /** What the catalogue call does: throw, or answer with the playlist's track list,
      possibly missing (`response.data?.data?.[0]?.relationships?.tracks?.data`). */
  datatype ApiOutcome = ApiThrew | ApiReturned(tracks: Option<seq<AppleSong>>)

  /** At most this many tracks of a playlist are used. */
  const MaxTracks: nat := 25

  /** The catalogue path of a city's chart playlist. */
  function PlaylistPath(city: CityData): string
  {
    "/v1/catalog/" + ToLower(city.countryCode) + "/playlists/" + city.playlistId
  }

  /** The track list of an answer; a missing list is empty. */
  function TracksOf(outcome: ApiOutcome): seq<AppleSong>
  {
    if outcome.ApiReturned? && outcome.tracks.Some? then outcome.tracks.value else []
  }

  /** `artwork?.url?.replace('{w}', '300').replace('{h}', '300')`. */
  function ArtworkUrl(track: AppleSong): Option<string>
  {
    if track.attributes.Some? && track.attributes.value.artwork.Some? && track.attributes.value.artwork.value.url.Some?
    then Some(ReplaceFirst(ReplaceFirst(track.attributes.value.artwork.value.url.value, "{w}", "300"), "{h}", "300"))
    else None
  }

  /** The song one track becomes, given the draws for its energy and valence. */
  function TrackSong(track: AppleSong, energyDraw: real, valenceDraw: real): (s: CityChartSong)
    ensures s.id == track.id && s.genre.Some?
    ensures 0.1 <= s.energy <= 1.0 && 0.1 <= s.valence <= 1.0
    ensures s.primaryEmotion == EmotionAnalysis.AnalyzeSongEmotion(s.energy, s.valence)
  {
    var genre := OrDefault(FirstGenre(track), "");
    var features := GenerateAudioFeatures(genre, energyDraw, valenceDraw);
    var duration := DurationSeconds(track);
    CityChartSong(
      track.id,
      OrDefault(Name(track), "Unknown"),
      OrDefault(ArtistName(track), "Unknown Artist"),
      AlbumName(track),
      features.energy,
      features.valence,
      EmotionAnalysis.AnalyzeSongEmotion(features.energy, features.valence),
      EmotionAnalysis.EmotionScores(features.energy, features.valence),
      PreviewUrl(track),
      if duration.Some? then Some(duration.value as real) else None,
      Some(genre),
      ArtworkUrl(track))
  }

  /** The songs `make` builds from the first `n` tracks, in playlist order; track `i`
      gets draws `2i` (energy) and `2i + 1` (valence). */
  function ChartSongs<S>(tracks: seq<AppleSong>, make: (AppleSong, real, real) -> S, draws: nat -> real, n: nat): (songs: seq<S>)
    requires n <= |tracks|
    ensures |songs| == n
  {
    if n == 0 then []
    else ChartSongs(tracks, make, draws, n - 1) + [make(tracks[n - 1], draws(2 * (n - 1)), draws(2 * (n - 1) + 1))]
  }

  lemma ChartSongsSnoc<S>(tracks: seq<AppleSong>, make: (AppleSong, real, real) -> S, draws: nat -> real, n: nat)
    requires n < |tracks|
    ensures ChartSongs(tracks, make, draws, n + 1)
            == ChartSongs(tracks, make, draws, n) + [make(tracks[n], draws(2 * n), draws(2 * n + 1))]
  {
  }

  /** Song `i` comes from track `i` and its two draws. */
  lemma {:induction false} ChartSongsAt<S>(tracks: seq<AppleSong>, make: (AppleSong, real, real) -> S, draws: nat -> real, n: nat, i: nat)
    requires i < n <= |tracks|
    ensures ChartSongs(tracks, make, draws, n)[i] == make(tracks[i], draws(2 * i), draws(2 * i + 1))
  {
    if i < n - 1 {
      ChartSongsAt(tracks, make, draws, n - 1, i);
    }
  }

  /** The chart of a city: the songs of the first 25 tracks; empty when the call throws. */
  function CityChart(city: CityData, api: string -> ApiOutcome, draws: nat -> real): seq<CityChartSong>
  {
    var outcome := api(PlaylistPath(city));
    if outcome.ApiThrew? then []
    else
      var tracks := TracksOf(outcome);
      ChartSongs(tracks, TrackSong, draws, SliceEnd(|tracks|, MaxTracks))
  }

  /** The chart keeps the first 25 tracks in order (at most 25 songs, the `i`th built from
      the `i`th track) and is empty when the call throws. */
  lemma CityChartTracks(city: CityData, api: string -> ApiOutcome, draws: nat -> real)
    ensures var outcome := api(PlaylistPath(city));
            var tracks := TracksOf(outcome);
            var songs := CityChart(city, api, draws);
            (outcome.ApiThrew? ==> songs == [])
            && (outcome.ApiReturned? ==> |songs| == if |tracks| < MaxTracks then |tracks| else MaxTracks)
            && |songs| <= MaxTracks
            && forall i :: 0 <= i < |songs| ==>
                 songs[i] == TrackSong(tracks[i], draws(2 * i), draws(2 * i + 1)) && songs[i].id == tracks[i].id
  {
    var outcome := api(PlaylistPath(city));
    var tracks := TracksOf(outcome);
    var songs := CityChart(city, api, draws);
    if outcome.ApiReturned? {
      forall i | 0 <= i < |songs|
        ensures songs[i] == TrackSong(tracks[i], draws(2 * i), draws(2 * i + 1))
      {
        ChartSongsAt(tracks, TrackSong, draws, |songs|, i);
      }
    }
  }

  /** The body of the loop over tracks: estimate the features, label them, score them and
      build the song record. */
  method ProcessTrack(track: AppleSong, energyDraw: real, valenceDraw: real) returns (song: CityChartSong)
    ensures song == TrackSong(track, energyDraw, valenceDraw)
  {
    var genre := OrDefault(FirstGenre(track), "");
    var features := GenerateAudioFeatures(genre, energyDraw, valenceDraw);
    var primaryEmotion := EmotionAnalysis.AnalyzeSongEmotion(features.energy, features.valence);
    var emotionScores := EmotionAnalysis.GenerateEmotionScores(features.energy, features.valence);
    var duration := DurationSeconds(track);
    song := CityChartSong(
      track.id,
      OrDefault(Name(track), "Unknown"),
      OrDefault(ArtistName(track), "Unknown Artist"),
      AlbumName(track),
      features.energy,
      features.valence,
      primaryEmotion,
      emotionScores,
      PreviewUrl(track),
      if duration.Some? then Some(duration.value as real) else None,
      Some(genre),
      ArtworkUrl(track));
  }

  /** `fetchCityChart`: one song per track of the first 25, pushed in order. */
  method FetchCityChart(city: CityData, api: string -> ApiOutcome, draws: nat -> real)
    returns (songs: seq<CityChartSong>)
    ensures songs == CityChart(city, api, draws)
  {
    var outcome := api(PlaylistPath(city));
    if outcome.ApiThrew? {
      return [];
    }
    var tracks := TracksOf(outcome);
    var toProcess := tracks[..SliceEnd(|tracks|, MaxTracks)];
    songs := [];
    var i := 0;
    while i < |toProcess|
      invariant 0 <= i <= |toProcess|
      invariant songs == ChartSongs(tracks, TrackSong, draws, i)
    {
      var song := ProcessTrack(toProcess[i], draws(2 * i), draws(2 * i + 1));
      ChartSongsSnoc(tracks, TrackSong, draws, i);
      songs := songs + [song];
      i := i + 1;
    }
  }

  // ---------------------------------------------------------------------------
  // fetchAllCityCharts, cityChartCache, clearCityChartCache

  /** A cached cluster and the time it was stored. */
  datatype CacheEntry = CacheEntry(data: CityCluster, timestamp: int)

  /** One hour, in milliseconds. */
  const CacheDuration: int := 60 * 60 * 1000

  /** A city's cache entry is used when there is one younger than an hour. */
  predicate Fresh(entries: map<string, CacheEntry>, id: string, now: int)
  {
    id in entries && now - entries[id].timestamp < CacheDuration
  }

  /** The cluster of a city with a non-empty chart, coloured from the table `colors`
      (the driver uses `emotionColors`; the lemmas about the run hold for any table): the
      songs' mood, its colour and position, and the city record with those figures spread
      into it. */
  function CityClusterOf(city: CityData, songs: seq<CityChartSong>, colors: map<string, string>): (c: CityCluster)
    requires |songs| > 0
    ensures c.songs == songs && SameListing(c.city, city) && CarriesOwnFigures(c)
    ensures CityMood(c.avgEnergy, c.avgValence, c.primaryEmotion) == ProcessCityMood(songs)
    ensures c.color == ColorIn(colors, c.primaryEmotion)
    ensures c.position == CalculateCityPosition(c.avgEnergy, c.avgValence)
  {
    var mood := ProcessCityMood(songs);
    var position := CalculateCityPosition(mood.avgEnergy, mood.avgValence);
    var color := ColorIn(colors, mood.primaryEmotion);
    CityCluster(Spread(city, songs, mood.avgEnergy, mood.avgValence, mood.primaryEmotion, position, color),
                songs, mood.avgEnergy, mood.avgValence, mood.primaryEmotion, color, position)
  }

  /** The state of a run of the driver: the cache, the clusters pushed, the progress
      reports `(loaded, total)` and the number of pauses. */
  datatype Run = Run(entries: map<string, CacheEntry>, clusters: seq<CityCluster>,
                     progress: seq<(nat, nat)>, delays: nat)

  /** The chart each city's fetch returns, by position in the city list: city `i` uses
      the draws `draws(i)`. */
  function ChartsOf(cities: seq<CityData>, api: string -> ApiOutcome, draws: nat -> nat -> real): (chart: nat -> seq<CityChartSong>)
    ensures forall i :: 0 <= i < |cities| ==> chart(i) == CityChart(cities[i], api, draws(i))
  {
    (i: nat) => if i < |cities| then CityChart(cities[i], api, draws(i)) else []
  }

  /** One pass of the loop, for city `i`: a fresh cache entry is pushed as it is, with no
      pause and no fetch; otherwise, after a pause unless it is the first city, the chart
      is fetched (`chart(i)`) and, when non-empty, summarised, cached with time `now` and
      pushed. Progress is reported either way. */
  function Visit(r: Run, cities: seq<CityData>, i: nat, chart: nat -> seq<CityChartSong>, colors: map<string, string>, now: int): Run
    requires i < |cities|
  {
    var city := cities[i];
    var progress := r.progress + [(i + 1, |cities|)];
    if Fresh(r.entries, city.id, now) then
      r.(clusters := r.clusters + [r.entries[city.id].data], progress := progress)
    else
      var delays := if i > 0 then r.delays + 1 else r.delays;
      var songs := chart(i);
      if |songs| > 0 then
        var cluster := CityClusterOf(city, songs, colors);
        Run(r.entries[city.id := CacheEntry(cluster, now)], r.clusters + [cluster], progress, delays)
      else
        r.(progress := progress, delays := delays)
  }

  /** The state after the first `k` cities, starting from the cache `start`. */
  function RunUpTo(start: map<string, CacheEntry>, cities: seq<CityData>, k: nat,
                   chart: nat -> seq<CityChartSong>, colors: map<string, string>, now: int): Run
    requires k <= |cities|
  {
    if k == 0 then Run(start, [], [], 0)
    else Visit(RunUpTo(start, cities, k - 1, chart, colors, now), cities, k - 1, chart, colors, now)
  }

  /** A fresh entry makes the visit independent of the catalogue: no fetch happens. */
  lemma FreshEntrySkipsFetch(r: Run, cities: seq<CityData>, i: nat, chart1: nat -> seq<CityChartSong>,
                             chart2: nat -> seq<CityChartSong>, colors: map<string, string>, now: int)
    requires i < |cities| && Fresh(r.entries, cities[i].id, now)
    ensures Visit(r, cities, i, chart1, colors, now) == Visit(r, cities, i, chart2, colors, now)
    ensures Visit(r, cities, i, chart1, colors, now).delays == r.delays
    ensures Visit(r, cities, i, chart1, colors, now).clusters == r.clusters + [r.entries[cities[i].id].data]
  {
  }

  /** Progress is reported once per city, failed ones included: report `j` is
      `(j + 1, n)`. */
  lemma {:induction false} RunProgress(start: map<string, CacheEntry>, cities: seq<CityData>, k: nat,
                                       chart: nat -> seq<CityChartSong>, colors: map<string, string>, now: int)
    requires k <= |cities|
    ensures var p := RunUpTo(start, cities, k, chart, colors, now).progress;
            |p| == k && forall j :: 0 <= j < k ==> p[j] == (j + 1, |cities|)
  {
    if k > 0 {
      RunProgress(start, cities, k - 1, chart, colors, now);
    }
  }

  /** At most one pause between consecutive cities, none before the first. */
  lemma {:induction false} RunDelays(start: map<string, CacheEntry>, cities: seq<CityData>, k: nat,
                                     chart: nat -> seq<CityChartSong>, colors: map<string, string>, now: int)
    requires k <= |cities|
    ensures RunUpTo(start, cities, k, chart, colors, now).delays <= if k == 0 then 0 else k - 1
  {
    if k > 0 {
      RunDelays(start, cities, k - 1, chart, colors, now);
    }
  }

  /** Every cached cluster has songs. */
  predicate CacheValid(entries: map<string, CacheEntry>)
  {
    forall id :: id in entries ==> |entries[id].data.songs| > 0
  }

  /** One visit keeps the cache valid and pushes only clusters with songs. */
  lemma VisitKeepsCacheValid(r: Run, cities: seq<CityData>, i: nat, chart: nat -> seq<CityChartSong>, colors: map<string, string>, now: int)
    requires i < |cities| && CacheValid(r.entries)
    requires forall j :: 0 <= j < |r.clusters| ==> |r.clusters[j].songs| > 0
    ensures var v := Visit(r, cities, i, chart, colors, now);
            CacheValid(v.entries) && forall j :: 0 <= j < |v.clusters| ==> |v.clusters[j].songs| > 0
  {
    var city := cities[i];
    if !Fresh(r.entries, city.id, now) && |chart(i)| > 0 {
      var cluster := CityClusterOf(city, chart(i), colors);
      assert Visit(r, cities, i, chart, colors, now).entries == r.entries[city.id := CacheEntry(cluster, now)];
    }
  }

  /** Only non-empty clusters are cached and pushed: starting from a valid cache, the cache
      stays valid and every cluster of the run has songs. */
  lemma {:induction false} RunKeepsCacheValid(start: map<string, CacheEntry>, cities: seq<CityData>, k: nat,
                                              chart: nat -> seq<CityChartSong>, colors: map<string, string>, now: int)
    requires k <= |cities| && CacheValid(start)
    ensures var r := RunUpTo(start, cities, k, chart, colors, now);
            CacheValid(r.entries) && forall j :: 0 <= j < |r.clusters| ==> |r.clusters[j].songs| > 0
  {
    if k > 0 {
      RunKeepsCacheValid(start, cities, k - 1, chart, colors, now);
      VisitKeepsCacheValid(RunUpTo(start, cities, k - 1, chart, colors, now), cities, k - 1, chart, colors, now);
    }
  }

  /** A visit changes the cache at most at the visited city's id. */
  lemma VisitTouchesOnlyItsId(r: Run, cities: seq<CityData>, i: nat, chart: nat -> seq<CityChartSong>, colors: map<string, string>, now: int, id: string)
    requires i < |cities| && cities[i].id != id
    ensures var entries := Visit(r, cities, i, chart, colors, now).entries;
            (id in entries <==> id in r.entries) && (id in r.entries ==> entries[id] == r.entries[id])
  {
    var city := cities[i];
    if !Fresh(r.entries, city.id, now) && |chart(i)| > 0 {
      var cluster := CityClusterOf(city, chart(i), colors);
      assert Visit(r, cities, i, chart, colors, now).entries == r.entries[city.id := CacheEntry(cluster, now)];
    }
  }

  /** The cache changes only at the ids of the cities visited. */
  lemma {:induction false} RunTouchesOnlyVisitedIds(start: map<string, CacheEntry>, cities: seq<CityData>, k: nat,
                                                    chart: nat -> seq<CityChartSong>, colors: map<string, string>, now: int, id: string)
    requires k <= |cities|
    requires forall j :: 0 <= j < k ==> cities[j].id != id
    ensures var entries := RunUpTo(start, cities, k, chart, colors, now).entries;
            (id in entries <==> id in start) && (id in start ==> entries[id] == start[id])
  {
    if k > 0 {
      RunTouchesOnlyVisitedIds(start, cities, k - 1, chart, colors, now, id);
      VisitTouchesOnlyItsId(RunUpTo(start, cities, k - 1, chart, colors, now), cities, k - 1, chart, colors, now, id);
    }
  }

  /** A visit keeps every fresh entry fresh, and leaves the visited city fresh unless it
      was fetched with an empty chart. */
  lemma VisitKeepsFresh(r: Run, cities: seq<CityData>, i: nat, chart: nat -> seq<CityChartSong>, colors: map<string, string>, now: int)
    requires i < |cities|
    ensures var entries := Visit(r, cities, i, chart, colors, now).entries;
            (forall id :: Fresh(r.entries, id, now) ==> Fresh(entries, id, now))
            && (Fresh(entries, cities[i].id, now) || |chart(i)| == 0)
  {
    var city := cities[i];
    var v := Visit(r, cities, i, chart, colors, now);
    if !Fresh(r.entries, city.id, now) {
      var songs := chart(i);
      if |songs| > 0 {
        var cluster := CityClusterOf(city, songs, colors);
        assert v.entries == r.entries[city.id := CacheEntry(cluster, now)];
      } else {
        assert v.entries == r.entries;
      }
    } else {
      assert v.entries == r.entries;
    }
  }

  /** After the run every visited city is served from the cache for the rest of the hour,
      unless it was fetched and its chart came back empty. */
  lemma {:induction false} RunCachesLoadedCities(start: map<string, CacheEntry>, cities: seq<CityData>, k: nat,
                                                 chart: nat -> seq<CityChartSong>, colors: map<string, string>, now: int)
    requires k <= |cities|
    ensures var entries := RunUpTo(start, cities, k, chart, colors, now).entries;
            forall j :: 0 <= j < k ==> Fresh(entries, cities[j].id, now) || |chart(j)| == 0
  {
    if k > 0 {
      var prev := RunUpTo(start, cities, k - 1, chart, colors, now);
      RunCachesLoadedCities(start, cities, k - 1, chart, colors, now);
      VisitKeepsFresh(prev, cities, k - 1, chart, colors, now);
      var entries := Visit(prev, cities, k - 1, chart, colors, now).entries;
      assert RunUpTo(start, cities, k, chart, colors, now).entries == entries;
      forall j | 0 <= j < k
        ensures Fresh(entries, cities[j].id, now) || |chart(j)| == 0
      {
        if j < k - 1 && |chart(j)| != 0 {
          assert Fresh(prev.entries, cities[j].id, now);
        }
      }
    }
  }

  /** `cityChartCache`: the module-level map from city id to cached cluster. */
  class CityChartCache {
    var entries: map<string, CacheEntry>
    /** The colour table clusters are painted from: the module's `emotionColors`. */
    const colors: map<string, string>

    constructor()
      ensures entries == map[] && colors == MockSongs.EmotionColors
    {
      entries := map[];
      colors := MockSongs.EmotionColors;
    }

    /** `fetchAllCityCharts(musicKit, cities, onProgress)` with the clock read once as
        `now`; returns the clusters, the progress reports and the number of pauses. The
        chart of city `i` is `fetchCityChart` with the draws `draws(i)`. */
    method FetchAllCityCharts(cities: seq<CityData>, api: string -> ApiOutcome, draws: nat -> nat -> real, now: int)
      returns (clusters: seq<CityCluster>, progress: seq<(nat, nat)>, delays: nat)
      modifies this
      ensures var r := RunUpTo(old(entries), cities, |cities|, ChartsOf(cities, api, draws), colors, now);
              entries == r.entries && clusters == r.clusters && progress == r.progress && delays == r.delays
    {
      clusters, progress, delays := VisitAll(cities, ChartsOf(cities, api, draws), now);
    }

    /** The loop of `fetchAllCityCharts`, with the chart fetch of city `i` as `chart(i)`. */
    method VisitAll(cities: seq<CityData>, chart: nat -> seq<CityChartSong>, now: int)
      returns (clusters: seq<CityCluster>, progress: seq<(nat, nat)>, delays: nat)
      modifies this
      ensures var r := RunUpTo(old(entries), cities, |cities|, chart, colors, now);
              entries == r.entries && clusters == r.clusters && progress == r.progress && delays == r.delays
    {
      clusters, progress, delays := [], [], 0;
      var i := 0;
      while i < |cities|
        invariant 0 <= i <= |cities|
        invariant RunUpTo(old(entries), cities, i, chart, colors, now) == Run(entries, clusters, progress, delays)
      {
        ghost var r := Run(entries, clusters, progress, delays);
        var city := cities[i];
        if city.id in entries && now - entries[city.id].timestamp < CacheDuration {
          clusters := clusters + [entries[city.id].data];
          progress := progress + [(i + 1, |cities|)];
          assert Run(entries, clusters, progress, delays) == Visit(r, cities, i, chart, colors, now);
          i := i + 1;
          continue;
        }
        if i > 0 {
          delays := delays + 1;
        }
        var songs := chart(i);
        if |songs| > 0 {
          var cluster := CityClusterOf(city, songs, colors);
          entries := entries[city.id := CacheEntry(cluster, now)];
          clusters := clusters + [cluster];
        }
        progress := progress + [(i + 1, |cities|)];
        assert Run(entries, clusters, progress, delays) == Visit(r, cities, i, chart, colors, now);
        i := i + 1;
      }
    }

    /** `clearCityChartCache`. */
    method Clear()
      modifies this
      ensures entries == map[]
    {
      entries := map[];
    }
  }
}
