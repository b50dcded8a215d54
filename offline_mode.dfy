/** Feature estimation of the offline download in mood-atlas-src/src/utils/offlineMode.ts:
    the module's own copy of the emotion classifier, and `generateAudioFeatures`, which
    turns a catalogue song's first genre into five audio features. */
module OfflineMode {
  import opened Js
  import opened Text
  import GenreTable
  import EmotionAnalysis
  import CityCharts
  import opened MusicKit

  /** The `{ energy, valence }` argument of the classifier. */
  datatype MoodFeatures = MoodFeatures(energy: real, valence: real)

  /** The module's `analyzeSongEmotion`, the same first-match rule over a record. */
  function AnalyzeSongEmotion(features: MoodFeatures): (r: string)
    ensures r == EmotionAnalysis.AnalyzeSongEmotion(features.energy, features.valence)
  {
    var energy := features.energy;
    var valence := features.valence;
    if energy > 0.7 && valence > 0.7 then "Happy"
    else if energy > 0.7 && valence > 0.4 then "Energetic"
    else if energy > 0.7 && valence <= 0.4 then "Angry"
    else if energy > 0.4 && valence > 0.7 then "Excited"
    else if energy > 0.4 && valence > 0.4 then "Romantic"
    else if energy <= 0.4 && valence > 0.5 then "Peaceful"
    else if energy <= 0.4 && valence > 0.3 then "Calm"
    else if energy > 0.3 && valence <= 0.4 then "Melancholic"
    else "Sad"
  }

  /** The five `Math.random()` draws, in the order the result's fields are evaluated. */
  datatype Draws = Draws(energy: real, valence: real, danceability: real, acousticness: real, tempo: real)

  predicate DrawsInRange(d: Draws)
  {
    0.0 <= d.energy < 1.0 && 0.0 <= d.valence < 1.0 && 0.0 <= d.danceability < 1.0
    && 0.0 <= d.acousticness < 1.0 && 0.0 <= d.tempo < 1.0
  }

  /** Base values of one branch. */
  datatype Base = Base(energy: real, valence: real, danceability: real, acousticness: real, tempo: int)

  datatype AudioFeatures = AudioFeatures(energy: real, valence: real, danceability: real, acousticness: real, tempo: int)

  /** The bases of the nineteen genre branches, in the order of the keyword table. */
  const Bases: seq<Base> := [
    Base(0.85, 0.7, 0.9, 0.05, 128),
    Base(0.75, 0.55, 0.8, 0.15, 95),
    Base(0.5, 0.65, 0.7, 0.4, 90),
    Base(0.8, 0.5, 0.4, 0.2, 130),
    Base(0.55, 0.5, 0.5, 0.45, 115),
    Base(0.65, 0.75, 0.8, 0.2, 120),
    Base(0.8, 0.8, 0.9, 0.25, 100),
    Base(0.75, 0.75, 0.85, 0.3, 105),
    Base(0.8, 0.8, 0.85, 0.15, 125),
    Base(0.5, 0.7, 0.7, 0.4, 80),
    Base(0.5, 0.6, 0.5, 0.7, 110),
    Base(0.4, 0.55, 0.35, 0.8, 100),
    Base(0.35, 0.6, 0.15, 0.95, 80),
    Base(0.25, 0.6, 0.3, 0.5, 85),
    Base(0.4, 0.5, 0.35, 0.7, 100),
    Base(0.8, 0.8, 0.9, 0.25, 115),
    Base(0.7, 0.6, 0.75, 0.1, 120),
    Base(0.6, 0.35, 0.5, 0.25, 120),
    Base(0.5, 0.5, 0.2, 0.6, 90)]

  /** The values kept when no branch matches. */
  const DefaultBase: Base := Base(0.5, 0.5, 0.5, 0.3, 120)

  /** `attributes?.genreNames?.[0]?.toLowerCase() || ''`. */
  function GenreOf(song: AppleSong): string
  {
    ToLower(OrDefault(FirstGenre(song), ""))
  }

  /** One ratio feature: the base moved by up to 0.1 either way, kept inside [0.1, 1.0]. */
  function Ratio(base: real, draw: real): (x: real)
    ensures 0.1 <= x <= 1.0
  {
    Clamp(base + (draw - 0.5) * 0.2, 0.1, 1.0)
  }

  /** `Math.floor(baseTempo + (draw - 0.5) * 40)`. */
  function Tempo(base: int, draw: real): int
  {
    Floor(base as real + (draw - 0.5) * 40.0)
  }

  /** A tempo draw in [0, 1) moves the base tempo by -20 to +19 beats. */
  lemma TempoRange(base: int, draw: real)
    requires 0.0 <= draw < 1.0
    ensures base - 20 <= Tempo(base, draw) <= base + 19
  {
  }

  /** The five features from a base and the draws. */
  function Jittered(base: Base, d: Draws): (f: AudioFeatures)
    ensures 0.1 <= f.energy <= 1.0 && 0.1 <= f.valence <= 1.0
    ensures 0.1 <= f.danceability <= 1.0 && 0.1 <= f.acousticness <= 1.0
  {
    AudioFeatures(Ratio(base.energy, d.energy), Ratio(base.valence, d.valence),
                  Ratio(base.danceability, d.danceability), Ratio(base.acousticness, d.acousticness),
                  Tempo(base.tempo, d.tempo))
  }

  /** The base of a lower-cased genre: the first branch whose keyword it includes. */
  function BaseOf(genre: string): Base
  {
    var b := GenreTable.Branch(genre);
    if b < |Bases| then Bases[b] else DefaultBase
  }

  /** `OfflineMusicManager.generateAudioFeatures`, the draws passed in. */
  function GenerateAudioFeatures(song: AppleSong, d: Draws): (f: AudioFeatures)
    ensures 0.1 <= f.energy <= 1.0 && 0.1 <= f.valence <= 1.0
    ensures 0.1 <= f.danceability <= 1.0 && 0.1 <= f.acousticness <= 1.0
  {
    Jittered(BaseOf(GenreOf(song)), d)
  }

  /** The tempo stays within 20 beats of the genre's base tempo. */
  lemma GeneratedTempoRange(song: AppleSong, d: Draws)
    requires DrawsInRange(d)
    ensures var base := BaseOf(GenreOf(song)).tempo;
            base - 20 <= GenerateAudioFeatures(song, d).tempo <= base + 19
  {
    TempoRange(BaseOf(GenreOf(song)).tempo, d.tempo);
  }

  /** A song without a genre gets the defaults. */
  lemma NoGenreDefaults(song: AppleSong, d: Draws)
    requires FirstGenre(song).None?
    ensures GenerateAudioFeatures(song, d) == Jittered(DefaultBase, d)
  {
    GenreTable.EmptyGenreMatchesNothing();
  }

  /** A genre matching no branch gets the defaults. */
  lemma UnmatchedGenreDefaults(song: AppleSong, d: Draws)
    requires forall c :: 0 <= c < GenreTable.NoMatch ==> !GenreTable.Matches(GenreOf(song), c)
    ensures GenerateAudioFeatures(song, d) == Jittered(DefaultBase, d)
  {
    GenreTable.BranchIsFirstMatch(GenreOf(song));
  }

  /** The energy and valence bases agree with the city-chart table branch by branch. */
  lemma BasesAgreeWithCityCharts(b: nat)
    requires b < |Bases|
    ensures |Bases| == |CityCharts.BaseMoods|
    ensures Bases[b].energy == CityCharts.BaseMoods[b].0 && Bases[b].valence == CityCharts.BaseMoods[b].1
  {
    if b < 10 {
      assert Bases[b].energy == CityCharts.BaseMoods[b].0 && Bases[b].valence == CityCharts.BaseMoods[b].1;
    } else {
      assert Bases[b].energy == CityCharts.BaseMoods[b].0 && Bases[b].valence == CityCharts.BaseMoods[b].1;
    }
  }

  /** Hence with the same genre and the same two draws the offline estimate and the
      city-chart estimate give the same energy and valence. */
  lemma AgreesWithCityCharts(song: AppleSong, d: Draws)
    ensures var f := GenerateAudioFeatures(song, d);
            var g := CityCharts.GenerateAudioFeatures(OrDefault(FirstGenre(song), ""), d.energy, d.valence);
            f.energy == g.energy && f.valence == g.valence
  {
    var b := GenreTable.Branch(GenreOf(song));
    if b < |Bases| {
      BasesAgreeWithCityCharts(b);
    }
  }
}
