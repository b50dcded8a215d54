/** `OfflineMusicManager.generateAudioFeatures` of mood-atlas/src/utils/offlineMode.ts: the
    older five-branch genre table with the same jitter as the larger one in OfflineMode. */
module MoodAtlasOfflineMode {
  import opened Text
  import GenreTable
  import opened MusicKit
  import OfflineMode

  /** Keywords of the five branches, top to bottom. */
  const Keywords: seq<seq<string>> := [
    ["electronic", "dance"],
    ["rock", "metal"],
    ["pop"],
    ["jazz", "blues"],
    ["classical"]]

  const Bases: seq<OfflineMode.Base> := [
    OfflineMode.Base(0.8, 0.7, 0.9, 0.1, 128),
    OfflineMode.Base(0.7, 0.6, 0.4, 0.2, 140),
    OfflineMode.Base(0.6, 0.7, 0.8, 0.2, 120),
    OfflineMode.Base(0.4, 0.5, 0.3, 0.8, 100),
    OfflineMode.Base(0.3, 0.6, 0.2, 0.9, 80)]

  /** The base of a lower-cased genre: the first of the five branches it matches, or the
      defaults. */
  function BaseOf(genre: string): (base: OfflineMode.Base)
    ensures base == OfflineMode.DefaultBase || base in Bases
  {
    var b := GenreTable.FirstMatch(Keywords, genre);
    if b < |Bases| then Bases[b] else OfflineMode.DefaultBase
  }

  /** `generateAudioFeatures`: the release year it derives is never read, so it is not
      part of the result. */
  function GenerateAudioFeatures(song: AppleSong, d: OfflineMode.Draws): (f: OfflineMode.AudioFeatures)
    ensures 0.1 <= f.energy <= 1.0 && 0.1 <= f.valence <= 1.0
    ensures 0.1 <= f.danceability <= 1.0 && 0.1 <= f.acousticness <= 1.0
  {
    OfflineMode.Jittered(BaseOf(OfflineMode.GenreOf(song)), d)
  }

  /** The branch whose keyword the genre includes, all earlier branches failing, gives
      the base; when no branch matches the defaults stay. */
  lemma FirstMatchDecides(song: AppleSong, d: OfflineMode.Draws)
    ensures var b := GenreTable.FirstMatch(Keywords, OfflineMode.GenreOf(song));
            b < |Keywords| ==> GenreTable.MatchesIn(Keywords, OfflineMode.GenreOf(song), b)
    ensures var b := GenreTable.FirstMatch(Keywords, OfflineMode.GenreOf(song));
            b < |Keywords| ==> GenerateAudioFeatures(song, d) == OfflineMode.Jittered(Bases[b], d)
    ensures var b := GenreTable.FirstMatch(Keywords, OfflineMode.GenreOf(song));
            forall c :: 0 <= c < b ==> !GenreTable.MatchesIn(Keywords, OfflineMode.GenreOf(song), c)
    ensures (forall c :: 0 <= c < |Keywords| ==> !GenreTable.MatchesIn(Keywords, OfflineMode.GenreOf(song), c))
            ==> GenerateAudioFeatures(song, d) == OfflineMode.Jittered(OfflineMode.DefaultBase, d)
  {
    GenreTable.FirstMatchIsFirst(Keywords, OfflineMode.GenreOf(song));
  }

  /** The tempo stays within 20 beats of the branch's base tempo. */
  lemma GeneratedTempoRange(song: AppleSong, d: OfflineMode.Draws)
    requires OfflineMode.DrawsInRange(d)
    ensures var base := BaseOf(OfflineMode.GenreOf(song)).tempo;
            base - 20 <= GenerateAudioFeatures(song, d).tempo <= base + 19
  {
    OfflineMode.TempoRange(BaseOf(OfflineMode.GenreOf(song)).tempo, d.tempo);
  }

  /** Every base tempo is between 80 and 140, so every tempo between 60 and 159. */
  lemma TempoBounds(song: AppleSong, d: OfflineMode.Draws)
    requires OfflineMode.DrawsInRange(d)
    ensures 60 <= GenerateAudioFeatures(song, d).tempo <= 159
  {
    GeneratedTempoRange(song, d);
    var base := BaseOf(OfflineMode.GenreOf(song));
    assert base == OfflineMode.DefaultBase || base == Bases[0] || base == Bases[1] || base == Bases[2]
      || base == Bases[3] || base == Bases[4];
  }

  /** Only the first genre and the draws matter: two songs with the same first genre,
      whatever their release dates, ids or titles, get the same features. */
  lemma DependsOnlyOnGenre(s1: AppleSong, s2: AppleSong, d: OfflineMode.Draws)
    requires FirstGenre(s1) == FirstGenre(s2)
    ensures GenerateAudioFeatures(s1, d) == GenerateAudioFeatures(s2, d)
  {
  }

  /** A song without a genre gets the defaults. */
  lemma NoGenreDefaults(song: AppleSong, d: OfflineMode.Draws)
    requires FirstGenre(song).None?
    ensures GenerateAudioFeatures(song, d) == OfflineMode.Jittered(OfflineMode.DefaultBase, d)
  {
    GenreTable.FirstMatchIsFirst(Keywords, "");
    assert !GenreTable.MatchesIn(Keywords, "", 0) by { assert |Keywords[0][0]| > 0; }
  }

  /** "k-pop" and "j-pop", which the larger table gives a branch of their own, land in the
      pop branch here. */
  lemma KPopIsPop()
    ensures GenreTable.FirstMatch(Keywords, "k-pop") == 2
  {
    assert OccursAt("k-pop", "pop", 2);
    assert GenreTable.MatchesIn(Keywords, "k-pop", 2) by { assert Contains("k-pop", Keywords[2][0]); }
    forall c | 0 <= c < 2 ensures !GenreTable.MatchesIn(Keywords, "k-pop", c) {
      forall j | 0 <= j < |Keywords[c]| ensures !Contains("k-pop", Keywords[c][j]) {
        MissingFirstChar("k-pop", Keywords[c][j]);
      }
    }
    GenreTable.FirstMatchUnique(Keywords, "k-pop", 2);
  }
}
