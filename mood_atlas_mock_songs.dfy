/** The song record, the mood colours, the node size and the layer grouping of
    mood-atlas/src/data/mockSongs.ts (the atlas before emotion scores), with its sample
    songs as test data. */
module MoodAtlasMockSongs {
  import opened Js
  import opened MoodLayering

  /** A song of this atlas: one `mood` label instead of emotion scores. */
  datatype Song = Song(
    id: string,
    title: string,
    artist: string,
    album: Option<string>,
    energy: real,
    mood: string,
    previewUrl: Option<string>,
    duration: Option<real>,
    genre: Option<string>,
    year: Option<int>)

  /** A sample song: every field but the preview present. */
  function Mock(id: string, title: string, artist: string, album: string, energy: real, mood: string,
                duration: real, genre: string, year: int): Song
  {
    Song(id, title, artist, Some(album), energy, mood, None, Some(duration), Some(genre), Some(year))
  }

  /** `mockSongs`. */
  const MockSongs: seq<Song> := [
    Mock("1", "Midnight City", "M83", "Hurry Up, We're Dreaming", 0.9, "dreamy", 244.0, "Electronic", 2011),
    Mock("2", "Take On Me", "a-ha", "Hunting High and Low", 0.8, "bright", 225.0, "Synthpop", 1984),
    Mock("3", "Enjoy the Silence", "Depeche Mode", "Violator", 0.6, "melancholic", 271.0, "Synthpop", 1990),
    Mock("4", "Blue Monday", "New Order", "Power, Corruption & Lies", 0.85, "energetic", 452.0, "New Wave", 1983),
    Mock("5", "Sweet Dreams (Are Made of This)", "Eurythmics", "Sweet Dreams (Are Made of This)", 0.75, "dark", 216.0, "New Wave", 1983),
    Mock("6", "Tainted Love", "Soft Cell", "Non-Stop Erotic Cabaret", 0.7, "melancholic", 156.0, "Synthpop", 1981),
    Mock("7", "Don't You Want Me", "The Human League", "Dare", 0.8, "bright", 213.0, "Synthpop", 1981),
    Mock("8", "Cars", "Gary Numan", "The Pleasure Principle", 0.65, "mechanical", 211.0, "New Wave", 1979),
    Mock("9", "Video Killed the Radio Star", "The Buggles", "The Age of Plastic", 0.7, "nostalgic", 244.0, "New Wave", 1979),
    Mock("10", "Safety Dance", "Men Without Hats", "Rhythm of Youth", 0.85, "playful", 168.0, "New Wave", 1982),
    Mock("11", "Bizarre Love Triangle", "New Order", "Brotherhood", 0.75, "melancholic", 240.0, "New Wave", 1986),
    Mock("12", "West End Girls", "Pet Shop Boys", "Please", 0.6, "sophisticated", 295.0, "Synthpop", 1985),
    Mock("13", "Relax", "Frankie Goes to Hollywood", "Welcome to the Pleasuredome", 0.9, "intense", 238.0, "New Wave", 1983),
    Mock("14", "Love Will Tear Us Apart", "Joy Division", "Closer", 0.5, "melancholic", 238.0, "Post-Punk", 1980),
    Mock("15", "Just Like Heaven", "The Cure", "Kiss Me, Kiss Me, Kiss Me", 0.7, "dreamy", 209.0, "New Wave", 1987)]

  /** `moodColors`. */
  const MoodColors: map<string, string> := map[
    "dreamy" := "#ff00ff",
    "bright" := "#00ffff",
    "melancholic" := "#448aff",
    "energetic" := "#ff8800",
    "dark" := "#6b46c1",
    "mechanical" := "#888888",
    "nostalgic" := "#ff6b6b",
    "playful" := "#ffff00",
    "sophisticated" := "#00ff88",
    "intense" := "#ff0080"]

  /** `getNodeSize`: energy 0..1 maps linearly onto sizes 0.2..0.6. */
  function GetNodeSize(energy: real): (size: real)
    ensures 0.0 <= energy <= 1.0 ==> 0.2 <= size <= 0.6
    ensures energy == (size - 0.2) / 0.4
  {
    0.2 + energy * 0.4
  }

  /** More energy never gives a smaller node. */
  lemma NodeSizeMonotone(e1: real, e2: real)
    requires e1 <= e2
    ensures GetNodeSize(e1) <= GetNodeSize(e2)
  {
  }

  function MoodOf(song: Song): string
  {
    song.mood
  }

  function EnergyOf(song: Song): real
  {
    song.energy
  }

  /** The layers of some songs, grouped by mood. */
  function MoodLayers(songs: seq<Song>): seq<Layer<Song>>
  {
    Layers(songs, MoodOf, EnergyOf, MoodColors)
  }

  /** `generateMoodLayers`: songs grouped by `mood`, one layer per mood in order of first
      appearance, coloured from `moodColors`. */
  method GenerateMoodLayers(songs: seq<Song>) returns (layers: seq<Layer<Song>>)
    ensures layers == MoodLayers(songs)
    ensures |layers| == |Keys(songs, MoodOf)|
  {
    layers := MoodLayering.GenerateMoodLayers(songs, MoodOf, EnergyOf, MoodColors);
  }

  /** A layer whose mood is not one of the ten coloured moods is drawn white. */
  lemma UnknownMoodIsWhite(songs: seq<Song>, j: nat)
    requires j < |MoodLayers(songs)|
    requires MoodLayers(songs)[j].id !in MoodColors
    ensures MoodLayers(songs)[j].color == "#ffffff"
  {
    LayerIsGroup(songs, MoodOf, EnergyOf, MoodColors, j);
  }

  /** The moods of the sample songs, in table order. */
  const SampleMoods: seq<string> := ["dreamy", "bright", "melancholic", "energetic", "dark", "melancholic",
    "bright", "mechanical", "nostalgic", "playful", "melancholic", "sophisticated", "intense", "melancholic",
    "dreamy"]

  /** Songs whose moods are those of the sample table, in order. */
  predicate SampleLike(xs: seq<Song>)
  {
    |xs| == |SampleMoods| && forall i :: 0 <= i < |xs| ==> xs[i].mood == SampleMoods[i]
  }

  lemma MockSongMoods()
    ensures |MockSongs| == |SampleMoods|
    ensures forall i :: 0 <= i < |MockSongs| ==> MockSongs[i].mood == SampleMoods[i]
  {
  }

  lemma SampleKeysUpTo5(xs: seq<Song>)
    requires SampleLike(xs)
    ensures Keys(xs[..5], MoodOf) == ["dreamy", "bright", "melancholic", "energetic", "dark"]
  {
    assert xs[..1][..0] == xs[..0];
    assert Keys(xs[..1], MoodOf) == ["dreamy"];
    assert xs[..2][..1] == xs[..1];
    assert Keys(xs[..2], MoodOf) == ["dreamy", "bright"];
    assert xs[..3][..2] == xs[..2];
    assert Keys(xs[..3], MoodOf) == ["dreamy", "bright", "melancholic"];
    assert xs[..4][..3] == xs[..3];
    assert Keys(xs[..4], MoodOf) == ["dreamy", "bright", "melancholic", "energetic"];
    assert xs[..5][..4] == xs[..4];
  }

  lemma SampleKeysUpTo10(xs: seq<Song>)
    requires SampleLike(xs)
    requires Keys(xs[..5], MoodOf) == ["dreamy", "bright", "melancholic", "energetic", "dark"]
    ensures Keys(xs[..10], MoodOf) == ["dreamy", "bright", "melancholic", "energetic", "dark", "mechanical", "nostalgic", "playful"]
  {
    assert xs[..6][..5] == xs[..5];
    assert Keys(xs[..6], MoodOf) == ["dreamy", "bright", "melancholic", "energetic", "dark"];
    assert xs[..7][..6] == xs[..6];
    assert Keys(xs[..7], MoodOf) == ["dreamy", "bright", "melancholic", "energetic", "dark"];
    assert xs[..8][..7] == xs[..7];
    assert Keys(xs[..8], MoodOf) == ["dreamy", "bright", "melancholic", "energetic", "dark", "mechanical"];
    assert xs[..9][..8] == xs[..8];
    assert Keys(xs[..9], MoodOf) == ["dreamy", "bright", "melancholic", "energetic", "dark", "mechanical", "nostalgic"];
    assert xs[..10][..9] == xs[..9];
  }

  lemma SampleKeysUpTo15(xs: seq<Song>)
    requires SampleLike(xs)
    requires Keys(xs[..10], MoodOf) == ["dreamy", "bright", "melancholic", "energetic", "dark", "mechanical", "nostalgic", "playful"]
    ensures Keys(xs, MoodOf) == ["dreamy", "bright", "melancholic", "energetic", "dark", "mechanical", "nostalgic", "playful", "sophisticated", "intense"]
  {
    assert xs[..11][..10] == xs[..10];
    assert Keys(xs[..11], MoodOf) == ["dreamy", "bright", "melancholic", "energetic", "dark", "mechanical", "nostalgic", "playful"];
    assert xs[..12][..11] == xs[..11];
    assert Keys(xs[..12], MoodOf) == ["dreamy", "bright", "melancholic", "energetic", "dark", "mechanical", "nostalgic", "playful", "sophisticated"];
    assert xs[..13][..12] == xs[..12];
    assert Keys(xs[..13], MoodOf) == ["dreamy", "bright", "melancholic", "energetic", "dark", "mechanical", "nostalgic", "playful", "sophisticated", "intense"];
    assert xs[..14][..13] == xs[..13];
    assert Keys(xs[..14], MoodOf) == ["dreamy", "bright", "melancholic", "energetic", "dark", "mechanical", "nostalgic", "playful", "sophisticated", "intense"];
    assert xs[..15][..14] == xs[..14];
    assert xs[..15] == xs;
  }

  lemma SampleMelancholicUpTo5(xs: seq<Song>)
    requires SampleLike(xs)
    ensures Group(xs[..5], MoodOf, "melancholic") == [xs[2]]
  {
    assert xs[..1][..0] == xs[..0];
    assert Group(xs[..1], MoodOf, "melancholic") == [];
    assert xs[..2][..1] == xs[..1];
    assert Group(xs[..2], MoodOf, "melancholic") == [];
    assert xs[..3][..2] == xs[..2];
    assert Group(xs[..3], MoodOf, "melancholic") == [xs[2]];
    assert xs[..4][..3] == xs[..3];
    assert Group(xs[..4], MoodOf, "melancholic") == [xs[2]];
    assert xs[..5][..4] == xs[..4];
  }

  lemma SampleMelancholicUpTo10(xs: seq<Song>)
    requires SampleLike(xs)
    requires Group(xs[..5], MoodOf, "melancholic") == [xs[2]]
    ensures Group(xs[..10], MoodOf, "melancholic") == [xs[2], xs[5]]
  {
    assert xs[..6][..5] == xs[..5];
    assert Group(xs[..6], MoodOf, "melancholic") == [xs[2], xs[5]];
    assert xs[..7][..6] == xs[..6];
    assert Group(xs[..7], MoodOf, "melancholic") == [xs[2], xs[5]];
    assert xs[..8][..7] == xs[..7];
    assert Group(xs[..8], MoodOf, "melancholic") == [xs[2], xs[5]];
    assert xs[..9][..8] == xs[..8];
    assert Group(xs[..9], MoodOf, "melancholic") == [xs[2], xs[5]];
    assert xs[..10][..9] == xs[..9];
  }

  lemma SampleMelancholicUpTo15(xs: seq<Song>)
    requires SampleLike(xs)
    requires Group(xs[..10], MoodOf, "melancholic") == [xs[2], xs[5]]
    ensures Group(xs, MoodOf, "melancholic") == [xs[2], xs[5], xs[10], xs[13]]
  {
    assert xs[..11][..10] == xs[..10];
    assert Group(xs[..11], MoodOf, "melancholic") == [xs[2], xs[5], xs[10]];
    assert xs[..12][..11] == xs[..11];
    assert Group(xs[..12], MoodOf, "melancholic") == [xs[2], xs[5], xs[10]];
    assert xs[..13][..12] == xs[..12];
    assert Group(xs[..13], MoodOf, "melancholic") == [xs[2], xs[5], xs[10]];
    assert xs[..14][..13] == xs[..13];
    assert Group(xs[..14], MoodOf, "melancholic") == [xs[2], xs[5], xs[10], xs[13]];
    assert xs[..15][..14] == xs[..14];
    assert xs[..15] == xs;
  }

  /** Fifteen songs with the sample moods fall into all ten moods, dreamy first. */
  lemma SampleMoodOrder(xs: seq<Song>)
    requires SampleLike(xs)
    ensures Keys(xs, MoodOf) == ["dreamy", "bright", "melancholic", "energetic", "dark", "mechanical", "nostalgic", "playful", "sophisticated", "intense"]
  {
    SampleKeysUpTo5(xs);
    SampleKeysUpTo10(xs);
    SampleKeysUpTo15(xs);
  }

  /** Of fifteen songs with the sample moods, the third, sixth, eleventh and fourteenth
      are melancholic. */
  lemma SampleMelancholicGroup(xs: seq<Song>)
    requires SampleLike(xs)
    ensures Group(xs, MoodOf, "melancholic") == [xs[2], xs[5], xs[10], xs[13]]
  {
    SampleMelancholicUpTo5(xs);
    SampleMelancholicUpTo10(xs);
    SampleMelancholicUpTo15(xs);
  }

  /** Fifteen songs with the sample moods make ten layers, dreamy first; the third is
      melancholic, holds four songs, sits at height 20 with radius 4.6 and is drawn blue. */
  lemma SampleLayers(xs: seq<Song>)
    requires SampleLike(xs)
    ensures |MoodLayers(xs)| == 10
    ensures MoodLayers(xs)[0].id == "dreamy"
    ensures MoodLayers(xs)[2].id == "melancholic"
    ensures MoodLayers(xs)[2].totalSongs == 4
    ensures MoodLayers(xs)[2].radius == 4.6 && MoodLayers(xs)[2].height == 20.0
    ensures MoodLayers(xs)[2].color == "#448aff"
  {
    SampleMoodOrder(xs);
    SampleMelancholicGroup(xs);
    LayerIsGroup(xs, MoodOf, EnergyOf, MoodColors, 0);
    LayerIsGroup(xs, MoodOf, EnergyOf, MoodColors, 2);
  }

  /** On the sample songs themselves: ten layers, the third melancholic with four songs. */
  lemma MockLayers()
    ensures |MoodLayers(MockSongs)| == 10
    ensures MoodLayers(MockSongs)[2].id == "melancholic" && MoodLayers(MockSongs)[2].totalSongs == 4
  {
    MockSongMoods();
    SampleLayers(MockSongs);
  }
}
