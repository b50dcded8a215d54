/** The song record, the colour table, the node size and the layer grouping of
    mood-atlas-src/src/data/mockSongs.ts, with its sample songs as test data. */
module MockSongs {
  import opened Js
  import opened MoodLayering

  /** A song of the atlas; `None` stands for an absent optional field. */
  datatype Song = Song(
    id: string,
    title: string,
    artist: string,
    album: Option<string>,
    energy: real,
    primaryEmotion: string,
    emotionScores: map<string, real>,
    previewUrl: Option<string>,
    duration: Option<real>,
    genre: Option<string>,
    year: Option<int>,
    trackId: Option<string>,
    playCount: Option<int>,
    skipCount: Option<int>,
    completionRate: Option<int>,
    dataSource: Option<string>)

  /** A sample song: the fields the samples set, the others absent. */
  function Mock(id: string, title: string, artist: string, album: string, energy: real, primaryEmotion: string,
                emotionScores: map<string, real>, duration: real, genre: string, year: int): Song
  {
    Song(id, title, artist, Some(album), energy, primaryEmotion, emotionScores, None, Some(duration),
         Some(genre), Some(year), None, None, None, None, None)
  }

  /** `mockSongs`. */
  const MockSongs: seq<Song> := [
    Mock("1", "Midnight City", "M83", "Hurry Up, We're Dreaming", 0.9, "Energetic",
      map["Energetic" := 0.9, "Excited" := 0.7, "Happy" := 0.5, "Romantic" := 0.3, "Calm" := 0.1, "Peaceful" := 0.1, "Sad" := 0.1, "Melancholic" := 0.2, "Angry" := 0.1],
      244.0, "Electronic", 2011),
    Mock("2", "Take On Me", "a-ha", "Hunting High and Low", 0.8, "Happy",
      map["Happy" := 0.9, "Energetic" := 0.8, "Excited" := 0.7, "Romantic" := 0.4, "Calm" := 0.2, "Peaceful" := 0.1, "Sad" := 0.1, "Melancholic" := 0.1, "Angry" := 0.1],
      225.0, "Synthpop", 1984),
    Mock("3", "Enjoy the Silence", "Depeche Mode", "Violator", 0.6, "Melancholic",
      map["Melancholic" := 0.9, "Sad" := 0.7, "Calm" := 0.5, "Peaceful" := 0.4, "Romantic" := 0.3, "Happy" := 0.1, "Energetic" := 0.2, "Excited" := 0.1, "Angry" := 0.1],
      271.0, "Synthpop", 1990),
    Mock("4", "Blue Monday", "New Order", "Power, Corruption & Lies", 0.85, "Energetic",
      map["Energetic" := 0.95, "Excited" := 0.8, "Happy" := 0.6, "Angry" := 0.3, "Melancholic" := 0.3, "Romantic" := 0.2, "Calm" := 0.1, "Peaceful" := 0.1, "Sad" := 0.2],
      452.0, "New Wave", 1983),
    Mock("5", "Sweet Dreams (Are Made of This)", "Eurythmics", "Sweet Dreams (Are Made of This)", 0.75, "Energetic",
      map["Energetic" := 0.85, "Excited" := 0.6, "Melancholic" := 0.5, "Happy" := 0.4, "Angry" := 0.3, "Romantic" := 0.2, "Calm" := 0.2, "Peaceful" := 0.1, "Sad" := 0.3],
      216.0, "New Wave", 1983),
    Mock("6", "Tainted Love", "Soft Cell", "Non-Stop Erotic Cabaret", 0.7, "Sad",
      map["Sad" := 0.8, "Melancholic" := 0.7, "Energetic" := 0.6, "Romantic" := 0.4, "Angry" := 0.3, "Happy" := 0.2, "Calm" := 0.2, "Peaceful" := 0.1, "Excited" := 0.3],
      156.0, "Synthpop", 1981),
    Mock("7", "Don't You Want Me", "The Human League", "Dare", 0.8, "Excited",
      map["Excited" := 0.85, "Happy" := 0.7, "Energetic" := 0.75, "Romantic" := 0.5, "Sad" := 0.3, "Melancholic" := 0.2, "Calm" := 0.2, "Peaceful" := 0.1, "Angry" := 0.2],
      213.0, "Synthpop", 1981),
    Mock("8", "Cars", "Gary Numan", "The Pleasure Principle", 0.65, "Calm",
      map["Calm" := 0.75, "Melancholic" := 0.5, "Peaceful" := 0.4, "Energetic" := 0.5, "Sad" := 0.3, "Happy" := 0.2, "Romantic" := 0.2, "Excited" := 0.3, "Angry" := 0.1],
      211.0, "New Wave", 1979),
    Mock("9", "Video Killed the Radio Star", "The Buggles", "The Age of Plastic", 0.7, "Happy",
      map["Happy" := 0.8, "Excited" := 0.6, "Energetic" := 0.7, "Melancholic" := 0.4, "Sad" := 0.3, "Romantic" := 0.3, "Calm" := 0.3, "Peaceful" := 0.2, "Angry" := 0.1],
      244.0, "New Wave", 1979),
    Mock("10", "Safety Dance", "Men Without Hats", "Rhythm of Youth", 0.85, "Happy",
      map["Happy" := 0.95, "Excited" := 0.9, "Energetic" := 0.85, "Romantic" := 0.2, "Calm" := 0.1, "Peaceful" := 0.1, "Sad" := 0.1, "Melancholic" := 0.1, "Angry" := 0.1],
      168.0, "New Wave", 1982),
    Mock("11", "Bizarre Love Triangle", "New Order", "Brotherhood", 0.75, "Romantic",
      map["Romantic" := 0.9, "Melancholic" := 0.7, "Sad" := 0.5, "Energetic" := 0.6, "Happy" := 0.4, "Excited" := 0.5, "Calm" := 0.3, "Peaceful" := 0.2, "Angry" := 0.2],
      240.0, "New Wave", 1986),
    Mock("12", "West End Girls", "Pet Shop Boys", "Please", 0.6, "Calm",
      map["Calm" := 0.85, "Peaceful" := 0.6, "Melancholic" := 0.6, "Romantic" := 0.4, "Energetic" := 0.5, "Sad" := 0.4, "Happy" := 0.3, "Excited" := 0.3, "Angry" := 0.1],
      295.0, "Synthpop", 1985),
    Mock("13", "Relax", "Frankie Goes to Hollywood", "Welcome to the Pleasuredome", 0.9, "Excited",
      map["Excited" := 0.95, "Energetic" := 0.9, "Happy" := 0.7, "Romantic" := 0.6, "Angry" := 0.4, "Calm" := 0.1, "Peaceful" := 0.1, "Sad" := 0.1, "Melancholic" := 0.2],
      238.0, "New Wave", 1983),
    Mock("14", "Love Will Tear Us Apart", "Joy Division", "Closer", 0.5, "Sad",
      map["Sad" := 0.95, "Melancholic" := 0.9, "Romantic" := 0.5, "Calm" := 0.4, "Peaceful" := 0.3, "Angry" := 0.3, "Happy" := 0.1, "Energetic" := 0.3, "Excited" := 0.1],
      238.0, "Post-Punk", 1980),
    Mock("15", "Just Like Heaven", "The Cure", "Kiss Me, Kiss Me, Kiss Me", 0.7, "Romantic",
      map["Romantic" := 0.85, "Happy" := 0.7, "Excited" := 0.6, "Energetic" := 0.6, "Melancholic" := 0.4, "Calm" := 0.3, "Peaceful" := 0.3, "Sad" := 0.3, "Angry" := 0.1],
      209.0, "New Wave", 1987)]

  /** `emotionColors`: the eight mood-quadrant labels and the legacy classifier labels. */
  const EmotionColors: map<string, string> := map[
    "Happy" := "#ffff00",
    "Exuberant" := "#ff8800",
    "Energetic" := "#ff0080",
    "Frantic" := "#ff0000",
    "Anxious/Sad" := "#448aff",
    "Depression" := "#6b46c1",
    "Calm" := "#00ffff",
    "Contentment" := "#00ff88",
    "Excited" := "#ff0080",
    "Romantic" := "#ff00ff",
    "Peaceful" := "#00ff88",
    "Sad" := "#448aff",
    "Melancholic" := "#6b46c1",
    "Angry" := "#ff0000"]

  /** `getNodeSize`: energy 0..1 maps linearly onto sizes 0.01..0.03. */
  function GetNodeSize(energy: real): (size: real)
    ensures 0.0 <= energy <= 1.0 ==> 0.01 <= size <= 0.03
    ensures energy == (size - 0.01) / 0.02
  {
    0.01 + energy * 0.02
  }

  /** More energy never gives a smaller node. */
  lemma NodeSizeMonotone(e1: real, e2: real)
    requires e1 <= e2
    ensures GetNodeSize(e1) <= GetNodeSize(e2)
  {
  }

  function PrimaryEmotionOf(song: Song): string
  {
    song.primaryEmotion
  }

  function EnergyOf(song: Song): real
  {
    song.energy
  }

  /** The layers of some songs, grouped by primary emotion. */
  function MoodLayers(songs: seq<Song>): seq<Layer<Song>>
  {
    Layers(songs, PrimaryEmotionOf, EnergyOf, EmotionColors)
  }

  /** `generateMoodLayers`: songs grouped by `primaryEmotion`, one layer per emotion in
      order of first appearance, coloured from `emotionColors`. */
  method GenerateMoodLayers(songs: seq<Song>) returns (layers: seq<Layer<Song>>)
    ensures layers == MoodLayers(songs)
    ensures |layers| == |Keys(songs, PrimaryEmotionOf)|
  {
    layers := MoodLayering.GenerateMoodLayers(songs, PrimaryEmotionOf, EnergyOf, EmotionColors);
  }

  /** Every layer of a classifier label, and of the eight quadrant labels, gets its own
      colour rather than the white fallback. */
  lemma EmotionLayersColoured(songs: seq<Song>, j: nat)
    requires j < |MoodLayers(songs)|
    requires MoodLayers(songs)[j].id in EmotionColors
    ensures MoodLayers(songs)[j].color == EmotionColors[MoodLayers(songs)[j].id] != "#ffffff"
  {
    LayerIsGroup(songs, PrimaryEmotionOf, EnergyOf, EmotionColors, j);
  }

  /** The primary emotions of the sample songs, in table order. */
  const SampleEmotions: seq<string> := ["Energetic", "Happy", "Melancholic", "Energetic", "Energetic", "Sad",
    "Excited", "Calm", "Happy", "Happy", "Romantic", "Calm", "Excited", "Sad", "Romantic"]

  /** Songs whose primaryEmotions are those of the sample table, in order. */
  predicate SampleLike(xs: seq<Song>)
  {
    |xs| == |SampleEmotions| && forall i :: 0 <= i < |xs| ==> xs[i].primaryEmotion == SampleEmotions[i]
  }

  lemma MockSongEmotions()
    ensures |MockSongs| == |SampleEmotions|
    ensures forall i :: 0 <= i < |MockSongs| ==> MockSongs[i].primaryEmotion == SampleEmotions[i]
  {
  }

  lemma SampleKeysUpTo5(xs: seq<Song>)
    requires SampleLike(xs)
    ensures Keys(xs[..5], PrimaryEmotionOf) == ["Energetic", "Happy", "Melancholic"]
  {
    assert xs[..1][..0] == xs[..0];
    assert Keys(xs[..1], PrimaryEmotionOf) == ["Energetic"];
    assert xs[..2][..1] == xs[..1];
    assert Keys(xs[..2], PrimaryEmotionOf) == ["Energetic", "Happy"];
    assert xs[..3][..2] == xs[..2];
    assert Keys(xs[..3], PrimaryEmotionOf) == ["Energetic", "Happy", "Melancholic"];
    assert xs[..4][..3] == xs[..3];
    assert Keys(xs[..4], PrimaryEmotionOf) == ["Energetic", "Happy", "Melancholic"];
    assert xs[..5][..4] == xs[..4];
  }

  lemma SampleKeysUpTo10(xs: seq<Song>)
    requires SampleLike(xs)
    requires Keys(xs[..5], PrimaryEmotionOf) == ["Energetic", "Happy", "Melancholic"]
    ensures Keys(xs[..10], PrimaryEmotionOf) == ["Energetic", "Happy", "Melancholic", "Sad", "Excited", "Calm"]
  {
    assert xs[..6][..5] == xs[..5];
    assert Keys(xs[..6], PrimaryEmotionOf) == ["Energetic", "Happy", "Melancholic", "Sad"];
    assert xs[..7][..6] == xs[..6];
    assert Keys(xs[..7], PrimaryEmotionOf) == ["Energetic", "Happy", "Melancholic", "Sad", "Excited"];
    assert xs[..8][..7] == xs[..7];
    assert Keys(xs[..8], PrimaryEmotionOf) == ["Energetic", "Happy", "Melancholic", "Sad", "Excited", "Calm"];
    assert xs[..9][..8] == xs[..8];
    assert Keys(xs[..9], PrimaryEmotionOf) == ["Energetic", "Happy", "Melancholic", "Sad", "Excited", "Calm"];
    assert xs[..10][..9] == xs[..9];
  }

  lemma SampleKeysUpTo15(xs: seq<Song>)
    requires SampleLike(xs)
    requires Keys(xs[..10], PrimaryEmotionOf) == ["Energetic", "Happy", "Melancholic", "Sad", "Excited", "Calm"]
    ensures Keys(xs, PrimaryEmotionOf) == ["Energetic", "Happy", "Melancholic", "Sad", "Excited", "Calm", "Romantic"]
  {
    assert xs[..11][..10] == xs[..10];
    assert Keys(xs[..11], PrimaryEmotionOf) == ["Energetic", "Happy", "Melancholic", "Sad", "Excited", "Calm", "Romantic"];
    assert xs[..12][..11] == xs[..11];
    assert Keys(xs[..12], PrimaryEmotionOf) == ["Energetic", "Happy", "Melancholic", "Sad", "Excited", "Calm", "Romantic"];
    assert xs[..13][..12] == xs[..12];
    assert Keys(xs[..13], PrimaryEmotionOf) == ["Energetic", "Happy", "Melancholic", "Sad", "Excited", "Calm", "Romantic"];
    assert xs[..14][..13] == xs[..13];
    assert Keys(xs[..14], PrimaryEmotionOf) == ["Energetic", "Happy", "Melancholic", "Sad", "Excited", "Calm", "Romantic"];
    assert xs[..15][..14] == xs[..14];
    assert xs[..15] == xs;
  }

  lemma SampleEnergeticUpTo5(xs: seq<Song>)
    requires SampleLike(xs)
    ensures Group(xs[..5], PrimaryEmotionOf, "Energetic") == [xs[0], xs[3], xs[4]]
  {
    assert xs[..1][..0] == xs[..0];
    assert Group(xs[..1], PrimaryEmotionOf, "Energetic") == [xs[0]];
    assert xs[..2][..1] == xs[..1];
    assert Group(xs[..2], PrimaryEmotionOf, "Energetic") == [xs[0]];
    assert xs[..3][..2] == xs[..2];
    assert Group(xs[..3], PrimaryEmotionOf, "Energetic") == [xs[0]];
    assert xs[..4][..3] == xs[..3];
    assert Group(xs[..4], PrimaryEmotionOf, "Energetic") == [xs[0], xs[3]];
    assert xs[..5][..4] == xs[..4];
  }

  lemma SampleEnergeticUpTo10(xs: seq<Song>)
    requires SampleLike(xs)
    requires Group(xs[..5], PrimaryEmotionOf, "Energetic") == [xs[0], xs[3], xs[4]]
    ensures Group(xs[..10], PrimaryEmotionOf, "Energetic") == [xs[0], xs[3], xs[4]]
  {
    assert xs[..6][..5] == xs[..5];
    assert Group(xs[..6], PrimaryEmotionOf, "Energetic") == [xs[0], xs[3], xs[4]];
    assert xs[..7][..6] == xs[..6];
    assert Group(xs[..7], PrimaryEmotionOf, "Energetic") == [xs[0], xs[3], xs[4]];
    assert xs[..8][..7] == xs[..7];
    assert Group(xs[..8], PrimaryEmotionOf, "Energetic") == [xs[0], xs[3], xs[4]];
    assert xs[..9][..8] == xs[..8];
    assert Group(xs[..9], PrimaryEmotionOf, "Energetic") == [xs[0], xs[3], xs[4]];
    assert xs[..10][..9] == xs[..9];
  }

  lemma SampleEnergeticUpTo15(xs: seq<Song>)
    requires SampleLike(xs)
    requires Group(xs[..10], PrimaryEmotionOf, "Energetic") == [xs[0], xs[3], xs[4]]
    ensures Group(xs, PrimaryEmotionOf, "Energetic") == [xs[0], xs[3], xs[4]]
  {
    assert xs[..11][..10] == xs[..10];
    assert Group(xs[..11], PrimaryEmotionOf, "Energetic") == [xs[0], xs[3], xs[4]];
    assert xs[..12][..11] == xs[..11];
    assert Group(xs[..12], PrimaryEmotionOf, "Energetic") == [xs[0], xs[3], xs[4]];
    assert xs[..13][..12] == xs[..12];
    assert Group(xs[..13], PrimaryEmotionOf, "Energetic") == [xs[0], xs[3], xs[4]];
    assert xs[..14][..13] == xs[..13];
    assert Group(xs[..14], PrimaryEmotionOf, "Energetic") == [xs[0], xs[3], xs[4]];
    assert xs[..15][..14] == xs[..14];
    assert xs[..15] == xs;
  }

  /** Fifteen songs with the sample emotions fall into seven emotions, Energetic first. */
  lemma SampleEmotionOrder(xs: seq<Song>)
    requires SampleLike(xs)
    ensures Keys(xs, PrimaryEmotionOf)
            == ["Energetic", "Happy", "Melancholic", "Sad", "Excited", "Calm", "Romantic"]
  {
    SampleKeysUpTo5(xs);
    SampleKeysUpTo10(xs);
    SampleKeysUpTo15(xs);
  }

  /** Of fifteen songs with the sample emotions, the first, fourth and fifth are Energetic. */
  lemma SampleEnergeticGroup(xs: seq<Song>)
    requires SampleLike(xs)
    ensures Group(xs, PrimaryEmotionOf, "Energetic") == [xs[0], xs[3], xs[4]]
  {
    SampleEnergeticUpTo5(xs);
    SampleEnergeticUpTo10(xs);
    SampleEnergeticUpTo15(xs);
  }

  /** Fifteen songs with the sample emotions make seven layers; the first is Energetic,
      holds three songs, sits at height 8 with radius 4.2 and is drawn pink. */
  lemma SampleLayers(xs: seq<Song>)
    requires SampleLike(xs)
    ensures |MoodLayers(xs)| == 7
    ensures MoodLayers(xs)[0].id == "Energetic"
    ensures MoodLayers(xs)[0].totalSongs == 3
    ensures MoodLayers(xs)[0].radius == 4.2 && MoodLayers(xs)[0].height == 8.0
    ensures MoodLayers(xs)[0].color == "#ff0080"
  {
    SampleEmotionOrder(xs);
    SampleEnergeticGroup(xs);
    LayerIsGroup(xs, PrimaryEmotionOf, EnergyOf, EmotionColors, 0);
  }

  /** On the sample songs themselves: seven layers, the first Energetic with three songs. */
  lemma MockLayers()
    ensures |MoodLayers(MockSongs)| == 7
    ensures MoodLayers(MockSongs)[0].id == "Energetic" && MoodLayers(MockSongs)[0].totalSongs == 3
  {
    MockSongEmotions();
    SampleLayers(MockSongs);
  }
}
