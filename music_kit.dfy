/** The Apple Music catalogue record and its mapping onto the atlas's song record
    (`mapAppleMusicToSong`, mood-atlas-src/src/utils/musicKit.ts). Every field the API may
    omit is an `Option`. */
module MusicKit {
  import opened Js

  datatype Preview = Preview(url: Option<string>)

  datatype Artwork = Artwork(url: Option<string>)

  datatype Attributes = Attributes(
    name: Option<string>,
    artistName: Option<string>,
    albumName: Option<string>,
    previews: Option<seq<Preview>>,
    durationInMillis: Option<real>,
    genreNames: Option<seq<string>>,
    releaseDate: Option<string>,
    artwork: Option<Artwork>)

  /** A catalogue song: an id and possibly no attributes at all. */
  datatype AppleSong = AppleSong(id: string, attributes: Option<Attributes>)

  /** The atlas song record `mapAppleMusicToSong` builds. */
  datatype Song = Song(
    id: string,
    title: string,
    artist: string,
    album: string,
    energy: real,
    mood: string,
    previewUrl: Option<string>,
    duration: Option<int>,
    genre: Option<string>)

  /** `x || d` on an optional string: the default when the value is missing or empty. */
  function OrDefault(x: Option<string>, d: string): (r: string)
    ensures x.Some? && x.value != "" ==> r == x.value
    ensures x.None? || x.value == "" ==> r == d
  {
    if x.Some? && x.value != "" then x.value else d
  }

  /** `attributes?.name`, `attributes?.artistName` and `attributes?.albumName`. */
  function Name(song: AppleSong): Option<string>
  {
    if song.attributes.Some? then song.attributes.value.name else None
  }

  function ArtistName(song: AppleSong): Option<string>
  {
    if song.attributes.Some? then song.attributes.value.artistName else None
  }

  function AlbumName(song: AppleSong): Option<string>
  {
    if song.attributes.Some? then song.attributes.value.albumName else None
  }

  /** `attributes?.previews?.[0]?.url`. */
  function PreviewUrl(song: AppleSong): Option<string>
  {
    if song.attributes.Some? && song.attributes.value.previews.Some? && |song.attributes.value.previews.value| > 0
    then song.attributes.value.previews.value[0].url
    else None
  }

  /** `attributes?.genreNames?.[0]`. */
  function FirstGenre(song: AppleSong): Option<string>
  {
    if song.attributes.Some? && song.attributes.value.genreNames.Some? && |song.attributes.value.genreNames.value| > 0
    then Some(song.attributes.value.genreNames.value[0])
    else None
  }

  /** `attributes?.durationInMillis ? Math.round(ms / 1000) : undefined`: whole seconds,
      and absent for a missing or zero duration. */
  function DurationSeconds(song: AppleSong): (d: Option<int>)
    ensures d.Some? <==> song.attributes.Some? && song.attributes.value.durationInMillis.Some?
                         && song.attributes.value.durationInMillis.value != 0.0
    ensures d.Some? ==> var ms := song.attributes.value.durationInMillis.value;
                        d.value as real - 0.5 <= ms / 1000.0 < d.value as real + 0.5
  {
    if song.attributes.Some? && song.attributes.value.durationInMillis.Some?
       && song.attributes.value.durationInMillis.value != 0.0
    then Some(Round(song.attributes.value.durationInMillis.value / 1000.0))
    else None
  }

  /** `mapAppleMusicToSong`: the release year is not modelled. */
  function MapAppleMusicToSong(apple: AppleSong): (song: Song)
    ensures song.id == apple.id
    ensures song.title != "" && song.artist != "" && song.album != ""
    ensures song.energy == 0.5 && song.mood == "neutral"
    ensures song.title == "Unknown" <== Name(apple).None? || Name(apple).value == ""
    ensures song.artist == "Unknown Artist" <== ArtistName(apple).None? || ArtistName(apple).value == ""
    ensures song.album == "Unknown Album" <== AlbumName(apple).None? || AlbumName(apple).value == ""
    ensures song.previewUrl == PreviewUrl(apple) && song.genre == FirstGenre(apple)
  {
    Song(apple.id,
         OrDefault(Name(apple), "Unknown"),
         OrDefault(ArtistName(apple), "Unknown Artist"),
         OrDefault(AlbumName(apple), "Unknown Album"),
         0.5,
         "neutral",
         PreviewUrl(apple),
         DurationSeconds(apple),
         FirstGenre(apple))
  }

  /** A catalogue record carrying exactly the fields of an atlas song. */
  function ToApple(song: Song): AppleSong
  {
    AppleSong(song.id, Some(Attributes(
      Some(song.title),
      Some(song.artist),
      Some(song.album),
      Some([Preview(song.previewUrl)]),
      if song.duration.Some? then Some(song.duration.value as real * 1000.0) else None,
      if song.genre.Some? then Some([song.genre.value]) else None,
      None,
      None)))
  }

  /** Every atlas song with present text fields, a non-zero duration and the fixed energy
      and mood comes back unchanged through its catalogue record: the mapping loses
      nothing else. */
  lemma MapOfToApple(song: Song)
    requires song.title != "" && song.artist != "" && song.album != ""
    requires song.energy == 0.5 && song.mood == "neutral"
    requires song.duration != Some(0)
    ensures MapAppleMusicToSong(ToApple(song)) == song
  {
    if song.duration.Some? {
      RoundOfInt(song.duration.value);
      assert song.duration.value as real * 1000.0 / 1000.0 == song.duration.value as real;
    }
  }

  /** A zero duration is lost: it maps to an absent one. */
  lemma ZeroDurationDropped(apple: AppleSong)
    requires apple.attributes.Some? && apple.attributes.value.durationInMillis == Some(0.0)
    ensures MapAppleMusicToSong(apple).duration.None?
  {
  }
}
