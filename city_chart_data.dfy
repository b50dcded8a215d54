/** The static city-chart table and its lookups (mood-atlas-src/src/data/cityChartData.ts),
    together with the song, city and cluster records the chart pipelines produce. */
module CityChartData {
  import opened Js

  /** The x/y part of a cluster position; the z spread is not modelled. */
  datatype Position = Position(x: real, y: real)

  /** One charted song; `None` stands for an absent optional field. */
  datatype CityChartSong = CityChartSong(
    id: string,
    title: string,
    artist: string,
    album: Option<string>,
    energy: real,
    valence: real,
    primaryEmotion: string,
    emotionScores: map<string, real>,
    previewUrl: Option<string>,
    duration: Option<real>,
    genre: Option<string>,
    artworkUrl: Option<string>)

  /** A city record: its identity and chart playlist, then the figures a loader fills in
      once the city's chart is fetched (`None` while they are absent, as in the table). */
  datatype CityData = CityData(
    id: string,
    name: string,
    country: string,
    countryCode: string,
    playlistId: string,
    songs: Option<seq<CityChartSong>>,
    avgEnergy: Option<real>,
    avgValence: Option<real>,
    primaryEmotion: Option<string>,
    position: Option<Position>,
    color: Option<string>)

  /** Two records name the same city with the same playlist. */
  predicate SameListing(a: CityData, b: CityData)
  {
    a.id == b.id && a.name == b.name && a.country == b.country
    && a.countryCode == b.countryCode && a.playlistId == b.playlistId
  }

  /** `{ ...city, songs, avgEnergy, avgValence, primaryEmotion, position, color }`. */
  function Spread(city: CityData, songs: seq<CityChartSong>, avgEnergy: real, avgValence: real,
                  primaryEmotion: string, position: Position, color: string): CityData
  {
    city.(songs := Some(songs), avgEnergy := Some(avgEnergy), avgValence := Some(avgValence),
          primaryEmotion := Some(primaryEmotion), position := Some(position), color := Some(color))
  }

  /** A city (or region) with its songs and their aggregate mood. */
  datatype CityCluster = CityCluster(
    city: CityData,
    songs: seq<CityChartSong>,
    avgEnergy: real,
    avgValence: real,
    primaryEmotion: string,
    color: string,
    position: Position)

  /** The city record inside a cluster carries the cluster's own songs and figures. */
  predicate CarriesOwnFigures(c: CityCluster)
  {
    c.city.songs == Some(c.songs) && c.city.avgEnergy == Some(c.avgEnergy)
    && c.city.avgValence == Some(c.avgValence) && c.city.primaryEmotion == Some(c.primaryEmotion)
    && c.city.position == Some(c.position) && c.city.color == Some(c.color)
  }

  /** The cluster of `city` with its songs and figures, the figures spread into the city
      record as well. */
  function Figures(city: CityData, songs: seq<CityChartSong>, avgEnergy: real, avgValence: real,
                   primaryEmotion: string, color: string, position: Position): (c: CityCluster)
    ensures SameListing(c.city, city) && CarriesOwnFigures(c) && c.songs == songs
    ensures c.avgEnergy == avgEnergy && c.avgValence == avgValence && c.primaryEmotion == primaryEmotion
    ensures c.color == color && c.position == position
  {
    CityCluster(Spread(city, songs, avgEnergy, avgValence, primaryEmotion, position, color),
                songs, avgEnergy, avgValence, primaryEmotion, color, position)
  }

  /** The energies of the songs, in order. */
  function Energies(songs: seq<CityChartSong>): (xs: seq<real>)
    ensures |xs| == |songs| && forall i :: 0 <= i < |songs| ==> xs[i] == songs[i].energy
  {
    seq(|songs|, i requires 0 <= i < |songs| => songs[i].energy)
  }

  /** The valences of the songs, in order. */
  function Valences(songs: seq<CityChartSong>): (xs: seq<real>)
    ensures |xs| == |songs| && forall i :: 0 <= i < |songs| ==> xs[i] == songs[i].valence
  {
    seq(|songs|, i requires 0 <= i < |songs| => songs[i].valence)
  }

  // ---------------------------------------------------------------------------
  // The table

  /** Entry `i` of the table, in declaration order (the last case covers index 94). */
  function CityAt(i: int): CityData
  {
    match i
    case 0 => CityData("new-york", "New York", "United States", "US", "pl.u-KVXBkNZIap8e1G", None, None, None, None, None, None)
    case 1 => CityData("los-angeles", "Los Angeles", "United States", "US", "pl.u-6mo4lXZC6l3e9z", None, None, None, None, None, None)
    case 2 => CityData("chicago", "Chicago", "United States", "US", "pl.u-EdAVzDNI38W", None, None, None, None, None, None)
    case 3 => CityData("houston", "Houston", "United States", "US", "pl.u-XkD0vpkC3l9m", None, None, None, None, None, None)
    case 4 => CityData("miami", "Miami", "United States", "US", "pl.u-gxbllBLCp48V", None, None, None, None, None, None)
    case 5 => CityData("atlanta", "Atlanta", "United States", "US", "pl.u-MDAWvBzspx0m", None, None, None, None, None, None)
    case 6 => CityData("dallas", "Dallas", "United States", "US", "pl.u-55D6Zl9c3dPV", None, None, None, None, None, None)
    case 7 => CityData("phoenix", "Phoenix", "United States", "US", "pl.u-oZylDKNI0d6L", None, None, None, None, None, None)
    case 8 => CityData("philadelphia", "Philadelphia", "United States", "US", "pl.u-BNA6vNztLjW0", None, None, None, None, None, None)
    case 9 => CityData("san-antonio", "San Antonio", "United States", "US", "pl.u-r2yBBRNt9L4e", None, None, None, None, None, None)
    case 10 => CityData("san-diego", "San Diego", "United States", "US", "pl.u-WabZvlBC6ep9", None, None, None, None, None, None)
    case 11 => CityData("san-jose", "San Jose", "United States", "US", "pl.u-kv9lB8zI0L4m", None, None, None, None, None, None)
    case 12 => CityData("austin", "Austin", "United States", "US", "pl.u-PDb44gYI9d0L", None, None, None, None, None, None)
    case 13 => CityData("seattle", "Seattle", "United States", "US", "pl.u-yZyVV8LT6epm", None, None, None, None, None, None)
    case 14 => CityData("denver", "Denver", "United States", "US", "pl.u-NpXGGqJT0dmL", None, None, None, None, None, None)
    case 15 => CityData("boston", "Boston", "United States", "US", "pl.u-leylldWT3jpZ", None, None, None, None, None, None)
    case 16 => CityData("nashville", "Nashville", "United States", "US", "pl.u-V9D77V6s6epB", None, None, None, None, None, None)
    case 17 => CityData("detroit", "Detroit", "United States", "US", "pl.u-DdANNVlT0xq9", None, None, None, None, None, None)
    case 18 => CityData("portland", "Portland", "United States", "US", "pl.u-mJy88qJtWdpL", None, None, None, None, None, None)
    case 19 => CityData("las-vegas", "Las Vegas", "United States", "US", "pl.u-xlyNNqXtxj0z", None, None, None, None, None, None)
    case 20 => CityData("toronto", "Toronto", "Canada", "CA", "pl.u-AkAmPKLIbBqz", None, None, None, None, None, None)
    case 21 => CityData("vancouver", "Vancouver", "Canada", "CA", "pl.u-KVXBkrmIap8e", None, None, None, None, None, None)
    case 22 => CityData("montreal", "Montreal", "Canada", "CA", "pl.u-6mo4lGYC6l3e", None, None, None, None, None, None)
    case 23 => CityData("calgary", "Calgary", "Canada", "CA", "pl.u-EdAVzqWI38W0", None, None, None, None, None, None)
    case 24 => CityData("london", "London", "United Kingdom", "GB", "pl.u-XkD0vDLC3l9m", None, None, None, None, None, None)
    case 25 => CityData("manchester", "Manchester", "United Kingdom", "GB", "pl.u-gxbllrycp48V", None, None, None, None, None, None)
    case 26 => CityData("birmingham", "Birmingham", "United Kingdom", "GB", "pl.u-MDAWvPKspx0m", None, None, None, None, None, None)
    case 27 => CityData("paris", "Paris", "France", "FR", "pl.u-55D6ZLNC3dPV", None, None, None, None, None, None)
    case 28 => CityData("marseille", "Marseille", "France", "FR", "pl.u-oZylDz9I0d6L", None, None, None, None, None, None)
    case 29 => CityData("lyon", "Lyon", "France", "FR", "pl.u-BNA6vXEtLjW0", None, None, None, None, None, None)
    case 30 => CityData("berlin", "Berlin", "Germany", "DE", "pl.u-r2yBB4et9L4e", None, None, None, None, None, None)
    case 31 => CityData("munich", "Munich", "Germany", "DE", "pl.u-WabZvmYC6ep9", None, None, None, None, None, None)
    case 32 => CityData("hamburg", "Hamburg", "Germany", "DE", "pl.u-kv9lB1PI0L4m", None, None, None, None, None, None)
    case 33 => CityData("madrid", "Madrid", "Spain", "ES", "pl.u-PDb44DqI9d0L", None, None, None, None, None, None)
    case 34 => CityData("barcelona", "Barcelona", "Spain", "ES", "pl.u-yZyVVNYT6epm", None, None, None, None, None, None)
    case 35 => CityData("rome", "Rome", "Italy", "IT", "pl.u-NpXGGxXT0dmL", None, None, None, None, None, None)
    case 36 => CityData("milan", "Milan", "Italy", "IT", "pl.u-leyllz9T3jpZ", None, None, None, None, None, None)
    case 37 => CityData("amsterdam", "Amsterdam", "Netherlands", "NL", "pl.u-V9D77dEs6epB", None, None, None, None, None, None)
    case 38 => CityData("stockholm", "Stockholm", "Sweden", "SE", "pl.u-DdANNGYT0xq9", None, None, None, None, None, None)
    case 39 => CityData("copenhagen", "Copenhagen", "Denmark", "DK", "pl.u-mJy88DJtWdpL", None, None, None, None, None, None)
    case 40 => CityData("oslo", "Oslo", "Norway", "NO", "pl.u-xlyNNjYtxj0z", None, None, None, None, None, None)
    case 41 => CityData("vienna", "Vienna", "Austria", "AT", "pl.u-AkAmPVrIbBqz", None, None, None, None, None, None)
    case 42 => CityData("zurich", "Zurich", "Switzerland", "CH", "pl.u-KVXBknrIap8e", None, None, None, None, None, None)
    case 43 => CityData("brussels", "Brussels", "Belgium", "BE", "pl.u-6mo4lm9C6l3e", None, None, None, None, None, None)
    case 44 => CityData("dublin", "Dublin", "Ireland", "IE", "pl.u-EdAVzGWI38W0", None, None, None, None, None, None)
    case 45 => CityData("lisbon", "Lisbon", "Portugal", "PT", "pl.u-XkD0vqYC3l9m", None, None, None, None, None, None)
    case 46 => CityData("athens", "Athens", "Greece", "GR", "pl.u-gxblljLcp48V", None, None, None, None, None, None)
    case 47 => CityData("warsaw", "Warsaw", "Poland", "PL", "pl.u-MDAWvVzspx0m", None, None, None, None, None, None)
    case 48 => CityData("prague", "Prague", "Czech Republic", "CZ", "pl.u-55D6Z39c3dPV", None, None, None, None, None, None)
    case 49 => CityData("budapest", "Budapest", "Hungary", "HU", "pl.u-oZylDzNI0d6L", None, None, None, None, None, None)
    case 50 => CityData("tokyo", "Tokyo", "Japan", "JP", "pl.u-BNA6vXztLjW0", None, None, None, None, None, None)
    case 51 => CityData("osaka", "Osaka", "Japan", "JP", "pl.u-r2yBB1Nt9L4e", None, None, None, None, None, None)
    case 52 => CityData("seoul", "Seoul", "South Korea", "KR", "pl.u-WabZvlYC6ep9", None, None, None, None, None, None)
    case 53 => CityData("busan", "Busan", "South Korea", "KR", "pl.u-kv9lB8PI0L4m", None, None, None, None, None, None)
    case 54 => CityData("beijing", "Beijing", "China", "CN", "pl.u-PDb44gqI9d0L", None, None, None, None, None, None)
    case 55 => CityData("shanghai", "Shanghai", "China", "CN", "pl.u-yZyVV8YT6epm", None, None, None, None, None, None)
    case 56 => CityData("hong-kong", "Hong Kong", "Hong Kong", "HK", "pl.u-NpXGGq9T0dmL", None, None, None, None, None, None)
    case 57 => CityData("taipei", "Taipei", "Taiwan", "TW", "pl.u-leylld9T3jpZ", None, None, None, None, None, None)
    case 58 => CityData("singapore", "Singapore", "Singapore", "SG", "pl.u-V9D77V6s6epB", None, None, None, None, None, None)
    case 59 => CityData("bangkok", "Bangkok", "Thailand", "TH", "pl.u-DdANNVYT0xq9", None, None, None, None, None, None)
    case 60 => CityData("kuala-lumpur", "Kuala Lumpur", "Malaysia", "MY", "pl.u-mJy88qJtWdpL", None, None, None, None, None, None)
    case 61 => CityData("jakarta", "Jakarta", "Indonesia", "ID", "pl.u-xlyNNqYtxj0z", None, None, None, None, None, None)
    case 62 => CityData("manila", "Manila", "Philippines", "PH", "pl.u-AkAmPKrIbBqz", None, None, None, None, None, None)
    case 63 => CityData("ho-chi-minh", "Ho Chi Minh City", "Vietnam", "VN", "pl.u-KVXBkn9Iap8e", None, None, None, None, None, None)
    case 64 => CityData("mumbai", "Mumbai", "India", "IN", "pl.u-6mo4lm6C6l3e", None, None, None, None, None, None)
    case 65 => CityData("delhi", "Delhi", "India", "IN", "pl.u-EdAVzGqI38W0", None, None, None, None, None, None)
    case 66 => CityData("bangalore", "Bangalore", "India", "IN", "pl.u-XkD0vqzC3l9m", None, None, None, None, None, None)
    case 67 => CityData("dubai", "Dubai", "United Arab Emirates", "AE", "pl.u-gxblljzcp48V", None, None, None, None, None, None)
    case 68 => CityData("abu-dhabi", "Abu Dhabi", "United Arab Emirates", "AE", "pl.u-MDAWvVKspx0m", None, None, None, None, None, None)
    case 69 => CityData("tel-aviv", "Tel Aviv", "Israel", "IL", "pl.u-55D6Z3Jc3dPV", None, None, None, None, None, None)
    case 70 => CityData("riyadh", "Riyadh", "Saudi Arabia", "SA", "pl.u-oZylDz4I0d6L", None, None, None, None, None, None)
    case 71 => CityData("doha", "Doha", "Qatar", "QA", "pl.u-BNA6vXEtLjW0", None, None, None, None, None, None)
    case 72 => CityData("sydney", "Sydney", "Australia", "AU", "pl.u-r2yBB4Nt9L4e", None, None, None, None, None, None)
    case 73 => CityData("melbourne", "Melbourne", "Australia", "AU", "pl.u-WabZvmBC6ep9", None, None, None, None, None, None)
    case 74 => CityData("brisbane", "Brisbane", "Australia", "AU", "pl.u-kv9lB1zI0L4m", None, None, None, None, None, None)
    case 75 => CityData("perth", "Perth", "Australia", "AU", "pl.u-PDb44DWI9d0L", None, None, None, None, None, None)
    case 76 => CityData("auckland", "Auckland", "New Zealand", "NZ", "pl.u-yZyVVNLT6epm", None, None, None, None, None, None)
    case 77 => CityData("mexico-city", "Mexico City", "Mexico", "MX", "pl.u-NpXGGxJT0dmL", None, None, None, None, None, None)
    case 78 => CityData("guadalajara", "Guadalajara", "Mexico", "MX", "pl.u-leyllzWT3jpZ", None, None, None, None, None, None)
    case 79 => CityData("monterrey", "Monterrey", "Mexico", "MX", "pl.u-V9D77dKs6epB", None, None, None, None, None, None)
    case 80 => CityData("sao-paulo", "São Paulo", "Brazil", "BR", "pl.u-DdANNGLT0xq9", None, None, None, None, None, None)
    case 81 => CityData("rio-de-janeiro", "Rio de Janeiro", "Brazil", "BR", "pl.u-mJy88DWtWdpL", None, None, None, None, None, None)
    case 82 => CityData("buenos-aires", "Buenos Aires", "Argentina", "AR", "pl.u-xlyNNjztxj0z", None, None, None, None, None, None)
    case 83 => CityData("santiago", "Santiago", "Chile", "CL", "pl.u-AkAmPVLIbBqz", None, None, None, None, None, None)
    case 84 => CityData("lima", "Lima", "Peru", "PE", "pl.u-KVXBknLIap8e", None, None, None, None, None, None)
    case 85 => CityData("bogota", "Bogotá", "Colombia", "CO", "pl.u-6mo4lmJC6l3e", None, None, None, None, None, None)
    case 86 => CityData("medellin", "Medellín", "Colombia", "CO", "pl.u-EdAVzGJI38W0", None, None, None, None, None, None)
    case 87 => CityData("caracas", "Caracas", "Venezuela", "VE", "pl.u-XkD0vqLC3l9m", None, None, None, None, None, None)
    case 88 => CityData("lagos", "Lagos", "Nigeria", "NG", "pl.u-gxblljLcp48V", None, None, None, None, None, None)
    case 89 => CityData("johannesburg", "Johannesburg", "South Africa", "ZA", "pl.u-MDAWvVKspx0m", None, None, None, None, None, None)
    case 90 => CityData("cape-town", "Cape Town", "South Africa", "ZA", "pl.u-55D6Z3Nc3dPV", None, None, None, None, None, None)
    case 91 => CityData("cairo", "Cairo", "Egypt", "EG", "pl.u-oZylDzJI0d6L", None, None, None, None, None, None)
    case 92 => CityData("nairobi", "Nairobi", "Kenya", "KE", "pl.u-BNA6vX9tLjW0", None, None, None, None, None, None)
    case 93 => CityData("casablanca", "Casablanca", "Morocco", "MA", "pl.u-r2yBB1et9L4e", None, None, None, None, None, None)
    case _ => CityData("accra", "Accra", "Ghana", "GH", "pl.u-WabZvmLC6ep9", None, None, None, None, None, None)
  }

  function CityTable(): (t: seq<CityData>)
    ensures |t| == 95
  {
    seq(95, i => CityAt(i))
  }

  /** `cityCharts`. */
  const CityCharts: seq<CityData> := CityTable()

  // ---------------------------------------------------------------------------
  // Distinct ids, one table row at a time. Comparing all 95 ids at once in one proof
  // obligation is more than the solver handles within its resource limit, so each row
  // gets its own lemma (its id differs from every later row's), the IdsFreshAfterRows
  // lemmas gather them ten rows at a time, and CityIdsDistinct combines the chunks. The
  // demo selection below is split the same way.

  lemma IdFreshAfter0() ensures forall j :: 0 < j < |CityCharts| ==> CityCharts[j].id != CityCharts[0].id {}
  lemma IdFreshAfter1() ensures forall j :: 1 < j < |CityCharts| ==> CityCharts[j].id != CityCharts[1].id {}
  lemma IdFreshAfter2() ensures forall j :: 2 < j < |CityCharts| ==> CityCharts[j].id != CityCharts[2].id {}
  lemma IdFreshAfter3() ensures forall j :: 3 < j < |CityCharts| ==> CityCharts[j].id != CityCharts[3].id {}
  lemma IdFreshAfter4() ensures forall j :: 4 < j < |CityCharts| ==> CityCharts[j].id != CityCharts[4].id {}
  lemma IdFreshAfter5() ensures forall j :: 5 < j < |CityCharts| ==> CityCharts[j].id != CityCharts[5].id {}
  lemma IdFreshAfter6() ensures forall j :: 6 < j < |CityCharts| ==> CityCharts[j].id != CityCharts[6].id {}
  lemma IdFreshAfter7() ensures forall j :: 7 < j < |CityCharts| ==> CityCharts[j].id != CityCharts[7].id {}
  lemma IdFreshAfter8() ensures forall j :: 8 < j < |CityCharts| ==> CityCharts[j].id != CityCharts[8].id {}
  lemma IdFreshAfter9() ensures forall j :: 9 < j < |CityCharts| ==> CityCharts[j].id != CityCharts[9].id {}
  lemma IdFreshAfter10() ensures forall j :: 10 < j < |CityCharts| ==> CityCharts[j].id != CityCharts[10].id {}
  lemma IdFreshAfter11() ensures forall j :: 11 < j < |CityCharts| ==> CityCharts[j].id != CityCharts[11].id {}
  lemma IdFreshAfter12() ensures forall j :: 12 < j < |CityCharts| ==> CityCharts[j].id != CityCharts[12].id {}
  lemma IdFreshAfter13() ensures forall j :: 13 < j < |CityCharts| ==> CityCharts[j].id != CityCharts[13].id {}
  lemma IdFreshAfter14() ensures forall j :: 14 < j < |CityCharts| ==> CityCharts[j].id != CityCharts[14].id {}
  lemma IdFreshAfter15() ensures forall j :: 15 < j < |CityCharts| ==> CityCharts[j].id != CityCharts[15].id {}
  lemma IdFreshAfter16() ensures forall j :: 16 < j < |CityCharts| ==> CityCharts[j].id != CityCharts[16].id {}
  lemma IdFreshAfter17() ensures forall j :: 17 < j < |CityCharts| ==> CityCharts[j].id != CityCharts[17].id {}
  lemma IdFreshAfter18() ensures forall j :: 18 < j < |CityCharts| ==> CityCharts[j].id != CityCharts[18].id {}
  lemma IdFreshAfter19() ensures forall j :: 19 < j < |CityCharts| ==> CityCharts[j].id != CityCharts[19].id {}
  lemma IdFreshAfter20() ensures forall j :: 20 < j < |CityCharts| ==> CityCharts[j].id != CityCharts[20].id {}
  lemma IdFreshAfter21() ensures forall j :: 21 < j < |CityCharts| ==> CityCharts[j].id != CityCharts[21].id {}
  lemma IdFreshAfter22() ensures forall j :: 22 < j < |CityCharts| ==> CityCharts[j].id != CityCharts[22].id {}
  lemma IdFreshAfter23() ensures forall j :: 23 < j < |CityCharts| ==> CityCharts[j].id != CityCharts[23].id {}
  lemma IdFreshAfter24() ensures forall j :: 24 < j < |CityCharts| ==> CityCharts[j].id != CityCharts[24].id {}
  lemma IdFreshAfter25() ensures forall j :: 25 < j < |CityCharts| ==> CityCharts[j].id != CityCharts[25].id {}
  lemma IdFreshAfter26() ensures forall j :: 26 < j < |CityCharts| ==> CityCharts[j].id != CityCharts[26].id {}
  lemma IdFreshAfter27() ensures forall j :: 27 < j < |CityCharts| ==> CityCharts[j].id != CityCharts[27].id {}
  lemma IdFreshAfter28() ensures forall j :: 28 < j < |CityCharts| ==> CityCharts[j].id != CityCharts[28].id {}
  lemma IdFreshAfter29() ensures forall j :: 29 < j < |CityCharts| ==> CityCharts[j].id != CityCharts[29].id {}
  lemma IdFreshAfter30() ensures forall j :: 30 < j < |CityCharts| ==> CityCharts[j].id != CityCharts[30].id {}
  lemma IdFreshAfter31() ensures forall j :: 31 < j < |CityCharts| ==> CityCharts[j].id != CityCharts[31].id {}
  lemma IdFreshAfter32() ensures forall j :: 32 < j < |CityCharts| ==> CityCharts[j].id != CityCharts[32].id {}
  lemma IdFreshAfter33() ensures forall j :: 33 < j < |CityCharts| ==> CityCharts[j].id != CityCharts[33].id {}
  lemma IdFreshAfter34() ensures forall j :: 34 < j < |CityCharts| ==> CityCharts[j].id != CityCharts[34].id {}
  lemma IdFreshAfter35() ensures forall j :: 35 < j < |CityCharts| ==> CityCharts[j].id != CityCharts[35].id {}
  lemma IdFreshAfter36() ensures forall j :: 36 < j < |CityCharts| ==> CityCharts[j].id != CityCharts[36].id {}
  lemma IdFreshAfter37() ensures forall j :: 37 < j < |CityCharts| ==> CityCharts[j].id != CityCharts[37].id {}
  lemma IdFreshAfter38() ensures forall j :: 38 < j < |CityCharts| ==> CityCharts[j].id != CityCharts[38].id {}
  lemma IdFreshAfter39() ensures forall j :: 39 < j < |CityCharts| ==> CityCharts[j].id != CityCharts[39].id {}
  lemma IdFreshAfter40() ensures forall j :: 40 < j < |CityCharts| ==> CityCharts[j].id != CityCharts[40].id {}
  lemma IdFreshAfter41() ensures forall j :: 41 < j < |CityCharts| ==> CityCharts[j].id != CityCharts[41].id {}
  lemma IdFreshAfter42() ensures forall j :: 42 < j < |CityCharts| ==> CityCharts[j].id != CityCharts[42].id {}
  lemma IdFreshAfter43() ensures forall j :: 43 < j < |CityCharts| ==> CityCharts[j].id != CityCharts[43].id {}
  lemma IdFreshAfter44() ensures forall j :: 44 < j < |CityCharts| ==> CityCharts[j].id != CityCharts[44].id {}
  lemma IdFreshAfter45() ensures forall j :: 45 < j < |CityCharts| ==> CityCharts[j].id != CityCharts[45].id {}
  lemma IdFreshAfter46() ensures forall j :: 46 < j < |CityCharts| ==> CityCharts[j].id != CityCharts[46].id {}
  lemma IdFreshAfter47() ensures forall j :: 47 < j < |CityCharts| ==> CityCharts[j].id != CityCharts[47].id {}
  lemma IdFreshAfter48() ensures forall j :: 48 < j < |CityCharts| ==> CityCharts[j].id != CityCharts[48].id {}
  lemma IdFreshAfter49() ensures forall j :: 49 < j < |CityCharts| ==> CityCharts[j].id != CityCharts[49].id {}
  lemma IdFreshAfter50() ensures forall j :: 50 < j < |CityCharts| ==> CityCharts[j].id != CityCharts[50].id {}
  lemma IdFreshAfter51() ensures forall j :: 51 < j < |CityCharts| ==> CityCharts[j].id != CityCharts[51].id {}
  lemma IdFreshAfter52() ensures forall j :: 52 < j < |CityCharts| ==> CityCharts[j].id != CityCharts[52].id {}
  lemma IdFreshAfter53() ensures forall j :: 53 < j < |CityCharts| ==> CityCharts[j].id != CityCharts[53].id {}
  lemma IdFreshAfter54() ensures forall j :: 54 < j < |CityCharts| ==> CityCharts[j].id != CityCharts[54].id {}
  lemma IdFreshAfter55() ensures forall j :: 55 < j < |CityCharts| ==> CityCharts[j].id != CityCharts[55].id {}
  lemma IdFreshAfter56() ensures forall j :: 56 < j < |CityCharts| ==> CityCharts[j].id != CityCharts[56].id {}
  lemma IdFreshAfter57() ensures forall j :: 57 < j < |CityCharts| ==> CityCharts[j].id != CityCharts[57].id {}
  lemma IdFreshAfter58() ensures forall j :: 58 < j < |CityCharts| ==> CityCharts[j].id != CityCharts[58].id {}
  lemma IdFreshAfter59() ensures forall j :: 59 < j < |CityCharts| ==> CityCharts[j].id != CityCharts[59].id {}
  lemma IdFreshAfter60() ensures forall j :: 60 < j < |CityCharts| ==> CityCharts[j].id != CityCharts[60].id {}
  lemma IdFreshAfter61() ensures forall j :: 61 < j < |CityCharts| ==> CityCharts[j].id != CityCharts[61].id {}
  lemma IdFreshAfter62() ensures forall j :: 62 < j < |CityCharts| ==> CityCharts[j].id != CityCharts[62].id {}
  lemma IdFreshAfter63() ensures forall j :: 63 < j < |CityCharts| ==> CityCharts[j].id != CityCharts[63].id {}
  lemma IdFreshAfter64() ensures forall j :: 64 < j < |CityCharts| ==> CityCharts[j].id != CityCharts[64].id {}
  lemma IdFreshAfter65() ensures forall j :: 65 < j < |CityCharts| ==> CityCharts[j].id != CityCharts[65].id {}
  lemma IdFreshAfter66() ensures forall j :: 66 < j < |CityCharts| ==> CityCharts[j].id != CityCharts[66].id {}
  lemma IdFreshAfter67() ensures forall j :: 67 < j < |CityCharts| ==> CityCharts[j].id != CityCharts[67].id {}
  lemma IdFreshAfter68() ensures forall j :: 68 < j < |CityCharts| ==> CityCharts[j].id != CityCharts[68].id {}
  lemma IdFreshAfter69() ensures forall j :: 69 < j < |CityCharts| ==> CityCharts[j].id != CityCharts[69].id {}
  lemma IdFreshAfter70() ensures forall j :: 70 < j < |CityCharts| ==> CityCharts[j].id != CityCharts[70].id {}
  lemma IdFreshAfter71() ensures forall j :: 71 < j < |CityCharts| ==> CityCharts[j].id != CityCharts[71].id {}
  lemma IdFreshAfter72() ensures forall j :: 72 < j < |CityCharts| ==> CityCharts[j].id != CityCharts[72].id {}
  lemma IdFreshAfter73() ensures forall j :: 73 < j < |CityCharts| ==> CityCharts[j].id != CityCharts[73].id {}
  lemma IdFreshAfter74() ensures forall j :: 74 < j < |CityCharts| ==> CityCharts[j].id != CityCharts[74].id {}
  lemma IdFreshAfter75() ensures forall j :: 75 < j < |CityCharts| ==> CityCharts[j].id != CityCharts[75].id {}
  lemma IdFreshAfter76() ensures forall j :: 76 < j < |CityCharts| ==> CityCharts[j].id != CityCharts[76].id {}
  lemma IdFreshAfter77() ensures forall j :: 77 < j < |CityCharts| ==> CityCharts[j].id != CityCharts[77].id {}
  lemma IdFreshAfter78() ensures forall j :: 78 < j < |CityCharts| ==> CityCharts[j].id != CityCharts[78].id {}
  lemma IdFreshAfter79() ensures forall j :: 79 < j < |CityCharts| ==> CityCharts[j].id != CityCharts[79].id {}
  lemma IdFreshAfter80() ensures forall j :: 80 < j < |CityCharts| ==> CityCharts[j].id != CityCharts[80].id {}
  lemma IdFreshAfter81() ensures forall j :: 81 < j < |CityCharts| ==> CityCharts[j].id != CityCharts[81].id {}
  lemma IdFreshAfter82() ensures forall j :: 82 < j < |CityCharts| ==> CityCharts[j].id != CityCharts[82].id {}
  lemma IdFreshAfter83() ensures forall j :: 83 < j < |CityCharts| ==> CityCharts[j].id != CityCharts[83].id {}
  lemma IdFreshAfter84() ensures forall j :: 84 < j < |CityCharts| ==> CityCharts[j].id != CityCharts[84].id {}
  lemma IdFreshAfter85() ensures forall j :: 85 < j < |CityCharts| ==> CityCharts[j].id != CityCharts[85].id {}
  lemma IdFreshAfter86() ensures forall j :: 86 < j < |CityCharts| ==> CityCharts[j].id != CityCharts[86].id {}
  lemma IdFreshAfter87() ensures forall j :: 87 < j < |CityCharts| ==> CityCharts[j].id != CityCharts[87].id {}
  lemma IdFreshAfter88() ensures forall j :: 88 < j < |CityCharts| ==> CityCharts[j].id != CityCharts[88].id {}
  lemma IdFreshAfter89() ensures forall j :: 89 < j < |CityCharts| ==> CityCharts[j].id != CityCharts[89].id {}
  lemma IdFreshAfter90() ensures forall j :: 90 < j < |CityCharts| ==> CityCharts[j].id != CityCharts[90].id {}
  lemma IdFreshAfter91() ensures forall j :: 91 < j < |CityCharts| ==> CityCharts[j].id != CityCharts[91].id {}
  lemma IdFreshAfter92() ensures forall j :: 92 < j < |CityCharts| ==> CityCharts[j].id != CityCharts[92].id {}
  lemma IdFreshAfter93() ensures forall j :: 93 < j < |CityCharts| ==> CityCharts[j].id != CityCharts[93].id {}

  lemma IdsFreshAfterRows0To9()
    ensures forall i, j :: 0 <= i < 10 && i < j < |CityCharts| ==> CityCharts[j].id != CityCharts[i].id
  {
    forall i | 0 <= i < 10
      ensures forall j :: i < j < |CityCharts| ==> CityCharts[j].id != CityCharts[i].id
    {
      if i == 0 { IdFreshAfter0();
      } else if i == 1 { IdFreshAfter1();
      } else if i == 2 { IdFreshAfter2();
      } else if i == 3 { IdFreshAfter3();
      } else if i == 4 { IdFreshAfter4();
      } else if i == 5 { IdFreshAfter5();
      } else if i == 6 { IdFreshAfter6();
      } else if i == 7 { IdFreshAfter7();
      } else if i == 8 { IdFreshAfter8();
      } else { IdFreshAfter9(); }
    }
  }

  lemma IdsFreshAfterRows10To19()
    ensures forall i, j :: 10 <= i < 20 && i < j < |CityCharts| ==> CityCharts[j].id != CityCharts[i].id
  {
    forall i | 10 <= i < 20
      ensures forall j :: i < j < |CityCharts| ==> CityCharts[j].id != CityCharts[i].id
    {
      if i == 10 { IdFreshAfter10();
      } else if i == 11 { IdFreshAfter11();
      } else if i == 12 { IdFreshAfter12();
      } else if i == 13 { IdFreshAfter13();
      } else if i == 14 { IdFreshAfter14();
      } else if i == 15 { IdFreshAfter15();
      } else if i == 16 { IdFreshAfter16();
      } else if i == 17 { IdFreshAfter17();
      } else if i == 18 { IdFreshAfter18();
      } else { IdFreshAfter19(); }
    }
  }

  lemma IdsFreshAfterRows20To29()
    ensures forall i, j :: 20 <= i < 30 && i < j < |CityCharts| ==> CityCharts[j].id != CityCharts[i].id
  {
    forall i | 20 <= i < 30
      ensures forall j :: i < j < |CityCharts| ==> CityCharts[j].id != CityCharts[i].id
    {
      if i == 20 { IdFreshAfter20();
      } else if i == 21 { IdFreshAfter21();
      } else if i == 22 { IdFreshAfter22();
      } else if i == 23 { IdFreshAfter23();
      } else if i == 24 { IdFreshAfter24();
      } else if i == 25 { IdFreshAfter25();
      } else if i == 26 { IdFreshAfter26();
      } else if i == 27 { IdFreshAfter27();
      } else if i == 28 { IdFreshAfter28();
      } else { IdFreshAfter29(); }
    }
  }

  lemma IdsFreshAfterRows30To39()
    ensures forall i, j :: 30 <= i < 40 && i < j < |CityCharts| ==> CityCharts[j].id != CityCharts[i].id
  {
    forall i | 30 <= i < 40
      ensures forall j :: i < j < |CityCharts| ==> CityCharts[j].id != CityCharts[i].id
    {
      if i == 30 { IdFreshAfter30();
      } else if i == 31 { IdFreshAfter31();
      } else if i == 32 { IdFreshAfter32();
      } else if i == 33 { IdFreshAfter33();
      } else if i == 34 { IdFreshAfter34();
      } else if i == 35 { IdFreshAfter35();
      } else if i == 36 { IdFreshAfter36();
      } else if i == 37 { IdFreshAfter37();
      } else if i == 38 { IdFreshAfter38();
      } else { IdFreshAfter39(); }
    }
  }

  lemma IdsFreshAfterRows40To49()
    ensures forall i, j :: 40 <= i < 50 && i < j < |CityCharts| ==> CityCharts[j].id != CityCharts[i].id
  {
    forall i | 40 <= i < 50
      ensures forall j :: i < j < |CityCharts| ==> CityCharts[j].id != CityCharts[i].id
    {
      if i == 40 { IdFreshAfter40();
      } else if i == 41 { IdFreshAfter41();
      } else if i == 42 { IdFreshAfter42();
      } else if i == 43 { IdFreshAfter43();
      } else if i == 44 { IdFreshAfter44();
      } else if i == 45 { IdFreshAfter45();
      } else if i == 46 { IdFreshAfter46();
      } else if i == 47 { IdFreshAfter47();
      } else if i == 48 { IdFreshAfter48();
      } else { IdFreshAfter49(); }
    }
  }

  lemma IdsFreshAfterRows50To59()
    ensures forall i, j :: 50 <= i < 60 && i < j < |CityCharts| ==> CityCharts[j].id != CityCharts[i].id
  {
    forall i | 50 <= i < 60
      ensures forall j :: i < j < |CityCharts| ==> CityCharts[j].id != CityCharts[i].id
    {
      if i == 50 { IdFreshAfter50();
      } else if i == 51 { IdFreshAfter51();
      } else if i == 52 { IdFreshAfter52();
      } else if i == 53 { IdFreshAfter53();
      } else if i == 54 { IdFreshAfter54();
      } else if i == 55 { IdFreshAfter55();
      } else if i == 56 { IdFreshAfter56();
      } else if i == 57 { IdFreshAfter57();
      } else if i == 58 { IdFreshAfter58();
      } else { IdFreshAfter59(); }
    }
  }

  lemma IdsFreshAfterRows60To69()
    ensures forall i, j :: 60 <= i < 70 && i < j < |CityCharts| ==> CityCharts[j].id != CityCharts[i].id
  {
    forall i | 60 <= i < 70
      ensures forall j :: i < j < |CityCharts| ==> CityCharts[j].id != CityCharts[i].id
    {
      if i == 60 { IdFreshAfter60();
      } else if i == 61 { IdFreshAfter61();
      } else if i == 62 { IdFreshAfter62();
      } else if i == 63 { IdFreshAfter63();
      } else if i == 64 { IdFreshAfter64();
      } else if i == 65 { IdFreshAfter65();
      } else if i == 66 { IdFreshAfter66();
      } else if i == 67 { IdFreshAfter67();
      } else if i == 68 { IdFreshAfter68();
      } else { IdFreshAfter69(); }
    }
  }

  lemma IdsFreshAfterRows70To79()
    ensures forall i, j :: 70 <= i < 80 && i < j < |CityCharts| ==> CityCharts[j].id != CityCharts[i].id
  {
    forall i | 70 <= i < 80
      ensures forall j :: i < j < |CityCharts| ==> CityCharts[j].id != CityCharts[i].id
    {
      if i == 70 { IdFreshAfter70();
      } else if i == 71 { IdFreshAfter71();
      } else if i == 72 { IdFreshAfter72();
      } else if i == 73 { IdFreshAfter73();
      } else if i == 74 { IdFreshAfter74();
      } else if i == 75 { IdFreshAfter75();
      } else if i == 76 { IdFreshAfter76();
      } else if i == 77 { IdFreshAfter77();
      } else if i == 78 { IdFreshAfter78();
      } else { IdFreshAfter79(); }
    }
  }

  lemma IdsFreshAfterRows80To93()
    ensures forall i, j :: 80 <= i < 94 && i < j < |CityCharts| ==> CityCharts[j].id != CityCharts[i].id
  {
    forall i | 80 <= i < 94
      ensures forall j :: i < j < |CityCharts| ==> CityCharts[j].id != CityCharts[i].id
    {
      if i == 80 { IdFreshAfter80();
      } else if i == 81 { IdFreshAfter81();
      } else if i == 82 { IdFreshAfter82();
      } else if i == 83 { IdFreshAfter83();
      } else if i == 84 { IdFreshAfter84();
      } else if i == 85 { IdFreshAfter85();
      } else if i == 86 { IdFreshAfter86();
      } else if i == 87 { IdFreshAfter87();
      } else if i == 88 { IdFreshAfter88();
      } else if i == 89 { IdFreshAfter89();
      } else if i == 90 { IdFreshAfter90();
      } else if i == 91 { IdFreshAfter91();
      } else if i == 92 { IdFreshAfter92();
      } else { IdFreshAfter93(); }
    }
  }

  /** No two entries of the table share an id. */
  lemma CityIdsDistinct()
    ensures forall i, j :: 0 <= i < j < |CityCharts| ==> CityCharts[i].id != CityCharts[j].id
  {
    IdsFreshAfterRows0To9();
    IdsFreshAfterRows10To19();
    IdsFreshAfterRows20To29();
    IdsFreshAfterRows30To39();
    IdsFreshAfterRows40To49();
    IdsFreshAfterRows50To59();
    IdsFreshAfterRows60To69();
    IdsFreshAfterRows70To79();
    IdsFreshAfterRows80To93();
  }
  // ---------------------------------------------------------------------------
  // Lookups

  /** Index of the first entry of `cities` with this id (`Array.prototype.findIndex`). */
  function FirstWithId(cities: seq<CityData>, id: string): (r: Option<nat>)
    ensures r.Some? ==> r.value < |cities| && cities[r.value].id == id
    ensures r.Some? ==> forall j :: 0 <= j < r.value ==> cities[j].id != id
    ensures r.None? ==> forall j :: 0 <= j < |cities| ==> cities[j].id != id
  {
    if cities == [] then None
    else if cities[0].id == id then Some(0)
    else match FirstWithId(cities[1..], id)
      case None => None
      case Some(k) => Some(k + 1)
  }

  /** `getCityById`: the first table entry with this id, or `undefined`. */
  function GetCityById(id: string): (r: Option<CityData>)
    ensures r.Some? <==> exists k :: 0 <= k < |CityCharts| && CityCharts[k].id == id
    ensures r.Some? ==> r.value.id == id && r.value in CityCharts
  {
    match FirstWithId(CityCharts, id)
    case None => None
    case Some(k) => Some(CityCharts[k])
  }

  /** Looking up the id of any table entry finds that very entry. */
  lemma GetCityByIdOfEntry(k: nat)
    requires k < |CityCharts|
    ensures GetCityById(CityCharts[k].id) == Some(CityCharts[k])
  {
    CityIdsDistinct();
  }

  /** The entries of `cities` with this country code, in their order (`filter`). */
  function FilterByCountry(cities: seq<CityData>, countryCode: string): (r: seq<CityData>)
    ensures |r| <= |cities|
    ensures forall c :: c in r <==> c in cities && c.countryCode == countryCode
  {
    if cities == [] then []
    else (if cities[0].countryCode == countryCode then [cities[0]] else [])
         + FilterByCountry(cities[1..], countryCode)
  }

  /** Filtering distributes over concatenation: the output keeps table order. */
  lemma {:induction false} FilterByCountryAppend(a: seq<CityData>, b: seq<CityData>, countryCode: string)
    ensures FilterByCountry(a + b, countryCode) == FilterByCountry(a, countryCode) + FilterByCountry(b, countryCode)
  {
    if a == [] {
      assert a + b == b;
    } else {
      assert (a + b)[1..] == a[1..] + b;
      FilterByCountryAppend(a[1..], b, countryCode);
    }
  }

  /** `getCitiesByCountry`. */
  function GetCitiesByCountry(countryCode: string): (r: seq<CityData>)
    ensures forall c :: c in r <==> c in CityCharts && c.countryCode == countryCode
  {
    FilterByCountry(CityCharts, countryCode)
  }

  /** The ids `getDemoCities` picks from, in selection order. */
  const DemoSelection: seq<string> := [
    "new-york", "los-angeles", "london", "paris", "berlin",
    "tokyo", "seoul", "sydney", "mexico-city", "sao-paulo",
    "dubai", "singapore", "mumbai", "toronto", "amsterdam",
    "stockholm", "lagos", "johannesburg", "buenos-aires", "bangkok"]

  /** The `map(id => getCityById(id))` step. */
  function LookupAll(ids: seq<string>): (r: seq<Option<CityData>>)
    ensures |r| == |ids|
    ensures forall i :: 0 <= i < |ids| ==> r[i] == GetCityById(ids[i])
  {
    if ids == [] then [] else [GetCityById(ids[0])] + LookupAll(ids[1..])
  }

  /** The `filter(city => city !== undefined)` step. */
  function Defined(xs: seq<Option<CityData>>): (r: seq<CityData>)
    ensures |r| <= |xs|
    ensures (forall i :: 0 <= i < |xs| ==> xs[i].Some?) ==>
              |r| == |xs| && forall i :: 0 <= i < |xs| ==> r[i] == xs[i].value
  {
    if xs == [] then []
    else (if xs[0].Some? then [xs[0].value] else []) + Defined(xs[1..])
  }

  // Each lemma looks up two of the demo ids, for the same reason as the id lemmas above.
  lemma DemoSelectionPresent0()
    ensures forall i :: 0 <= i < 2 ==> GetCityById(DemoSelection[i]).Some?
  {
    assert CityCharts[0].id == DemoSelection[0];
    assert CityCharts[1].id == DemoSelection[1];
  }

  lemma DemoSelectionPresent1()
    ensures forall i :: 2 <= i < 4 ==> GetCityById(DemoSelection[i]).Some?
  {
    assert CityCharts[24].id == DemoSelection[2];
    assert CityCharts[27].id == DemoSelection[3];
  }

  lemma DemoSelectionPresent2()
    ensures forall i :: 4 <= i < 6 ==> GetCityById(DemoSelection[i]).Some?
  {
    assert CityCharts[30].id == DemoSelection[4];
    assert CityCharts[50].id == DemoSelection[5];
  }

  lemma DemoSelectionPresent3()
    ensures forall i :: 6 <= i < 8 ==> GetCityById(DemoSelection[i]).Some?
  {
    assert CityCharts[52].id == DemoSelection[6];
    assert CityCharts[72].id == DemoSelection[7];
  }

  lemma DemoSelectionPresent4()
    ensures forall i :: 8 <= i < 10 ==> GetCityById(DemoSelection[i]).Some?
  {
    assert CityCharts[77].id == DemoSelection[8];
    assert CityCharts[80].id == DemoSelection[9];
  }

  lemma DemoSelectionPresent5()
    ensures forall i :: 10 <= i < 12 ==> GetCityById(DemoSelection[i]).Some?
  {
    assert CityCharts[67].id == DemoSelection[10];
    assert CityCharts[58].id == DemoSelection[11];
  }

  lemma DemoSelectionPresent6()
    ensures forall i :: 12 <= i < 14 ==> GetCityById(DemoSelection[i]).Some?
  {
    assert CityCharts[64].id == DemoSelection[12];
    assert CityCharts[20].id == DemoSelection[13];
  }

  lemma DemoSelectionPresent7()
    ensures forall i :: 14 <= i < 16 ==> GetCityById(DemoSelection[i]).Some?
  {
    assert CityCharts[37].id == DemoSelection[14];
    assert CityCharts[38].id == DemoSelection[15];
  }

  lemma DemoSelectionPresent8()
    ensures forall i :: 16 <= i < 18 ==> GetCityById(DemoSelection[i]).Some?
  {
    assert CityCharts[88].id == DemoSelection[16];
    assert CityCharts[89].id == DemoSelection[17];
  }

  lemma DemoSelectionPresent9()
    ensures forall i :: 18 <= i < 20 ==> GetCityById(DemoSelection[i]).Some?
  {
    assert CityCharts[82].id == DemoSelection[18];
    assert CityCharts[59].id == DemoSelection[19];
  }

  /** Every selected id names an entry of the table. */
  lemma DemoSelectionPresent()
    ensures forall i :: 0 <= i < |DemoSelection| ==> GetCityById(DemoSelection[i]).Some?
  {
    DemoSelectionPresent0();
    DemoSelectionPresent1();
    DemoSelectionPresent2();
    DemoSelectionPresent3();
    DemoSelectionPresent4();
    DemoSelectionPresent5();
    DemoSelectionPresent6();
    DemoSelectionPresent7();
    DemoSelectionPresent8();
    DemoSelectionPresent9();
  }

  /** `getDemoCities(count)`: the first `count` selected ids (with `slice` semantics for a
      negative count), each looked up; because every selected id exists, nothing is dropped. */
  function GetDemoCities(count: int): (r: seq<CityData>)
    ensures |r| == SliceEnd(|DemoSelection|, count)
    ensures 0 <= count ==> |r| == if count < 20 then count else 20
    ensures forall i :: 0 <= i < |r| ==> r[i].id == DemoSelection[i] && r[i] in CityCharts
  {
    DemoSelectionPresent();
    Defined(LookupAll(DemoSelection[..SliceEnd(|DemoSelection|, count)]))
  }

  /** Two different cities share a chart playlist: playlist ids are not a key. */
  lemma PlaylistIdsNotUnique()
    ensures CityCharts[16].id == "nashville" && CityCharts[58].id == "singapore"
    ensures CityCharts[16].playlistId == CityCharts[58].playlistId
  {
  }
}