/** The Deezer regional chart pipeline (mood-atlas-src/src/utils/deezerCharts.ts): a
    registry of regions with cultural biases, a feature estimator, colour blending, a
    proxy fallback chain and the sequential driver that turns charts into clusters. */
module DeezerCharts {
  import opened Js
  import opened Text
  import EmotionAnalysis
  import opened CityChartData

  // ---------------------------------------------------------------------------
  // Registry

  /** A chart region and the bias its dominant styles add to estimated features. */
  datatype ChartRegion = ChartRegion(
    id: string,
    name: string,
    country: string,
    endpoint: string,
    energyBias: real,
    valenceBias: real)

  /** Entry `i` of the registry, in declaration order (the last case covers index 32). */
  function RegionAt(i: int): ChartRegion
  {
    match i
    case 0 => ChartRegion("usa", "United States", "USA", "1313621735", 0.1, 0.1)
    case 1 => ChartRegion("brazil", "Brazil", "Brazil", "1116189381", 0.25, 0.2)
    case 2 => ChartRegion("mexico", "Mexico", "Mexico", "1116190041", 0.2, 0.15)
    case 3 => ChartRegion("canada", "Canada", "Canada", "1652248171", 0.05, 0.05)
    case 4 => ChartRegion("argentina", "Argentina", "Argentina", "1116188451", 0.1, -0.05)
    case 5 => ChartRegion("colombia", "Colombia", "Colombia", "1116189491", 0.25, 0.25)
    case 6 => ChartRegion("chile", "Chile", "Chile", "1116189411", 0.1, 0.1)
    case 7 => ChartRegion("uk", "United Kingdom", "UK", "1111141961", 0.0, -0.1)
    case 8 => ChartRegion("france", "France", "France", "1109890291", -0.1, 0.0)
    case 9 => ChartRegion("germany", "Germany", "Germany", "1111143121", 0.15, 0.05)
    case 10 => ChartRegion("spain", "Spain", "Spain", "1116187871", 0.2, 0.2)
    case 11 => ChartRegion("italy", "Italy", "Italy", "1116188261", 0.05, 0.15)
    case 12 => ChartRegion("netherlands", "Netherlands", "Netherlands", "1266971851", 0.2, 0.1)
    case 13 => ChartRegion("poland", "Poland", "Poland", "1116190371", 0.1, -0.05)
    case 14 => ChartRegion("sweden", "Sweden", "Sweden", "1313623485", 0.1, 0.15)
    case 15 => ChartRegion("belgium", "Belgium", "Belgium", "1116188891", 0.15, 0.05)
    case 16 => ChartRegion("portugal", "Portugal", "Portugal", "1266972111", -0.1, -0.15)
    case 17 => ChartRegion("austria", "Austria", "Austria", "1116188811", 0.0, 0.0)
    case 18 => ChartRegion("switzerland", "Switzerland", "Switzerland", "1116187791", 0.05, 0.05)
    case 19 => ChartRegion("japan", "Japan", "Japan", "1116189621", 0.15, 0.2)
    case 20 => ChartRegion("korea", "South Korea", "South Korea", "1362508115", 0.25, 0.25)
    case 21 => ChartRegion("india", "India", "India", "1116190491", 0.15, 0.2)
    case 22 => ChartRegion("indonesia", "Indonesia", "Indonesia", "1362516475", 0.1, 0.15)
    case 23 => ChartRegion("philippines", "Philippines", "Philippines", "1362517635", 0.1, 0.1)
    case 24 => ChartRegion("thailand", "Thailand", "Thailand", "1362519275", 0.1, 0.15)
    case 25 => ChartRegion("israel", "Israel", "Israel", "1116189931", 0.1, 0.1)
    case 26 => ChartRegion("turkey", "Turkey", "Turkey", "1116187951", 0.05, -0.1)
    case 27 => ChartRegion("south-africa", "South Africa", "South Africa", "1362508995", 0.2, 0.15)
    case 28 => ChartRegion("egypt", "Egypt", "Egypt", "1362507935", 0.1, 0.0)
    case 29 => ChartRegion("morocco", "Morocco", "Morocco", "1116190131", 0.1, 0.05)
    case 30 => ChartRegion("nigeria", "Nigeria", "Nigeria", "1362510935", 0.25, 0.2)
    case 31 => ChartRegion("australia", "Australia", "Australia", "1116188731", 0.05, 0.05)
    case _ => ChartRegion("new-zealand", "New Zealand", "New Zealand", "1362520355", 0.0, 0.0)
  }

  function RegionTable(): (t: seq<ChartRegion>)
    ensures |t| == 33
  {
    seq(33, i => RegionAt(i))
  }

  /** `chartRegions`, in registry order. */
  const ChartRegions: seq<ChartRegion> := RegionTable()

  /** Every registered bias stays within the documented -0.3..+0.3 range. */
  lemma RegistryBiasesInRange()
    ensures |ChartRegions| == 33
    ensures forall i :: 0 <= i < |ChartRegions| ==>
              -0.3 <= ChartRegions[i].energyBias <= 0.3 && -0.3 <= ChartRegions[i].valenceBias <= 0.3
  {
  }

  // ---------------------------------------------------------------------------
  // Classification

  /** This file's own copy of the quadrant classifier; it agrees everywhere with the
      shared one, so every region fact proved there holds here too. */
  function AnalyzeSongEmotion(energy: real, valence: real): (r: string)
    ensures r == EmotionAnalysis.AnalyzeSongEmotion(energy, valence)
    ensures r == "Angry" <==> energy > 0.7 && valence <= 0.4
    ensures r == "Sad" <==> energy <= 0.3 && valence <= 0.3
  {
    if energy > 0.7 && valence > 0.7 then "Happy"
    else if energy > 0.7 && valence > 0.4 then "Energetic"
    else if energy > 0.7 && valence <= 0.4 then "Angry"
    else if energy > 0.4 && valence > 0.7 then "Excited"
    else if energy > 0.4 && valence > 0.4 then "Romantic"
    else if energy <= 0.4 && valence > 0.5 then "Peaceful"
    else if energy <= 0.4 && valence > 0.3 then "Calm"
    else if energy > 0.3 && valence <= 0.4 then "Melancholic"
    else "Sad"
  }

  // ---------------------------------------------------------------------------
  // Feature estimation

  /** The fields of a chart track the pipeline reads (artist and album flattened). */
  datatype DeezerTrack = DeezerTrack(
    id: int,
    title: string,
    duration: real,
    preview: string,
    artistName: string,
    albumTitle: string,
    coverMedium: string)

  datatype Features = Features(energy: real, valence: real)

  /** Starting energy by length: under 3 minutes, under 4 minutes, or longer. */
  function DurationTier(duration: real): real
  {
    var minutes := duration / 60.0;
    if minutes < 3.0 then 0.65 else if minutes < 4.0 then 0.55 else 0.45
  }

  /** Estimated energy before the clamp, as one formula. */
  function EnergyBeforeClamp(track: DeezerTrack, index: nat, energyBias: real): real
  {
    DurationTier(track.duration) + (25.0 - index as real) / 150.0
    + (Rem(track.id, 100) as real / 100.0 - 0.5) * 0.15 + energyBias
  }

  /** Estimated valence before the clamp, as one formula. */
  function ValenceBeforeClamp(track: DeezerTrack, valenceBias: real): real
  {
    0.45 + Rem(Rem(track.id, 100), 50) as real / 150.0
    + (Rem(track.id * 7, 100) as real / 100.0 - 0.5) * 0.15 + valenceBias
  }

  /** `estimateAudioFeatures`: the step-by-step accumulation of the source equals the
      closed formulas above, clamped into [0.15, 0.95]. */
  function EstimateAudioFeatures(track: DeezerTrack, index: nat, energyBias: real, valenceBias: real): (f: Features)
    ensures 0.15 <= f.energy <= 0.95 && 0.15 <= f.valence <= 0.95
    ensures f.energy == Clamp(EnergyBeforeClamp(track, index, energyBias), 0.15, 0.95)
    ensures f.valence == Clamp(ValenceBeforeClamp(track, valenceBias), 0.15, 0.95)
  {
    var energy0 := DurationTier(track.duration);
    var energy1 := energy0 + (25.0 - index as real) / 150.0;
    var seed := Rem(track.id, 100);
    var energy2 := energy1 + (seed as real / 100.0 - 0.5) * 0.15;
    var valence0 := 0.45 + Rem(seed, 50) as real / 150.0;
    var seed2 := Rem(track.id * 7, 100);
    var valence1 := valence0 + (seed2 as real / 100.0 - 0.5) * 0.15;
    var energy3 := energy2 + energyBias;
    var valence2 := valence1 + valenceBias;
    Features(Clamp(energy3, 0.15, 0.95), Clamp(valence2, 0.15, 0.95))
  }

  /** Raising the energy bias never lowers the estimated energy, and leaves valence alone. */
  lemma EnergyBiasMonotone(track: DeezerTrack, index: nat, bias1: real, bias2: real, valenceBias: real)
    requires bias1 <= bias2
    ensures EstimateAudioFeatures(track, index, bias1, valenceBias).energy
            <= EstimateAudioFeatures(track, index, bias2, valenceBias).energy
    ensures EstimateAudioFeatures(track, index, bias1, valenceBias).valence
            == EstimateAudioFeatures(track, index, bias2, valenceBias).valence
  {
    ClampMonotone(EnergyBeforeClamp(track, index, bias1), EnergyBeforeClamp(track, index, bias2), 0.15, 0.95);
  }

  /** Raising the valence bias never lowers the estimated valence, and leaves energy alone. */
  lemma ValenceBiasMonotone(track: DeezerTrack, index: nat, energyBias: real, bias1: real, bias2: real)
    requires bias1 <= bias2
    ensures EstimateAudioFeatures(track, index, energyBias, bias1).valence
            <= EstimateAudioFeatures(track, index, energyBias, bias2).valence
    ensures EstimateAudioFeatures(track, index, energyBias, bias1).energy
            == EstimateAudioFeatures(track, index, energyBias, bias2).energy
  {
    ClampMonotone(ValenceBeforeClamp(track, bias1), ValenceBeforeClamp(track, bias2), 0.15, 0.95);
  }

  /** A later chart position never raises the estimated energy. */
  lemma EnergyFallsWithRank(track: DeezerTrack, index1: nat, index2: nat, energyBias: real, valenceBias: real)
    requires index1 <= index2
    ensures EstimateAudioFeatures(track, index2, energyBias, valenceBias).energy
            <= EstimateAudioFeatures(track, index1, energyBias, valenceBias).energy
  {
    ClampMonotone(EnergyBeforeClamp(track, index2, energyBias), EnergyBeforeClamp(track, index1, energyBias), 0.15, 0.95);
  }

  /** A worked case: the top track (3m20s, id 42) of a region biased like South Korea
      saturates both features and reads as Happy; unbiased it is Happy as well. */
  lemma TopTrackExample(track: DeezerTrack)
    requires track.id == 42 && track.duration == 200.0
    ensures EstimateAudioFeatures(track, 0, 0.25, 0.25) == Features(0.95, 0.95)
    ensures AnalyzeSongEmotion(0.95, 0.95) == "Happy"
    ensures EstimateAudioFeatures(track, 0, 0.0, 0.0).energy > 0.7
    ensures EstimateAudioFeatures(track, 0, 0.0, 0.0).valence > 0.7
  {
    assert Rem(42, 100) == 42 && Rem(42, 50) == 42 && Rem(294, 100) == 94;
  }

  // ---------------------------------------------------------------------------
  // Colours

  /** `#rrggbb` with hexadecimal digits of either case. */
  predicate IsHexColor(c: string)
  {
    |c| == 7 && c[0] == '#' && forall i :: 1 <= i < 7 ==> IsHexDigit(c[i])
  }

  /** `#rrggbb` with lowercase hexadecimal digits, the form `lerpColor` produces. */
  predicate IsLowerHexColor(c: string)
  {
    |c| == 7 && c[0] == '#' && forall i :: 1 <= i < 7 ==> IsLowerHexDigit(c[i])
  }

  lemma LowerHexColorIsHexColor(c: string)
    requires IsLowerHexColor(c)
    ensures IsHexColor(c)
  {
    forall i | 1 <= i < 7 ensures IsHexDigit(c[i]) {
      LowerHexDigitIndex(c[i]);
    }
  }

  /** Channel `k` (0 red, 1 green, 2 blue) of a colour: `parseInt(c.slice(..), 16)`. */
  function Channel(c: string, k: nat): (v: nat)
    requires IsHexColor(c) && k < 3
    ensures v < 256
  {
    ParseHexByte(c[1 + 2 * k..3 + 2 * k])
  }

  /** `Math.round(a + (b - a) * t)`. */
  function Mix(a: nat, b: nat, t: real): int
  {
    Round(Lerp(a as real, b as real, t))
  }

  /** For `t` in [0, 1] the mixed channel lies between the two endpoint channels. */
  lemma MixBetween(a: nat, b: nat, t: real)
    requires 0.0 <= t <= 1.0
    ensures a <= b ==> a <= Mix(a, b, t) <= b
    ensures b <= a ==> b <= Mix(a, b, t) <= a
  {
  }

  /** `#${r.toString(16).padStart(2, '0')}${g...}${b...}`. */
  function RenderRgb(r: int, g: int, b: int): (c: string)
    ensures |c| >= 7 && c[0] == '#'
  {
    "#" + PadStart2(IntToHex(r)) + PadStart2(IntToHex(g)) + PadStart2(IntToHex(b))
  }

  /** Three lowercase digit pairs after a `#` form a lowercase colour with those pairs as channels. */
  lemma ColorOfPairs(x: string, y: string, z: string)
    requires |x| == 2 && IsLowerHexDigit(x[0]) && IsLowerHexDigit(x[1])
    requires |y| == 2 && IsLowerHexDigit(y[0]) && IsLowerHexDigit(y[1])
    requires |z| == 2 && IsLowerHexDigit(z[0]) && IsLowerHexDigit(z[1])
    ensures IsLowerHexColor("#" + x + y + z) && IsHexColor("#" + x + y + z)
    ensures ("#" + x + y + z)[1..3] == x && ("#" + x + y + z)[3..5] == y && ("#" + x + y + z)[5..7] == z
  {
    var c := "#" + x + y + z;
    assert c == ['#', x[0], x[1], y[0], y[1], z[0], z[1]];
    LowerHexColorIsHexColor(c);
  }

  /** Three bytes render as a lowercase colour whose channels read back as those bytes. */
  lemma RenderRgbOfBytes(r: nat, g: nat, b: nat)
    requires r < 256 && g < 256 && b < 256
    ensures IsLowerHexColor(RenderRgb(r, g, b)) && IsHexColor(RenderRgb(r, g, b))
    ensures Channel(RenderRgb(r, g, b), 0) == r
    ensures Channel(RenderRgb(r, g, b), 1) == g
    ensures Channel(RenderRgb(r, g, b), 2) == b
  {
    PaddedHexOfByte(r);
    PaddedHexOfByte(g);
    PaddedHexOfByte(b);
    ColorOfPairs(FormatHexByte(r), FormatHexByte(g), FormatHexByte(b));
    ParseFormatHexByte(r);
    ParseFormatHexByte(g);
    ParseFormatHexByte(b);
  }

  /** Channel `k` of a lowercase colour, written back as two digits, is its own digit pair. */
  lemma FormatChannel(c: string, k: nat)
    requires IsLowerHexColor(c) && k < 3
    ensures IsHexColor(c) && PadStart2(IntToHex(Channel(c, k))) == c[1 + 2 * k..3 + 2 * k]
  {
    LowerHexColorIsHexColor(c);
    var h := c[1 + 2 * k..3 + 2 * k];
    assert h[0] == c[1 + 2 * k] && h[1] == c[2 + 2 * k];
    FormatParseHexByte(h);
    PaddedHexOfByte(Channel(c, k));
  }

  /** A lowercase colour is rendered back from its own channels. */
  lemma RenderRgbOfChannels(c: string)
    requires IsLowerHexColor(c)
    ensures IsHexColor(c) && RenderRgb(Channel(c, 0), Channel(c, 1), Channel(c, 2)) == c
  {
    FormatChannel(c, 0);
    FormatChannel(c, 1);
    FormatChannel(c, 2);
    SplitColor(c);
  }

  /** A seven-character colour is its `#` followed by its three digit pairs. */
  lemma SplitColor(c: string)
    requires |c| == 7 && c[0] == '#'
    ensures c == "#" + c[1..3] + c[3..5] + c[5..7]
  {
    assert c == c[..1] + c[1..3] + c[3..5] + c[5..7];
  }

  /** `lerpColor`: each channel mixed and rendered in hexadecimal. */
  function LerpColor(color1: string, color2: string, t: real): string
    requires IsHexColor(color1) && IsHexColor(color2)
  {
    RenderRgb(Mix(Channel(color1, 0), Channel(color2, 0), t),
              Mix(Channel(color1, 1), Channel(color2, 1), t),
              Mix(Channel(color1, 2), Channel(color2, 2), t))
  }

  /** For `t` in [0, 1] the blend is a well-formed lowercase colour whose channels are the
      mixed endpoint channels, each between the two endpoints' values. */
  lemma LerpColorBetween(color1: string, color2: string, t: real)
    requires IsHexColor(color1) && IsHexColor(color2) && 0.0 <= t <= 1.0
    ensures IsLowerHexColor(LerpColor(color1, color2, t)) && IsHexColor(LerpColor(color1, color2, t))
    ensures ChannelBetween(color1, color2, LerpColor(color1, color2, t), 0)
    ensures ChannelBetween(color1, color2, LerpColor(color1, color2, t), 1)
    ensures ChannelBetween(color1, color2, LerpColor(color1, color2, t), 2)
  {
    var r := Mix(Channel(color1, 0), Channel(color2, 0), t);
    var g := Mix(Channel(color1, 1), Channel(color2, 1), t);
    var b := Mix(Channel(color1, 2), Channel(color2, 2), t);
    MixBetween(Channel(color1, 0), Channel(color2, 0), t);
    MixBetween(Channel(color1, 1), Channel(color2, 1), t);
    MixBetween(Channel(color1, 2), Channel(color2, 2), t);
    RenderRgbOfBytes(r, g, b);
  }

  /** Channel `k` of `c` lies between channel `k` of `c1` and of `c2`. */
  predicate ChannelBetween(c1: string, c2: string, c: string, k: nat)
    requires IsHexColor(c1) && IsHexColor(c2) && IsHexColor(c) && k < 3
  {
    (Channel(c1, k) <= Channel(c2, k) ==> Channel(c1, k) <= Channel(c, k) <= Channel(c2, k)) &&
    (Channel(c2, k) <= Channel(c1, k) ==> Channel(c2, k) <= Channel(c, k) <= Channel(c1, k))
  }

  /** `lerpColor(c, d, 0) == c` for a lowercase `c`. */
  lemma LerpColorAtZero(color1: string, color2: string)
    requires IsLowerHexColor(color1) && IsHexColor(color2)
    ensures IsHexColor(color1) && LerpColor(color1, color2, 0.0) == color1
  {
    RenderRgbOfChannels(color1);
    LerpEnds(Channel(color1, 0) as real, Channel(color2, 0) as real);
    RoundOfInt(Channel(color1, 0));
    LerpEnds(Channel(color1, 1) as real, Channel(color2, 1) as real);
    RoundOfInt(Channel(color1, 1));
    LerpEnds(Channel(color1, 2) as real, Channel(color2, 2) as real);
    RoundOfInt(Channel(color1, 2));
  }

  /** `lerpColor(c, d, 1) == d` for a lowercase `d`. */
  lemma LerpColorAtOne(color1: string, color2: string)
    requires IsHexColor(color1) && IsLowerHexColor(color2)
    ensures IsHexColor(color2) && LerpColor(color1, color2, 1.0) == color2
  {
    RenderRgbOfChannels(color2);
    LerpEnds(Channel(color1, 0) as real, Channel(color2, 0) as real);
    RoundOfInt(Channel(color2, 0));
    LerpEnds(Channel(color1, 1) as real, Channel(color2, 1) as real);
    RoundOfInt(Channel(color2, 1));
    LerpEnds(Channel(color1, 2) as real, Channel(color2, 2) as real);
    RoundOfInt(Channel(color2, 2));
  }

  const TopLeft: string := "#ff0000"
  const TopRight: string := "#ffff00"
  const BottomLeft: string := "#448aff"
  const BottomRight: string := "#00ffff"

  lemma CornerColorsWellFormed()
    ensures IsLowerHexColor(TopLeft) && IsLowerHexColor(TopRight)
    ensures IsLowerHexColor(BottomLeft) && IsLowerHexColor(BottomRight)
    ensures IsHexColor(TopLeft) && IsHexColor(TopRight) && IsHexColor(BottomLeft) && IsHexColor(BottomRight)
  {
    LowerHexColorIsHexColor(TopLeft);
    LowerHexColorIsHexColor(TopRight);
    LowerHexColorIsHexColor(BottomLeft);
    LowerHexColorIsHexColor(BottomRight);
  }

  /** `getQuadrantColor`: blend along the top and bottom edges by valence, then between
      them by energy. */
  function GetQuadrantColor(avgEnergy: real, avgValence: real): (c: string)
    requires 0.0 <= avgValence <= 1.0
    ensures 0.0 <= avgEnergy <= 1.0 ==> IsLowerHexColor(c)
  {
    CornerColorsWellFormed();
    LerpColorBetween(TopLeft, TopRight, avgValence);
    LerpColorBetween(BottomLeft, BottomRight, avgValence);
    var topColor := LerpColor(TopLeft, TopRight, avgValence);
    var bottomColor := LerpColor(BottomLeft, BottomRight, avgValence);
    LowerHexColorIsHexColor(topColor);
    LowerHexColorIsHexColor(bottomColor);
    if 0.0 <= avgEnergy <= 1.0 then
      LerpColorBetween(bottomColor, topColor, avgEnergy);
      LerpColor(bottomColor, topColor, avgEnergy)
    else
      LerpColor(bottomColor, topColor, avgEnergy)
  }

  /** The four corners of the mood square get exactly the four corner colours. */
  lemma QuadrantCorners()
    ensures GetQuadrantColor(0.0, 0.0) == BottomLeft
    ensures GetQuadrantColor(0.0, 1.0) == BottomRight
    ensures GetQuadrantColor(1.0, 0.0) == TopLeft
    ensures GetQuadrantColor(1.0, 1.0) == TopRight
  {
    CornerColorsWellFormed();
    LerpColorAtZero(TopLeft, TopRight);
    LerpColorAtZero(BottomLeft, BottomRight);
    LerpColorAtOne(TopLeft, TopRight);
    LerpColorAtOne(BottomLeft, BottomRight);
    LerpColorAtZero(BottomLeft, TopLeft);
    LerpColorAtZero(BottomRight, TopRight);
    LerpColorAtOne(BottomLeft, TopLeft);
    LerpColorAtOne(BottomRight, TopRight);
  }

  // ---------------------------------------------------------------------------
  // Position

  /** `calculatePosition`, x and y: valence and energy mapped linearly onto [-50, 50]. */
  function CalculatePosition(avgEnergy: real, avgValence: real, index: nat, totalRegions: nat): (p: Position)
    ensures avgValence == 0.5 + p.x / 100.0 && avgEnergy == 0.5 + p.y / 100.0
    ensures 0.0 <= avgValence <= 1.0 ==> -50.0 <= p.x <= 50.0
    ensures 0.0 <= avgEnergy <= 1.0 ==> -50.0 <= p.y <= 50.0
  {
    Position((avgValence - 0.5) * 100.0, (avgEnergy - 0.5) * 100.0)
  }

  // ---------------------------------------------------------------------------
  // Fetching through the proxy chain

  /** `CORS_PROXIES`, tried in this order. */
  const CorsProxies: seq<string> := ["https://corsproxy.io/?", "https://api.allorigins.win/raw?url="]

  /** What `response.json()` yields: a payload whose `data` may be missing, or a parse failure. */
  datatype Body = Unparsable | Json(data: Option<seq<DeezerTrack>>)

  datatype Response = Response(ok: bool, body: Body)

  /** The outcome of one `fetch`: it throws, or it returns a response. */
  datatype FetchOutcome = Threw | Got(response: Response)

  predicate Succeeds(o: FetchOutcome)
  {
    o.Got? && o.response.ok
  }

  /** The first proxy, at or after `from`, through which fetching `url` gives an ok response. */
  function FirstOkProxy(url: string, network: (string, string) -> FetchOutcome, from: nat): (r: Option<nat>)
    ensures r.Some? ==> from <= r.value < |CorsProxies| && Succeeds(network(CorsProxies[r.value], url))
    ensures forall k :: from <= k < |CorsProxies| && (r.None? || k < r.value)
                        ==> !Succeeds(network(CorsProxies[k], url))
    decreases |CorsProxies| - from
  {
    if from >= |CorsProxies| then None
    else if Succeeds(network(CorsProxies[from], url)) then Some(from)
    else FirstOkProxy(url, network, from + 1)
  }

  /** `fetchWithCorsProxy`: proxies are tried strictly in list order; the first ok response
      is returned after `attempts` fetches, and the call fails only once every proxy threw
      or answered not-ok. `network(proxy, url)` stands for fetching `url` through `proxy`. */
  method FetchWithCorsProxy(url: string, network: (string, string) -> FetchOutcome)
    returns (result: Result<Response>, attempts: nat)
    ensures match FirstOkProxy(url, network, 0)
            case Some(k) => result == Ok(network(CorsProxies[k], url).response) && attempts == k + 1
            case None => result == Err("All CORS proxies failed") && attempts == |CorsProxies|
    ensures result.Ok? ==> result.value.ok
  {
    attempts := 0;
    var i := 0;
    while i < |CorsProxies|
      invariant 0 <= i <= |CorsProxies| && attempts == i
      invariant FirstOkProxy(url, network, 0) == FirstOkProxy(url, network, i)
    {
      var outcome := network(CorsProxies[i], url);
      attempts := attempts + 1;
      if outcome.Got? && outcome.response.ok {
        return Ok(outcome.response), attempts;
      }
      i := i + 1;
    }
    result := Err("All CORS proxies failed");
  }

  /** The playlist request for a region. */
  function ChartUrl(region: ChartRegion): string
  {
    "https://api.deezer.com/playlist/" + region.endpoint + "/tracks?limit=25"
  }

  /** One track of a region's chart, at chart position `index`, as a song. */
  function TrackToSong(track: DeezerTrack, index: nat, region: ChartRegion): (s: CityChartSong)
    ensures 0.15 <= s.energy <= 0.95 && 0.15 <= s.valence <= 0.95
    ensures s.primaryEmotion == EmotionAnalysis.AnalyzeSongEmotion(s.energy, s.valence)
    ensures s.emotionScores == EmotionAnalysis.EmotionScores(s.energy, s.valence)
    ensures s.id == "dz-" + IntToString(track.id)
  {
    var f := EstimateAudioFeatures(track, index, region.energyBias, region.valenceBias);
    CityChartSong(
      "dz-" + IntToString(track.id), track.title, track.artistName, Some(track.albumTitle),
      f.energy, f.valence, AnalyzeSongEmotion(f.energy, f.valence),
      EmotionAnalysis.EmotionScores(f.energy, f.valence),
      Some(track.preview), Some(track.duration), None, Some(track.coverMedium))
  }

  /** `tracks.map((track, index) => ...)`. */
  function SongsOf(tracks: seq<DeezerTrack>, region: ChartRegion): (songs: seq<CityChartSong>)
    ensures |songs| == |tracks|
    ensures forall i :: 0 <= i < |tracks| ==> songs[i] == TrackToSong(tracks[i], i, region)
  {
    seq(|tracks|, i requires 0 <= i < |tracks| => TrackToSong(tracks[i], i, region))
  }

  /** Every song's mood lies in the range the estimator produces. */
  predicate SongsInRange(songs: seq<CityChartSong>)
  {
    forall s :: s in songs ==> 0.15 <= s.energy <= 0.95 && 0.15 <= s.valence <= 0.95
  }

  /** The songs `fetchRegionChart` yields: empty when every proxy fails, when the body does
      not parse, or when it has no `data`; otherwise one song per track, in chart order. */
  function RegionChart(region: ChartRegion, network: (string, string) -> FetchOutcome): (songs: seq<CityChartSong>)
    ensures FirstOkProxy(ChartUrl(region), network, 0).None? ==> songs == []
    ensures SongsInRange(songs)
  {
    match FirstOkProxy(ChartUrl(region), network, 0)
    case None => []
    case Some(k) =>
      match network(CorsProxies[k], ChartUrl(region)).response.body
      case Unparsable => []
      case Json(None) => []
      case Json(Some(tracks)) => SongsOf(tracks, region)
  }

  /** `fetchRegionChart`: every failure is caught and becomes the empty chart. */
  method FetchRegionChart(region: ChartRegion, network: (string, string) -> FetchOutcome)
    returns (songs: seq<CityChartSong>)
    ensures songs == RegionChart(region, network)
  {
    var result, _ := FetchWithCorsProxy(ChartUrl(region), network);
    if result.Err? {
      return [];
    }
    var response := result.value;
    if !response.ok {
      // The proxy chain only ever returns ok responses.
      assert false;
    }
    match response.body {
      case Unparsable =>
        songs := [];
      case Json(data) =>
        var tracks := if data.Some? then data.value else [];
        songs := SongsOf(tracks, region);
    }
  }

  // ---------------------------------------------------------------------------
  // The driver

  /** The cluster built for region number `index` from its non-empty chart: average mood,
      its label, colour and position, and the city record with the upper-cased id as code. */
  function MakeCluster(region: ChartRegion, songs: seq<CityChartSong>, index: nat, total: nat): (c: CityCluster)
    requires |songs| > 0
    requires SongsInRange(songs)
    ensures c.songs == songs && c.city.id == region.id && c.city.name == region.name
            && c.city.country == region.country && c.city.countryCode == ToUpper(region.id)
            && c.city.playlistId == region.endpoint
    ensures CarriesOwnFigures(c)
    ensures c.avgEnergy == Sum(Energies(songs)) / |songs| as real
            && c.avgValence == Sum(Valences(songs)) / |songs| as real
    ensures 0.15 <= c.avgEnergy <= 0.95 && 0.15 <= c.avgValence <= 0.95
    ensures c.primaryEmotion == EmotionAnalysis.AnalyzeSongEmotion(c.avgEnergy, c.avgValence)
    ensures IsLowerHexColor(c.color) && c.color == GetQuadrantColor(c.avgEnergy, c.avgValence)
    ensures c.position == CalculatePosition(c.avgEnergy, c.avgValence, index, total)
  {
    MeanBounds(Energies(songs), 0.15, 0.95);
    MeanBounds(Valences(songs), 0.15, 0.95);
    var avgEnergy := Sum(Energies(songs)) / |songs| as real;
    var avgValence := Sum(Valences(songs)) / |songs| as real;
    Figures(CityData(region.id, region.name, region.country, ToUpper(region.id), region.endpoint,
                     None, None, None, None, None, None),
            songs, avgEnergy, avgValence, AnalyzeSongEmotion(avgEnergy, avgValence),
            GetQuadrantColor(avgEnergy, avgValence), CalculatePosition(avgEnergy, avgValence, index, total))
  }

  /** Every song of every chart has its mood in the estimator's range. */
  predicate ChartsInRange(charts: seq<seq<CityChartSong>>)
  {
    forall i :: 0 <= i < |charts| ==> SongsInRange(charts[i])
  }

  /** The chart each region's fetch yields, in registry order. */
  function AllCharts(regions: seq<ChartRegion>, network: (string, string) -> FetchOutcome): (charts: seq<seq<CityChartSong>>)
    ensures |charts| == |regions| && ChartsInRange(charts)
    decreases |regions|
  {
    if |regions| == 0 then []
    else AllCharts(regions[..|regions| - 1], network) + [RegionChart(regions[|regions| - 1], network)]
  }

  /** Entry `i` of the charts is what fetching region `i` yields. */
  lemma {:induction false} AllChartsAt(regions: seq<ChartRegion>, network: (string, string) -> FetchOutcome, i: nat)
    requires i < |regions|
    ensures AllCharts(regions, network)[i] == RegionChart(regions[i], network)
    decreases |regions|
  {
    if i < |regions| - 1 {
      AllChartsAt(regions[..|regions| - 1], network, i);
      assert regions[..|regions| - 1][i] == regions[i];
    }
  }

  /** What the driver makes of region `i`'s chart: nothing for an empty chart, otherwise the
      cluster positioned with that region's registry index. */
  function Entry(regions: seq<ChartRegion>, charts: seq<seq<CityChartSong>>, i: nat): Option<CityCluster>
    requires |charts| == |regions| && ChartsInRange(charts) && i < |regions|
  {
    if |charts[i]| > 0 then Some(MakeCluster(regions[i], charts[i], i, |regions|)) else None
  }

  /** The entries of the first `k` regions, in registry order. */
  function Built(regions: seq<ChartRegion>, charts: seq<seq<CityChartSong>>, k: nat): (built: seq<Option<CityCluster>>)
    requires |charts| == |regions| && ChartsInRange(charts) && k <= |regions|
    ensures |built| == k
  {
    if k == 0 then [] else Built(regions, charts, k - 1) + [Entry(regions, charts, k - 1)]
  }

  lemma {:induction false} BuiltEntry(regions: seq<ChartRegion>, charts: seq<seq<CityChartSong>>, k: nat, i: nat)
    requires |charts| == |regions| && ChartsInRange(charts) && i < k <= |regions|
    ensures Built(regions, charts, k)[i] == Entry(regions, charts, i)
  {
    if i < k - 1 {
      BuiltEntry(regions, charts, k - 1, i);
    }
  }

  /** The present values among the first `k` entries, in order: the `push` that only
      happens for a non-empty chart. */
  function Present<T>(xs: seq<Option<T>>, k: nat): seq<T>
    requires k <= |xs|
  {
    if k == 0 then []
    else Present(xs, k - 1) + (if xs[k - 1].Some? then [xs[k - 1].value] else [])
  }

  lemma PresentStep<T>(xs: seq<Option<T>>, k: nat)
    requires k < |xs|
    ensures Present(xs, k + 1) == Present(xs, k) + (if xs[k].Some? then [xs[k].value] else [])
  {
  }

  /** The positions below `k` whose entry is present, in increasing order. */
  function PresentIndices<T>(xs: seq<Option<T>>, k: nat): seq<nat>
    requires k <= |xs|
  {
    if k == 0 then []
    else PresentIndices(xs, k - 1) + (if xs[k - 1].Some? then [k - 1] else [])
  }

  /** There is one present value per present position. */
  lemma {:induction false} PresentLength<T>(xs: seq<Option<T>>, k: nat)
    requires k <= |xs|
    ensures |Present(xs, k)| == |PresentIndices(xs, k)|
  {
    if k > 0 {
      PresentLength(xs, k - 1);
    }
  }

  /** The `j`-th present value is the entry at the `j`-th present position, which lies below `k`. */
  lemma {:induction false} PresentAtIndices<T>(xs: seq<Option<T>>, k: nat)
    requires k <= |xs|
    ensures |Present(xs, k)| == |PresentIndices(xs, k)|
    ensures forall j :: 0 <= j < |PresentIndices(xs, k)| ==>
              PresentIndices(xs, k)[j] < k && xs[PresentIndices(xs, k)[j]] == Some(Present(xs, k)[j])
  {
    PresentLength(xs, k);
    if k > 0 {
      PresentAtIndices(xs, k - 1);
    }
  }

  /** The present positions below `k` are strictly increasing, and a position is among them
      exactly when its entry is present. */
  lemma {:induction false} PresentIndicesExact<T>(xs: seq<Option<T>>, k: nat)
    requires k <= |xs|
    ensures forall j :: 0 <= j < |PresentIndices(xs, k)| ==> PresentIndices(xs, k)[j] < k
    ensures forall j1, j2 :: 0 <= j1 < j2 < |PresentIndices(xs, k)| ==>
              PresentIndices(xs, k)[j1] < PresentIndices(xs, k)[j2]
    ensures forall i :: 0 <= i < k ==> (i in PresentIndices(xs, k) <==> xs[i].Some?)
  {
    if k > 0 {
      PresentIndicesExact(xs, k - 1);
    }
  }

  /** The clusters the driver returns for the given charts, in registry order. */
  function Clusters(regions: seq<ChartRegion>, charts: seq<seq<CityChartSong>>): seq<CityCluster>
    requires |charts| == |regions| && ChartsInRange(charts)
  {
    Present(Built(regions, charts, |regions|), |regions|)
  }

  /** The registry indices of the regions that produce a cluster, in order. */
  function LoadedIndices(regions: seq<ChartRegion>, charts: seq<seq<CityChartSong>>): seq<nat>
    requires |charts| == |regions| && ChartsInRange(charts)
  {
    PresentIndices(Built(regions, charts, |regions|), |regions|)
  }

  /** The driver's output is one cluster per region with a non-empty chart, in registry
      order, built from that region's chart and registry index: a region whose fetch failed
      or came back empty is skipped and the others still load. */
  lemma ClustersAreLoadedRegions(regions: seq<ChartRegion>, charts: seq<seq<CityChartSong>>)
    requires |charts| == |regions| && ChartsInRange(charts)
    ensures var loaded := LoadedIndices(regions, charts);
            |Clusters(regions, charts)| == |loaded|
            && (forall j1, j2 :: 0 <= j1 < j2 < |loaded| ==> loaded[j1] < loaded[j2])
            && (forall i :: 0 <= i < |regions| ==> (i in loaded <==> |charts[i]| > 0))
            && (forall j :: 0 <= j < |loaded| ==>
                  loaded[j] < |regions| && |charts[loaded[j]]| > 0
                  && Clusters(regions, charts)[j]
                     == MakeCluster(regions[loaded[j]], charts[loaded[j]], loaded[j], |regions|))
  {
    var built := Built(regions, charts, |regions|);
    PresentAtIndices(built, |regions|);
    PresentIndicesExact(built, |regions|);
    forall i | 0 <= i < |regions|
      ensures built[i] == Entry(regions, charts, i)
    {
      BuiltEntry(regions, charts, |regions|, i);
    }
  }

  /** The progress reports after `k` regions out of `n`: `(1, n), (2, n), ..., (k, n)`. */
  function ProgressLog(k: nat, n: nat): seq<(nat, nat)>
  {
    if k == 0 then [] else ProgressLog(k - 1, n) + [(k, n)]
  }

  /** Report number `j` of the log says `j + 1` regions of `n` are done. */
  lemma {:induction false} ProgressLogEntries(k: nat, n: nat)
    ensures |ProgressLog(k, n)| == k
    ensures forall j :: 0 <= j < k ==> ProgressLog(k, n)[j] == (j + 1, n)
  {
    if k > 0 {
      ProgressLogEntries(k - 1, n);
    }
  }

  /** One pass of the driver's loop: fetch region `i`'s chart and, when it is non-empty,
      summarise it into that region's cluster. */
  method LoadRegion(regions: seq<ChartRegion>, i: nat, network: (string, string) -> FetchOutcome)
    returns (cluster: Option<CityCluster>)
    requires i < |regions|
    ensures cluster == Built(regions, AllCharts(regions, network), |regions|)[i]
  {
    var region := regions[i];
    var songs := FetchRegionChart(region, network);
    AllChartsAt(regions, network, i);
    BuiltEntry(regions, AllCharts(regions, network), |regions|, i);
    if |songs| > 0 {
      cluster := Some(MakeCluster(region, songs, i, |regions|));
    } else {
      cluster := None;
    }
  }

  /** The driver's state after the first `i` regions of `built`. */
  ghost predicate LoadedSoFar(built: seq<Option<CityCluster>>, i: nat, clusters: seq<CityCluster>,
                              progress: seq<(nat, nat)>, delays: nat)
    requires i <= |built|
  {
    clusters == Present(built, i)
    && progress == ProgressLog(i, |built|)
    && delays == if i == |built| && i > 0 then i - 1 else i
  }

  /** One region more: its entry appended when present, its progress report, and a pause
      unless it was the last. */
  lemma LoadedStep(built: seq<Option<CityCluster>>, i: nat, clusters: seq<CityCluster>,
                   progress: seq<(nat, nat)>, delays: nat)
    requires i < |built| && LoadedSoFar(built, i, clusters, progress, delays)
    ensures LoadedSoFar(built, i + 1,
                        clusters + (if built[i].Some? then [built[i].value] else []),
                        progress + [(i + 1, |built|)],
                        if i < |built| - 1 then delays + 1 else delays)
  {
    PresentStep(built, i);
  }

  /** The driver's loop over any region list: regions one at a time in list order;
      progress `(i + 1, n)` after each region, failed ones included; a pause between
      regions but not after the last. */
  method LoadRegions(regions: seq<ChartRegion>, network: (string, string) -> FetchOutcome)
    returns (clusters: seq<CityCluster>, progress: seq<(nat, nat)>, delays: nat)
    ensures clusters == Clusters(regions, AllCharts(regions, network))
    ensures progress == ProgressLog(|regions|, |regions|)
    ensures delays == if |regions| == 0 then 0 else |regions| - 1
  {
    ghost var built := Built(regions, AllCharts(regions, network), |regions|);
    clusters, progress, delays := [], [], 0;
    var i := 0;
    while i < |regions|
      invariant i <= |regions| && LoadedSoFar(built, i, clusters, progress, delays)
    {
      var cluster := LoadRegion(regions, i, network);
      LoadedStep(built, i, clusters, progress, delays);
      if cluster.Some? {
        clusters := clusters + [cluster.value];
      }
      progress := progress + [(i + 1, |regions|)];
      if i < |regions| - 1 {
        delays := delays + 1;
      }
      i := i + 1;
    }
  }

  /** `fetchAllRegionCharts`: the driver over the registry, with 32 pauses for 33 regions. */
  method FetchAllRegionCharts(network: (string, string) -> FetchOutcome)
    returns (clusters: seq<CityCluster>, progress: seq<(nat, nat)>, delays: nat)
    ensures clusters == Clusters(ChartRegions, AllCharts(ChartRegions, network))
    ensures progress == ProgressLog(|ChartRegions|, |ChartRegions|)
    ensures delays == 32
  {
    clusters, progress, delays := LoadRegions(ChartRegions, network);
  }
}
