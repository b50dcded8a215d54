# Mood Atlas core, modelled in Dafny

Mood Atlas places songs on Thayer's energy/valence plane and groups them into mood layers
and city clusters. This project models its computational core:

- the Deezer regional-chart pipeline (`deezerCharts.ts`), which:
  - estimates features from the rank, duration and track id;
  - classifies the result into nine emotions and scores it;
  - blends quadrant colours;
  - tries CORS proxies in order;
  - drives a sequential loader with progress reports and pauses;
- the shared emotion classifier (`emotionAnalysis.ts`) and its copies in the Deezer and
  offline code;
- the Apple Music city-chart pipeline (`cityCharts.ts`), which:
  - maps genres to features through a first-match keyword table;
  - averages a city's mood and places and colours it;
  - runs a one-hour cache keyed by city id in front of a sequential fetch loop;
- the static city table and its lookups (`cityChartData.ts`);
- the layer grouping of the two sample-song files (`generateMoodLayers`);
- the play-history script (`processAppleData.js`), which:
  - folds the CSV rows into per-track counters;
  - turns them into emotion scores, normalised with an argmax;
  - keeps songs with at least two plays, numbers them and sorts them by play count;
- the offline feature estimators of both apps (`offlineMode.ts`);
- the rate limiter, token check, consent flag and anonymiser (`security.ts`);
- the Apple Music record mapper (`musicKit.ts`);
- the portfolio carousel (`main.js`): scroll targets, easing, the animation's stopping
  rule and button visibility.

JavaScript numbers are `real`, and `Math.round(x)` is `floor(x + 1/2)`. The following
become parameters:

- random draws;
- the clock;
- network and catalogue answers;
- base64/JSON decoding of a token header;
- the SHA-256 digest.

Code that works step by step is imperative Dafny, each method proved against a function:

- the score `forEach`;
- the proxy loop and both chart drivers;
- the grouping `reduce`;
- the CSV fold, the normalisation and argmax, and the in-place sort;
- the rate limiter and storage writes;
- the frame-by-frame scroll.

Two classes hold module state:

- `CityCharts.CityChartCache` (the module-level cache map);
- `ProcessAppleData.PlayHistory` (the module-level `songData` map).

Two more hold browser state: `Security.BrowserStorage` (session and local storage) and
`Carousel.ScrollContainer` (the scroll element and its buttons).

Modules:

- `Js` and `Text` hold shared helpers (clamp, rounding, sums, substring search, split and
  join, ASCII case, hexadecimal).
- `GenreTable` holds the keyword chain that `cityCharts.ts` and the larger `offlineMode.ts`
  share.
- `MoodLayering` holds the grouping that both `mockSongs.ts` files share.

## Model

| member | source | states |
|---|---|---|
| EmotionAnalysis.AnalyzeSongEmotion | mood-atlas-src/src/utils/emotionAnalysis.ts:12-22 | the label is one of the nine, and each label holds exactly on its region of the plane (Happy iff energy > 0.7 and valence > 0.7, Peaceful iff energy <= 0.4 and valence > 0.5, and so on for all nine), so the first matching rule wins |
| EmotionAnalysis.EmotionScores | mood-atlas-src/src/utils/emotionAnalysis.ts:27-48 | exactly the nine labels are keys and every score lies in [0.1, 1.0] for any energy and valence |
| EmotionAnalysis.GenerateEmotionScores | mood-atlas-src/src/utils/emotionAnalysis.ts:27-48 | the `forEach` filling the record one key at a time yields EmotionScores: nine keys, each in [0.1, 1.0] |
| EmotionAnalysis.ExcitedSymmetric | mood-atlas-src/src/utils/emotionAnalysis.ts:36 | the Excited score is unchanged when energy and valence swap |
| EmotionAnalysis.HappyMonotoneInValence | mood-atlas-src/src/utils/emotionAnalysis.ts:34 | the Happy score never decreases as valence grows |
| DeezerCharts.RegionTable | mood-atlas-src/src/utils/deezerCharts.ts:36-79 | the registry has 33 entries, not the 34 the comment at line 274 claims |
| DeezerCharts.RegistryBiasesInRange | mood-atlas-src/src/utils/deezerCharts.ts:36-79 | every registered energy and valence bias lies in [-0.3, 0.3] |
| DeezerCharts.AnalyzeSongEmotion | mood-atlas-src/src/utils/deezerCharts.ts:82-92 | the file's copy of the classifier equals the shared one everywhere; Angry iff energy > 0.7 and valence <= 0.4; Sad iff energy <= 0.3 and valence <= 0.3 |
| DeezerCharts.EstimateAudioFeatures | mood-atlas-src/src/utils/deezerCharts.ts:120-154 | energy and valence lie in [0.15, 0.95] for any rank, id or bias; each is the clamp of one closed formula: the duration tier + (25 - rank)/150 + linear id jitter + energy bias, and 0.45 + (id mod 100 mod 50)/150 + linear jitter + valence bias |
| DeezerCharts.EnergyBiasMonotone | mood-atlas-src/src/utils/deezerCharts.ts:146-151 | raising the energy bias never lowers the energy and leaves the valence unchanged |
| DeezerCharts.ValenceBiasMonotone | mood-atlas-src/src/utils/deezerCharts.ts:146-151 | raising the valence bias never lowers the valence and leaves the energy unchanged |
| DeezerCharts.EnergyFallsWithRank | mood-atlas-src/src/utils/deezerCharts.ts:132 | a later chart position never raises the estimated energy |
| DeezerCharts.TopTrackExample | mood-atlas-src/src/utils/deezerCharts.ts:126-151 | a 200-second track with id 42 at the top of a +0.25/+0.25 region clamps to (0.95, 0.95), which is Happy |
| DeezerCharts.Channel | mood-atlas-src/src/utils/deezerCharts.ts:231-237 | a channel parsed from a `#rrggbb` digit pair is below 256 |
| DeezerCharts.MixBetween | mood-atlas-src/src/utils/deezerCharts.ts:239-241 | for t in [0, 1] the rounded mix lies between the two endpoint channels |
| DeezerCharts.RenderRgb | mood-atlas-src/src/utils/deezerCharts.ts:243 | the rendered colour starts with `#` and has at least seven characters |
| DeezerCharts.RenderRgbOfBytes | mood-atlas-src/src/utils/deezerCharts.ts:231-243 | three bytes render as a lowercase `#rrggbb` whose channels parse back to those bytes |
| DeezerCharts.RenderRgbOfChannels | mood-atlas-src/src/utils/deezerCharts.ts:231-243 | a lowercase colour is re-rendered unchanged from its own parsed channels (format after parse is the identity) |
| DeezerCharts.LerpColorBetween | mood-atlas-src/src/utils/deezerCharts.ts:230-244 | for t in [0, 1] the blend is a lowercase `#rrggbb` and each of its channels lies between the endpoints' channels |
| DeezerCharts.LerpColorAtZero | mood-atlas-src/src/utils/deezerCharts.ts:230-244 | `lerpColor(c, d, 0) == c` for lowercase c |
| DeezerCharts.LerpColorAtOne | mood-atlas-src/src/utils/deezerCharts.ts:230-244 | `lerpColor(c, d, 1) == d` for lowercase d |
| DeezerCharts.GetQuadrantColor | mood-atlas-src/src/utils/deezerCharts.ts:248-267 | inside the unit square the bilinear blend is a well-formed lowercase colour |
| DeezerCharts.QuadrantCorners | mood-atlas-src/src/utils/deezerCharts.ts:248-267 | the corners are #448aff at (0,0), #00ffff at (e=0, v=1), #ff0000 at (1,0) and #ffff00 at (1,1) |
| DeezerCharts.CalculatePosition | mood-atlas-src/src/utils/deezerCharts.ts:217-227 | x and y invert back to valence and energy (v = 0.5 + x/100, e = 0.5 + y/100); moods in [0, 1] land in [-50, 50] |
| DeezerCharts.FirstOkProxy | mood-atlas-src/src/utils/deezerCharts.ts:163-173 | the chosen proxy gives an ok response and every proxy before it threw or answered not ok; None only when all fail |
| DeezerCharts.FetchWithCorsProxy | mood-atlas-src/src/utils/deezerCharts.ts:163-173 | the loop returns the response of the first proxy giving an ok response, tried strictly in list order, and fails only when every proxy fails; a returned response is always ok, so the check at line 182 never fires |
| DeezerCharts.TrackToSong | mood-atlas-src/src/utils/deezerCharts.ts:189-206 | a mapped track has its mood in [0.15, 0.95], the classifier's label and scores for it, and the id `dz-<id>` |
| DeezerCharts.SongsOf | mood-atlas-src/src/utils/deezerCharts.ts:189 | one song per track, in order, track i mapped with chart position i |
| DeezerCharts.RegionChart | mood-atlas-src/src/utils/deezerCharts.ts:176-211 | when every proxy fails the chart is empty; every song of any chart has its mood in the estimator's range |
| DeezerCharts.FetchRegionChart | mood-atlas-src/src/utils/deezerCharts.ts:176-211 | the method yields RegionChart: proxy failure, an unreadable body or a missing `data` all become `[]` |
| DeezerCharts.MakeCluster | mood-atlas-src/src/utils/deezerCharts.ts:284-312 | a cluster keeps its songs, the region's id, name, country and endpoint, upper-cases the country code; its averages are the songs' means, in [0.15, 0.95], with the classifier's label, the quadrant colour (well formed) and `calculatePosition`'s position; the city record carries the same songs and figures |
| DeezerCharts.AllChartsAt | mood-atlas-src/src/utils/deezerCharts.ts:278-282 | entry i of the charts is the fetch of region i |
| DeezerCharts.BuiltEntry | mood-atlas-src/src/utils/deezerCharts.ts:284-315 | the driver's outcome for region i is nothing for an empty chart, otherwise the cluster built with registry index i |
| DeezerCharts.ClustersAreLoadedRegions | mood-atlas-src/src/utils/deezerCharts.ts:278-326 | the clusters are exactly one per region with a non-empty chart, in registry order, each built with its own registry index |
| DeezerCharts.ProgressLogEntries | mood-atlas-src/src/utils/deezerCharts.ts:320 | progress report j is (j + 1, n): exactly one per region, failed regions included |
| DeezerCharts.LoadRegion | mood-atlas-src/src/utils/deezerCharts.ts:279-318 | one pass of the loop yields the driver's outcome for region i |
| DeezerCharts.LoadRegions | mood-atlas-src/src/utils/deezerCharts.ts:278-326 | the sequential loop returns the clusters of the regions with songs in order, reports (1, n) … (n, n), and pauses n - 1 times, never after the last region |
| DeezerCharts.FetchAllRegionCharts | mood-atlas-src/src/utils/deezerCharts.ts:270-330 | over the registry: the loaded clusters in registry order, 33 progress reports and 32 pauses |
| CityChartData.CityTable | mood-atlas-src/src/data/cityChartData.ts:47-158 | the table, in declaration order |
| CityChartData.CityIdsDistinct | mood-atlas-src/src/data/cityChartData.ts:47-158 | no two entries share an id |
| CityChartData.FirstWithId | mood-atlas-src/src/data/cityChartData.ts:162 | the index found holds the id and no earlier entry does; None means no entry does |
| CityChartData.GetCityById | mood-atlas-src/src/data/cityChartData.ts:161-163 | a city is found iff some entry has the id, and the one found has that id and is in the table |
| CityChartData.GetCityByIdOfEntry | mood-atlas-src/src/data/cityChartData.ts:161-163 | looking up any entry's id finds that entry, because ids are distinct |
| CityChartData.FilterByCountry | mood-atlas-src/src/data/cityChartData.ts:167 | the result holds exactly the cities with that country code |
| CityChartData.FilterByCountryAppend | mood-atlas-src/src/data/cityChartData.ts:167 | filtering distributes over concatenation, so the output keeps table order |
| CityChartData.GetCitiesByCountry | mood-atlas-src/src/data/cityChartData.ts:166-168 | exactly the table's cities with that country code |
| CityChartData.LookupAll | mood-atlas-src/src/data/cityChartData.ts:181 | the lookup of each selected id, position by position |
| CityChartData.Defined | mood-atlas-src/src/data/cityChartData.ts:182-183 | dropping `undefined` keeps every entry when all are present |
| CityChartData.DemoSelectionPresent | mood-atlas-src/src/data/cityChartData.ts:173-178 | every one of the 20 selected ids names a table entry |
| CityChartData.GetDemoCities | mood-atlas-src/src/data/cityChartData.ts:171-184 | the length follows `slice` (min(count, 20) for count >= 0), and city i has the i-th selected id and comes from the table |
| CityChartData.PlaylistIdsNotUnique | mood-atlas-src/src/data/cityChartData.ts:65 | nashville and singapore (lines 65 and 113) share a playlist id, so playlist ids are not a key |
| CityChartData.Energies | mood-atlas-src/src/utils/cityCharts.ts:131 | the energies of the songs, position by position |
| CityChartData.Valences | mood-atlas-src/src/utils/cityCharts.ts:132 | the valences of the songs, position by position |
| GenreTable.FirstMatchFrom | mood-atlas-src/src/utils/cityCharts.ts:15-72 | the branch chosen lies between the start and the end of the chain |
| GenreTable.FirstMatchFromIsFirst | mood-atlas-src/src/utils/cityCharts.ts:15-72 | the branch chosen passes its test and every branch before it fails; reaching the end means none passed |
| GenreTable.FirstMatchIsFirst | mood-atlas-src/src/utils/cityCharts.ts:15-72 | the `if … else if` chain takes the first branch whose keyword the genre contains, or the defaults when none does |
| GenreTable.FirstMatchUnique | mood-atlas-src/src/utils/cityCharts.ts:15-72 | any branch that passes while all earlier ones fail is the branch taken |
| GenreTable.Branch | mood-atlas-src/src/utils/cityCharts.ts:15-72 | the branch index of the nineteen-branch chain is at most the no-match index |
| GenreTable.BranchIsFirstMatch | mood-atlas-src/src/utils/cityCharts.ts:15-72 | the written-out chain agrees with FirstMatch over the keyword table |
| GenreTable.PopInsideKPop | mood-atlas-src/src/utils/cityCharts.ts:39 | every k-pop/j-pop keyword contains "pop" |
| GenreTable.KPopUnreachable | mood-atlas-src/src/utils/cityCharts.ts:30-41 | the k-pop/j-pop branch is never taken, because the pop branch at line 30 catches its keywords first |
| GenreTable.PostPunkIsRock | mood-atlas-src/src/utils/cityCharts.ts:24-26 | a genre containing "post-punk" is decided at the rock branch or earlier and never reaches the post-punk branch at line 66 |
| GenreTable.KeywordsNonEmpty | mood-atlas-src/src/utils/cityCharts.ts:15-72 | no keyword is the empty string |
| GenreTable.EmptyGenreMatchesNothing | mood-atlas-src/src/utils/cityCharts.ts:97 | the empty genre, which a missing genre becomes, matches no branch |
| CityCharts.Jitter | mood-atlas-src/src/utils/cityCharts.ts:75-80 | a jittered feature lies in [0.1, 1.0] for any draw |
| CityCharts.GenerateAudioFeatures | mood-atlas-src/src/utils/cityCharts.ts:8-81 | energy and valence lie in [0.1, 1.0] for any random draws |
| CityCharts.BaseMoodsInRange | mood-atlas-src/src/utils/cityCharts.ts:15-72 | every branch's base energy and valence lie in [0.2, 0.9] |
| CityCharts.FeaturesNearBase | mood-atlas-src/src/utils/cityCharts.ts:75-80 | for draws in [0, 1) the clamp never applies: each feature is its base plus the linear jitter |
| CityCharts.UnmatchedGenreDefaults | mood-atlas-src/src/utils/cityCharts.ts:9-12 | a genre matching no keyword keeps the (0.5, 0.5) base |
| CityCharts.EmptyGenreDefaults | mood-atlas-src/src/utils/cityCharts.ts:9-12 | the empty genre keeps the (0.5, 0.5) base |
| CityCharts.PostPunkNeverDarkwave | mood-atlas-src/src/utils/cityCharts.ts:24-26 | a post-punk genre takes a base from the first four branches and never the post-punk base |
| CityCharts.FeaturesMonotoneInDraws | mood-atlas-src/src/utils/cityCharts.ts:75-80 | larger draws never give smaller features |
| CityCharts.ProcessCityMood | mood-atlas-src/src/utils/cityCharts.ts:126-136 | no songs give (0.5, 0.5, Calm); otherwise the averages times the count are the sums of energies and valences, and the label is the classifier's for the averages |
| CityCharts.MoodWithinSongBounds | mood-atlas-src/src/utils/cityCharts.ts:131-132 | the averages lie within any bounds every song respects |
| CityCharts.EmptyMoodDisagreesWithClassifier | mood-atlas-src/src/utils/cityCharts.ts:127-129 | the empty default is Calm although the classifier labels (0.5, 0.5) Romantic |
| CityCharts.CalculateCityPosition | mood-atlas-src/src/utils/cityCharts.ts:142-154 | x = (v - 0.5)·80 and y = (e - 0.5)·80, inverted back to the moods; moods in [0, 1] land in [-40, 40] |
| CityCharts.GetCityColor | mood-atlas-src/src/utils/cityCharts.ts:157-159 | the colour of a listed emotion, otherwise #ffffff |
| CityCharts.ClassifiedCitiesAreColoured | mood-atlas-src/src/utils/cityCharts.ts:157-159 | every label the classifier can produce has its own colour, never the white fallback |
| CityCharts.TrackSong | mood-atlas-src/src/utils/cityCharts.ts:97-116 | a track's song keeps the track id and has a genre, a mood in [0.1, 1.0] and the classifier's label for it |
| CityCharts.ChartSongs | mood-atlas-src/src/utils/cityCharts.ts:96-117 | n tracks make n songs |
| CityCharts.ChartSongsSnoc | mood-atlas-src/src/utils/cityCharts.ts:96-117 | one more track appends exactly its song |
| CityCharts.ChartSongsAt | mood-atlas-src/src/utils/cityCharts.ts:96-117 | song i is built from track i and its two draws |
| CityCharts.CityChartTracks | mood-atlas-src/src/utils/cityCharts.ts:84-123 | the chart is empty when the call throws, and otherwise holds the songs of the first min(25, n) tracks, in order |
| CityCharts.ProcessTrack | mood-atlas-src/src/utils/cityCharts.ts:97-116 | the loop body builds exactly TrackSong |
| CityCharts.FetchCityChart | mood-atlas-src/src/utils/cityCharts.ts:84-123 | the loop pushing one song per track of the first 25 yields the city's chart |
| CityCharts.CityClusterOf | mood-atlas-src/src/utils/cityCharts.ts:193-205 | the cluster keeps its songs and its city's listing; its averages and label are `processCityMood`'s, its colour the table colour of that label, its position `calculateCityPosition` of the averages; the city record carries the same songs and figures, as the spread puts them there |
| CityCharts.ChartsOf | mood-atlas-src/src/utils/cityCharts.ts:190 | city i's chart is the fetch of city i with its own draws |
| CityCharts.FreshEntrySkipsFetch | mood-atlas-src/src/utils/cityCharts.ts:177-182 | a fresh entry is pushed as it is, with no pause, and the visit does not depend on the catalogue at all |
| CityCharts.RunProgress | mood-atlas-src/src/utils/cityCharts.ts:180-215 | report j is (j + 1, n): one per city, cached and failed cities included |
| CityCharts.RunDelays | mood-atlas-src/src/utils/cityCharts.ts:185-187 | at most one pause per city after the first |
| CityCharts.VisitKeepsCacheValid | mood-atlas-src/src/utils/cityCharts.ts:192-209 | a visit caches and pushes only clusters with songs |
| CityCharts.RunKeepsCacheValid | mood-atlas-src/src/utils/cityCharts.ts:173-216 | starting from a valid cache, the run leaves every cached and pushed cluster non-empty |
| CityCharts.VisitTouchesOnlyItsId | mood-atlas-src/src/utils/cityCharts.ts:208 | a visit changes the cache only at the visited city's id |
| CityCharts.RunTouchesOnlyVisitedIds | mood-atlas-src/src/utils/cityCharts.ts:173-216 | the cache changes only at the ids of visited cities |
| CityCharts.VisitKeepsFresh | mood-atlas-src/src/utils/cityCharts.ts:177-209 | fresh entries stay fresh, and the visited city ends fresh unless its chart was empty |
| CityCharts.RunCachesLoadedCities | mood-atlas-src/src/utils/cityCharts.ts:173-216 | after the run every visited city that was fresh or loaded songs is served from the cache at the same clock reading |
| CityCharts.CityChartCache.constructor | mood-atlas-src/src/utils/cityCharts.ts:162-163 | the cache starts empty, painted from the emotion colours |
| CityCharts.CityChartCache.FetchAllCityCharts | mood-atlas-src/src/utils/cityCharts.ts:165-219 | the clusters, progress, pauses and new cache are those of the pure run over the cities' charts, with the clock read once |
| CityCharts.CityChartCache.VisitAll | mood-atlas-src/src/utils/cityCharts.ts:173-216 | the loop over the cities updates the cache and returns clusters, progress and pauses as the pure run does |
| CityCharts.CityChartCache.Clear | mood-atlas-src/src/utils/cityCharts.ts:262-264 | the cache is empty afterwards |
| MoodLayering.KeysAreTheSongKeys | mood-atlas-src/src/data/mockSongs.ts:231-237 | a label gets a group exactly when some song has it |
| MoodLayering.KeysDistinct | mood-atlas-src/src/data/mockSongs.ts:231-237 | no label gets two groups |
| MoodLayering.GroupMembers | mood-atlas-src/src/data/mockSongs.ts:231-237 | a group holds exactly the songs with its label |
| MoodLayering.GroupOfAbsentKey | mood-atlas-src/src/data/mockSongs.ts:231-237 | the group of a label no song has is empty |
| MoodLayering.GroupOfKeyNonEmpty | mood-atlas-src/src/data/mockSongs.ts:231-237 | every group that exists is non-empty |
| MoodLayering.GroupSizesSnoc | mood-atlas-src/src/data/mockSongs.ts:231-237 | one more song adds one to the total size of the groups over distinct labels exactly when its label is among them |
| MoodLayering.GroupSizesSum | mood-atlas-src/src/data/mockSongs.ts:231-237 | the group sizes add up to the number of songs, so each song is in exactly one group |
| MoodLayering.GroupByKey | mood-atlas-src/src/data/mockSongs.ts:231-237 | the `reduce` creates one entry per label in first-appearance order, each holding that label's songs in input order |
| MoodLayering.Radius | mood-atlas-src/src/data/mockSongs.ts:243 | the radius lies in [4, 10] |
| MoodLayering.RadiusSteps | mood-atlas-src/src/data/mockSongs.ts:243 | 4 for at most 2 songs, 10 for 18 or more, 3 + 0.4·n in between, and never smaller for more songs |
| MoodLayering.EnergyList | mood-atlas-src/src/data/mockSongs.ts:242 | the songs' energies, position by position |
| MoodLayering.Layers | mood-atlas-src/src/data/mockSongs.ts:240-256 | one layer per distinct label |
| MoodLayering.GenerateMoodLayers | mood-atlas-src/src/data/mockSongs.ts:229-258 | the reduce into groups, then a map building layer j from the j-th key and its group, yields Layers |
| MoodLayering.TotalSongsSum | mood-atlas-src/src/data/mockSongs.ts:241 | the layers' song counts add up to the number of songs |
| MoodLayering.TotalSongsOfPrefix | mood-atlas-src/src/data/mockSongs.ts:241 | the counts of the first n layers are the sizes of the first n labels' groups |
| MoodLayering.LayerIsGroup | mood-atlas-src/src/data/mockSongs.ts:240-248 | layer j is named by the j-th label in first-appearance order and holds its group |
| MoodLayering.LayerIdsDistinct | mood-atlas-src/src/data/mockSongs.ts:240-248 | no two layers share an id |
| MoodLayering.EverySongHasALayer | mood-atlas-src/src/data/mockSongs.ts:231-248 | every song's label names a layer |
| MoodLayering.LayerMembers | mood-atlas-src/src/data/mockSongs.ts:231-248 | a layer holds exactly the songs whose label is its id |
| MoodLayering.LayerShape | mood-atlas-src/src/data/mockSongs.ts:240-255 | each layer is non-empty; its average energy is the mean of its songs' energies and lies within their bounds; height is 8 + 6·index; the radius is clamped; the name is the id; the colour is the table's or white |
| MoodLayering.HeightsIncrease | mood-atlas-src/src/data/mockSongs.ts:244 | heights strictly increase from layer to layer |
| MockSongs.GetNodeSize | mood-atlas-src/src/data/mockSongs.ts:224-226 | energy in [0, 1] gives a size in [0.01, 0.03], and the energy is recovered as (size - 0.01)/0.02 |
| MockSongs.NodeSizeMonotone | mood-atlas-src/src/data/mockSongs.ts:224-226 | more energy never gives a smaller node |
| MockSongs.GenerateMoodLayers | mood-atlas-src/src/data/mockSongs.ts:229-258 | songs grouped by `primaryEmotion`, one layer per emotion in first-appearance order |
| MockSongs.EmotionLayersColoured | mood-atlas-src/src/data/mockSongs.ts:204-221 | a layer of any listed emotion gets its table colour, never white |
| MockSongs.MockSongEmotions | mood-atlas-src/src/data/mockSongs.ts:20-201 | the sample table's primary emotions, in order |
| MockSongs.SampleEmotionOrder | mood-atlas-src/src/data/mockSongs.ts:231-237 | songs with the sample emotions group into seven emotions, Energetic first |
| MockSongs.SampleEnergeticGroup | mood-atlas-src/src/data/mockSongs.ts:231-237 | the Energetic group is the first, fourth and fifth songs |
| MockSongs.SampleLayers | mood-atlas-src/src/data/mockSongs.ts:229-258 | such songs make seven layers, the first Energetic with 3 songs, radius 4.2, height 8 and colour #ff0080 |
| MockSongs.MockLayers | mood-atlas-src/src/data/mockSongs.ts:20-258 | on the sample songs: seven layers, the first Energetic with 3 songs |
| MoodAtlasMockSongs.GetNodeSize | mood-atlas/src/data/mockSongs.ts:197-199 | energy in [0, 1] gives a size in [0.2, 0.6], and the energy is recovered as (size - 0.2)/0.4 |
| MoodAtlasMockSongs.NodeSizeMonotone | mood-atlas/src/data/mockSongs.ts:197-199 | more energy never gives a smaller node |
| MoodAtlasMockSongs.GenerateMoodLayers | mood-atlas/src/data/mockSongs.ts:202-232 | songs grouped by `mood`, one layer per mood in first-appearance order |
| MoodAtlasMockSongs.UnknownMoodIsWhite | mood-atlas/src/data/mockSongs.ts:227 | a layer whose mood has no table colour is white |
| MoodAtlasMockSongs.MockSongMoods | mood-atlas/src/data/mockSongs.ts:14-180 | the sample table's moods, in order |
| MoodAtlasMockSongs.SampleMoodOrder | mood-atlas/src/data/mockSongs.ts:204-213 | songs with the sample moods group into all ten moods, dreamy first |
| MoodAtlasMockSongs.SampleMelancholicGroup | mood-atlas/src/data/mockSongs.ts:204-213 | the melancholic group is the 3rd, 6th, 11th and 14th songs |
| MoodAtlasMockSongs.SampleLayers | mood-atlas/src/data/mockSongs.ts:202-232 | ten layers, dreamy first; the third is melancholic with 4 songs, radius 4.6, height 20 and colour #448aff |
| MoodAtlasMockSongs.MockLayers | mood-atlas/src/data/mockSongs.ts:14-232 | on the sample songs: ten layers, the third melancholic with 4 songs |
| OfflineMode.AnalyzeSongEmotion | mood-atlas-src/src/utils/offlineMode.ts:5-17 | the module's classifier equals the shared one for every input |
| OfflineMode.Ratio | mood-atlas-src/src/utils/offlineMode.ts:325-328 | a ratio feature lies in [0.1, 1.0] |
| OfflineMode.TempoRange | mood-atlas-src/src/utils/offlineMode.ts:329 | a draw in [0, 1) moves the base tempo by -20 to +19 |
| OfflineMode.Jittered | mood-atlas-src/src/utils/offlineMode.ts:324-330 | the four ratio features lie in [0.1, 1.0] for any draws |
| OfflineMode.GenerateAudioFeatures | mood-atlas-src/src/utils/offlineMode.ts:193-331 | energy, valence, danceability and acousticness lie in [0.1, 1.0] for any draws |
| OfflineMode.GeneratedTempoRange | mood-atlas-src/src/utils/offlineMode.ts:329 | the tempo stays in [base - 20, base + 19] of the genre's branch |
| OfflineMode.NoGenreDefaults | mood-atlas-src/src/utils/offlineMode.ts:193-203 | a song without a genre gets the defaults (0.5, 0.5, 0.5, 0.3, 120) |
| OfflineMode.UnmatchedGenreDefaults | mood-atlas-src/src/utils/offlineMode.ts:196-203 | a genre matching no branch gets the defaults |
| OfflineMode.BasesAgreeWithCityCharts | mood-atlas-src/src/utils/offlineMode.ts:205-319 | the energy and valence of every branch, the dead k-pop branch included, equal those of the city-chart table |
| OfflineMode.AgreesWithCityCharts | mood-atlas-src/src/utils/offlineMode.ts:205-328 | with the same genre and draws the offline energy and valence equal the city-chart estimate |
| MoodAtlasOfflineMode.BaseOf | mood-atlas/src/utils/offlineMode.ts:184-221 | the base is one of the five branches' or the defaults |
| MoodAtlasOfflineMode.GenerateAudioFeatures | mood-atlas/src/utils/offlineMode.ts:172-233 | the four ratio features lie in [0.1, 1.0] for any draws |
| MoodAtlasOfflineMode.FirstMatchDecides | mood-atlas/src/utils/offlineMode.ts:191-221 | the first of the five branches whose keyword the genre contains decides the base; with none, the defaults apply |
| MoodAtlasOfflineMode.GeneratedTempoRange | mood-atlas/src/utils/offlineMode.ts:231 | the tempo stays in [base - 20, base + 19] |
| MoodAtlasOfflineMode.TempoBounds | mood-atlas/src/utils/offlineMode.ts:184-231 | every tempo is between 60 and 159 |
| MoodAtlasOfflineMode.DependsOnlyOnGenre | mood-atlas/src/utils/offlineMode.ts:179-181 | two songs with the same first genre get the same features from the same draws: the release year is unused |
| MoodAtlasOfflineMode.NoGenreDefaults | mood-atlas/src/utils/offlineMode.ts:184-189 | a song without a genre gets the defaults |
| MoodAtlasOfflineMode.KPopIsPop | mood-atlas/src/utils/offlineMode.ts:191-221 | "k-pop" is decided by the pop branch |
| MusicKit.OrDefault | mood-atlas-src/src/utils/musicKit.ts:104-106 | `x \|\| d`: the value when present and non-empty, otherwise the default |
| MusicKit.DurationSeconds | mood-atlas-src/src/utils/musicKit.ts:110-111 | a duration is present iff the milliseconds are present and non-zero, and it is ms/1000 rounded to the nearest second |
| MusicKit.MapAppleMusicToSong | mood-atlas-src/src/utils/musicKit.ts:101-116 | the id is copied; missing or empty names default to Unknown, Unknown Artist and Unknown Album; energy is 0.5 and mood neutral; the preview and genre come from the first list element |
| MusicKit.MapOfToApple | mood-atlas-src/src/utils/musicKit.ts:101-116 | any song with present names, a non-zero duration and the fixed energy and mood survives the trip through its catalogue record unchanged |
| MusicKit.ZeroDurationDropped | mood-atlas-src/src/utils/musicKit.ts:110-111 | a zero duration maps to an absent one |
| ProcessAppleData.PlayDuration | mood-atlas-src/scripts/processAppleData.js:42 | a missing duration is 0; a readable one is its parsed value |
| ProcessAppleData.Hour | mood-atlas-src/scripts/processAppleData.js:44 | the hour is never 0: readable non-zero hours are kept, and hour 0 and unreadable hours become 12 |
| ProcessAppleData.HexColumnsAreRead | mood-atlas-src/scripts/processAppleData.js:42-44 | `parseInt` reads a `0x` duration or hour in base 16: "0x1A" gives 26 and "0x5" gives hour 5 |
| ProcessAppleData.Accept | mood-atlas-src/scripts/processAppleData.js:46-53 | an accepted row carries its own non-empty track identifier |
| ProcessAppleData.AcceptIff | mood-atlas-src/scripts/processAppleData.js:46-50 | a row is kept iff it has a track identifier and a description other than N/A that contains " - " |
| ProcessAppleData.AcceptSplitsAtFirstSeparator | mood-atlas-src/scripts/processAppleData.js:49-53 | the artist is the trimmed text before the first " - " and the title the trimmed rest, inner separators kept |
| ProcessAppleData.ReadRow | mood-atlas-src/scripts/processAppleData.js:40-53 | a row yields a play iff it is accepted, with its track and a non-zero hour |
| ProcessAppleData.NewStats | mood-atlas-src/scripts/processAppleData.js:55-67 | a new record has the track's id, no plays and 24 hour slots |
| ProcessAppleData.CountEnd | mood-atlas-src/scripts/processAppleData.js:76-80 | the end-reason test throws exactly when the reason is missing, and never changes the play count |
| ProcessAppleData.CountEndCases | mood-atlas-src/scripts/processAppleData.js:76-80 | NATURAL_END_OF_TRACK counts a completion and takes precedence; otherwise SKIP or MANUALLY_SELECTED counts a skip; anything else counts nothing |
| ProcessAppleData.ApplyCounted | mood-atlas-src/scripts/processAppleData.js:55-80 | an accepted row stores its track's counted record and leaves every other track alone |
| ProcessAppleData.Reads | mood-atlas-src/scripts/processAppleData.js:39 | one read per row |
| ProcessAppleData.AggregateUnfold | mood-atlas-src/scripts/processAppleData.js:39-81 | the fold is the callback applied to the first row, then to the rest, stopping at a throw |
| ProcessAppleData.RecordWellFormed | mood-atlas-src/scripts/processAppleData.js:69-73 | recording a play keeps one duration per play summing to the total and the hour counts summing to the plays |
| ProcessAppleData.StoreValid | mood-atlas-src/scripts/processAppleData.js:55-69 | storing a well-formed record under its id keeps the map valid |
| ProcessAppleData.CountEndWellFormed | mood-atlas-src/scripts/processAppleData.js:76-80 | counting an end reason keeps completions plus skips at most the plays |
| ProcessAppleData.ApplyValid | mood-atlas-src/scripts/processAppleData.js:40-80 | one row keeps the map's invariant: every record is consistent, has a play, and satisfies completions + skips <= plays |
| ProcessAppleData.FoldValid | mood-atlas-src/scripts/processAppleData.js:39-81 | the fold keeps the invariant |
| ProcessAppleData.AggregateValid | mood-atlas-src/scripts/processAppleData.js:39-81 | the whole `forEach` keeps the invariant, whatever rows it reads |
| ProcessAppleData.HourZeroNeverCounted | mood-atlas-src/scripts/processAppleData.js:44-73 | after the aggregation, hour slot 0 of every record is still 0 |
| ProcessAppleData.PlaysOf | mood-atlas-src/scripts/processAppleData.js:70 | there are at most as many plays of a track as reads |
| ProcessAppleData.ApplyCounts | mood-atlas-src/scripts/processAppleData.js:55-70 | one row adds one play to its own track and none to any other, and creates only its own record |
| ProcessAppleData.FoldCounts | mood-atlas-src/scripts/processAppleData.js:39-81 | a track's play count grows by its number of plays in the reads |
| ProcessAppleData.PlayCountCountsRows | mood-atlas-src/scripts/processAppleData.js:39-81 | a track's play count is the number of accepted rows for it, and it has a record iff one exists |
| ProcessAppleData.AcceptedForCons | mood-atlas-src/scripts/processAppleData.js:46-55 | a row counts for a track iff it is accepted with that identifier |
| ProcessAppleData.ApplyKeepsNames | mood-atlas-src/scripts/processAppleData.js:55-67 | a recorded track keeps its artist and title through any row |
| ProcessAppleData.FoldKeepsNames | mood-atlas-src/scripts/processAppleData.js:55-67 | the same through any sequence of reads |
| ProcessAppleData.NamesFixedByFirstRow | mood-atlas-src/scripts/processAppleData.js:55-67 | the first accepted row fixes artist and title; later rows only move counters |
| ProcessAppleData.MissingEndReasonThrows | mood-atlas-src/scripts/processAppleData.js:78 | an accepted row with no end reason throws |
| ProcessAppleData.SkippedRowChangesNothing | mood-atlas-src/scripts/processAppleData.js:46-50 | a rejected row leaves the state unchanged |
| ProcessAppleData.RawScores | mood-atlas-src/scripts/processAppleData.js:115-132 | eight raw scores, each at least 0 |
| ProcessAppleData.RatesInRange | mood-atlas-src/scripts/processAppleData.js:90-113 | for a consistent record the rates and hour shares lie in [0, 1], energy in [0, 1], stress in [0.15, 1] and engagement in [0, 1] |
| ProcessAppleData.MaxOf | mood-atlas-src/scripts/processAppleData.js:135 | the maximum bounds every score and is one of them |
| ProcessAppleData.Normalize | mood-atlas-src/scripts/processAppleData.js:134-140 | normalising keeps the number of scores |
| ProcessAppleData.ScaledBelowMax | mood-atlas-src/scripts/processAppleData.js:138 | a score at most the maximum is scaled to score/max in [0, 1], so the cap never applies |
| ProcessAppleData.NormalizedAt | mood-atlas-src/scripts/processAppleData.js:136-139 | with a positive maximum each score becomes score/max, in [0, 1] |
| ProcessAppleData.NormalizeInUnit | mood-atlas-src/scripts/processAppleData.js:134-140 | every normalised non-negative score lies in [0, 1] |
| ProcessAppleData.NormalizeReachesOne | mood-atlas-src/scripts/processAppleData.js:134-140 | with a positive maximum some normalised score is exactly 1 |
| ProcessAppleData.NormalizeKeepsOrder | mood-atlas-src/scripts/processAppleData.js:134-140 | normalising keeps the order between any two scores, both ways |
| ProcessAppleData.FirstIndexOf | mood-atlas-src/scripts/processAppleData.js:145-150 | the first position holding a value |
| ProcessAppleData.PrimaryIndex | mood-atlas-src/scripts/processAppleData.js:143-150 | the argmax index, when there is one, is in range |
| ProcessAppleData.PrimaryEmotion | mood-atlas-src/scripts/processAppleData.js:143-150 | the primary emotion is one of the eight labels |
| ProcessAppleData.PrimaryIndexIsFirstMax | mood-atlas-src/scripts/processAppleData.js:143-150 | there is no index iff every score is at most 0 (the result is then Calm); otherwise it is the first strictly largest positive score |
| ProcessAppleData.PrimaryIndexUnique | mood-atlas-src/scripts/processAppleData.js:143-150 | any first strictly largest positive score is the primary one |
| ProcessAppleData.PrimaryEmotionOfNormalized | mood-atlas-src/scripts/processAppleData.js:134-150 | normalising never changes the primary emotion |
| ProcessAppleData.EmotionsOf | mood-atlas-src/scripts/processAppleData.js:90-160 | eight scores and a primary emotion among the labels |
| ProcessAppleData.EmotionsInRange | mood-atlas-src/scripts/processAppleData.js:90-160 | for a well-formed record energy and every score lie in [0, 1]; some score is exactly 1 when any raw score is positive; the primary emotion is that of the raw scores |
| ProcessAppleData.CalculateEmotions | mood-atlas-src/scripts/processAppleData.js:90-160 | in-place normalisation plus the running argmax loop yields EmotionsOf |
| ProcessAppleData.Selected | mood-atlas-src/scripts/processAppleData.js:170-171 | the records kept have at least two plays and can be scored |
| ProcessAppleData.SelectedCover | mood-atlas-src/scripts/processAppleData.js:170-171 | a track is kept iff it was recorded with at least two plays |
| ProcessAppleData.Scores | mood-atlas-src/scripts/processAppleData.js:173 | one emotion result per kept record |
| ProcessAppleData.Entries | mood-atlas-src/scripts/processAppleData.js:175-187 | one output entry per kept record |
| ProcessAppleData.EntriesOf | mood-atlas-src/scripts/processAppleData.js:175-187 | entry i carries its record's track id and play count under the id next + i, and a track is listed iff it was kept |
| ProcessAppleData.InsertDesc | mood-atlas-src/scripts/processAppleData.js:191 | inserting adds one entry |
| ProcessAppleData.SortDesc | mood-atlas-src/scripts/processAppleData.js:191 | the sort keeps the number of entries |
| ProcessAppleData.InsertDescPermutes | mood-atlas-src/scripts/processAppleData.js:191 | insertion adds exactly the new entry to the multiset |
| ProcessAppleData.InsertDescSorted | mood-atlas-src/scripts/processAppleData.js:191 | insertion keeps descending play-count order |
| ProcessAppleData.InsertDescStable | mood-atlas-src/scripts/processAppleData.js:191 | insertion keeps the entries of each play count in order, the new one last |
| ProcessAppleData.SortDescSorted | mood-atlas-src/scripts/processAppleData.js:191 | the sort orders the entries by play count, highest first |
| ProcessAppleData.SortDescPermutes | mood-atlas-src/scripts/processAppleData.js:191 | the sort is a permutation |
| ProcessAppleData.SortDescStable | mood-atlas-src/scripts/processAppleData.js:191 | the sort is stable: entries with equal play counts keep their order |
| ProcessAppleData.InsertLast | mood-atlas-src/scripts/processAppleData.js:191 | one in-place insertion pass puts a[i] into the sorted prefix, leaving the rest of the array alone |
| ProcessAppleData.ShiftSmaller | mood-atlas-src/scripts/processAppleData.js:191 | the inner loop shifts exactly the entries with fewer plays one place right and returns where a[i] goes |
| ProcessAppleData.SortByPlayCount | mood-atlas-src/scripts/processAppleData.js:191 | the in-place sort leaves the array equal to SortDesc of its old contents |
| ProcessAppleData.SortedEntries | mood-atlas-src/scripts/processAppleData.js:175-191 | sorting kept entries lists exactly the kept tracks, each with at least two plays |
| ProcessAppleData.JsonSongsListed | mood-atlas-src/scripts/processAppleData.js:163-194 | the output holds exactly the tracks with at least two plays, sorted by play count descending |
| ProcessAppleData.JsonSongsNumbered | mood-atlas-src/scripts/processAppleData.js:167-187 | before the sort, ids "1".."k" follow the aggregation order |
| ProcessAppleData.JsonSongsStable | mood-atlas-src/scripts/processAppleData.js:176-191 | among equal play counts the output keeps the numbering order |
| ProcessAppleData.PlayHistory.constructor | mood-atlas-src/scripts/processAppleData.js:22 | `songData` starts empty |
| ProcessAppleData.PlayHistory.ProcessRow | mood-atlas-src/scripts/processAppleData.js:39-81 | one callback call updates the map as Step does, or reports its throw |
| ProcessAppleData.PlayHistory.RecordPlay | mood-atlas-src/scripts/processAppleData.js:55-80 | the record is created if new, counted and stored, or the end-reason throw is reported |
| ProcessAppleData.PlayHistory.ProcessCSV | mood-atlas-src/scripts/processAppleData.js:25-87 | the `forEach` over all rows leaves the map as the fold does, stopping at the first throw |
| ProcessAppleData.PlayHistory.CollectSongs | mood-atlas-src/scripts/processAppleData.js:166-188 | the `songData.forEach` pass yields the entries of the kept records, numbered from 1 |
| ProcessAppleData.PlayHistory.GenerateJSON | mood-atlas-src/scripts/processAppleData.js:163-194 | the collected entries, sorted in place, are the output described by JsonSongsListed |
| Security.RateKeyInjective | mood-atlas/src/utils/security.ts:130 | different minutes use different counter keys |
| Security.MissingCounterIsZero | mood-atlas/src/utils/security.ts:132 | an unwritten counter reads as 0 |
| Security.RateLimit | mood-atlas/src/utils/security.ts:127-139 | a refused call leaves storage unchanged; a call touches only its own minute's key |
| Security.RateLimitCounts | mood-atlas/src/utils/security.ts:127-139 | a call is refused iff its minute's count is at least 60; an allowed call stores the count plus one |
| Security.OtherMinutesUntouched | mood-atlas/src/utils/security.ts:128-138 | a call never changes another minute's count: minute buckets are independent |
| Security.UnreadableCountNeverLimits | mood-atlas/src/utils/security.ts:132-137 | once a counter is unreadable (NaN) every call of that minute is allowed and it stays unreadable |
| Security.RateLimitRun | mood-atlas/src/utils/security.ts:127-139 | one answer per call |
| Security.AllowedIn | mood-atlas/src/utils/security.ts:127-139 | allowed calls in a minute never exceed the calls made |
| Security.CallCountStep | mood-atlas/src/utils/security.ts:127-139 | from a count of at most 60, a call raises its own minute's count by one when allowed, keeps it when refused, and leaves other minutes' counts unchanged, so the count stays at most 60 |
| Security.AtMostSixtyPerMinute | mood-atlas/src/utils/security.ts:125-138 | a minute whose count starts at c allows at most 60 - c of any sequence of calls |
| Security.FreshSessionAllowsSixty | mood-atlas/src/utils/security.ts:125-138 | in a fresh session no minute allows more than 60 calls |
| Security.ValidateDeveloperToken | mood-atlas/src/utils/security.ts:103-121 | false for the empty token, the placeholder, or a token without exactly three dot-separated parts; anything else it returns is the decoded header's `alg`, and only when `typ` is JWT |
| Security.TruthyIffValid | mood-atlas/src/utils/security.ts:103-121 | the value returned is truthy exactly when the boolean check IsValidDeveloperToken holds |
| Security.ReturnsAlgNotBoolean | mood-atlas/src/utils/security.ts:117 | a well-formed token returns its algorithm name, not `true` |
| Security.AnonymizeUserData | mood-atlas/src/utils/security.ts:158-167 | the token and e-mail become undefined, other fields are kept, and userId is defined iff it was truthy |
| Security.UserIdBecomesPromise | mood-atlas/src/utils/security.ts:165-170 | a user id becomes the pending hash, not a hash string |
| Security.AnonymizeUserDataAwaited | mood-atlas/src/utils/security.ts:158-176 | the awaited version keeps the same keys, clears token and e-mail, and keeps every other field |
| Security.AwaitedRemovesIdentity | mood-atlas/src/utils/security.ts:158-176 | no identifying field is left: a present user id is replaced by its hash, which differs from it |
| Security.WithoutUserData | mood-atlas/src/utils/security.ts:95-100 | both keys are gone and every other key and value is untouched |
| Security.WithoutUserDataIdempotent | mood-atlas/src/utils/security.ts:95-100 | clearing twice is clearing once |
| Security.WithConsent | mood-atlas/src/utils/security.ts:184-186 | only the consent key is written |
| Security.ConsentRoundTrip | mood-atlas/src/utils/security.ts:179-186 | setting consent c and reading it back gives c |
| Security.BrowserStorage.constructor | mood-atlas/src/utils/security.ts:4 | the two stores as given |
| Security.BrowserStorage.CheckRateLimit | mood-atlas/src/utils/security.ts:127-139 | the answer and the new session store are RateLimit's; the local store is unchanged |
| Security.BrowserStorage.ClearUserData | mood-atlas/src/utils/security.ts:95-100 | both stores lose exactly the two keys |
| Security.BrowserStorage.SetUserConsent | mood-atlas/src/utils/security.ts:184-186 | the local store gets the consent entry and hasUserConsent then returns the value set |
| Carousel.NextScrollPosition | main.js:40-53 | prev is never negative and is 0 iff scrollLeft <= clientWidth; next never passes scrollWidth - clientWidth and equals it iff the remaining scroll is at most clientWidth |
| Carousel.PrevUndoesNext | main.js:40-53 | prev after a next that did not stop at the end returns to the start position |
| Carousel.NextUndoesPrev | main.js:40-53 | next after a prev that did not stop at 0 returns to the start position |
| Carousel.Easing | main.js:67 | t in [0, 1] maps into [0, 1], the first half below 0.5, the second half at or above it |
| Carousel.EasingFixedPoints | main.js:67 | 0, 0.5 and 1 are fixed points |
| Carousel.EasingSymmetric | main.js:67 | the curve is point-symmetric: easing(1 - t) = 1 - easing(t) |
| Carousel.EasingMonotone | main.js:67 | the curve never decreases on [0, 1] |
| Carousel.Progress | main.js:64 | progress is at most 1, non-negative for non-negative elapsed time, and 1 iff 500 ms have passed |
| Carousel.FramePositionBetween | main.js:68-70 | a frame after the start puts the container between its start and the target |
| Carousel.FrameAtEnd | main.js:64-70 | a frame at or after 500 ms puts the container exactly on the target |
| Carousel.FramePositionMonotone | main.js:62-70 | later frames never move the container back towards the start: positions never decrease on a forward scroll and never increase on a backward one |
| Carousel.FinalFrame | main.js:72-74 | the frame that ends the animation lies within the frames |
| Carousel.FinalFrameIsFirst | main.js:72-74 | it is the first frame whose progress is complete, all earlier frames incomplete |
| Carousel.FinalFrameUnique | main.js:72-74 | any first complete frame is the final one |
| Carousel.AnimationEndsOnTarget | main.js:56-78 | once a frame reaches 500 ms the animation stops there, on the target |
| Carousel.AnimationStaysBetween | main.js:56-78 | frames after the start never carry the container outside the span from start to target |
| Carousel.CanScrollMoreIffPixelLeft | main.js:27 | with a whole-pixel content width, next shows iff at least one full pixel lies beyond the rounded-up right edge |
| Carousel.AtEndNextHidden | main.js:27-48 | scrolled to next's end target, the next button hides |
| Carousel.InitialCheckAgrees | main.js:27-93 | the check at load, `scrollWidth > clientWidth`, agrees with the scroll-time test at position 0 |
| Carousel.ScrollContainer.constructor | main.js:92-93 | the load-time check shows next iff the content is wider than the container and leaves the position and the prev button as the page had them |
| Carousel.ScrollContainer.OnScroll | main.js:13-32 | prev visible iff scrollLeft > 0; next visible iff ceil(scrollLeft + clientWidth) < scrollWidth; the metrics unchanged |
| Carousel.ScrollContainer.SmoothScroll | main.js:56-78 | running the frames moves scrollLeft to AnimationEnd's position and runs exactly the frames up to the first complete one; nothing else changes |
| Carousel.ScrollContainer.Click | main.js:81-89 | a click scrolls smoothly to getNextScrollPosition's target |

## Left out

- Network, catalogue and storage I/O are parameters, not calls:
  - `fetch` and the CORS proxies are a function from (proxy, url) to an outcome;
  - `musicKit.api.music` is a function from path to answer;
  - JSON decoding of a response is part of the outcome.
- Timers are not modelled, only counted:
  - the 100 ms and 200 ms pauses;
  - `requestAnimationFrame` and `performance.now` (frame times are a given sequence);
  - the 150 ms `scrolling` class timer in main.js.
- `Date.now()` is a parameter read once per call. `new Date(..).getFullYear()` is not modelled, so songs carry no `year` field.
- `Math.random()` draws are parameters.
- `generateMockCityClusters` is not modelled because it is made only of random draws.
- Floating point: numbers are exact reals, with no IEEE rounding.
- Web Crypto is not modelled:
  - `hashString`'s SHA-256 digest is a parameter;
  - `encryptData`, `decryptData`, `storeUserLibrary`, `getUserLibrary`, `sanitizeInput` and `isSecureConnection` need the DOM or crypto and are left out.
- `toLowerCase`/`toUpperCase` are modelled for ASCII letters only.
- `parseInt` without a radix is modelled as leading white space, an optional sign, then either a `0x`/`0X` prefix and the longest run of hexadecimal digits or the longest run of decimal digits, with NaN as `None`. The rounding of a digit string too long for a double is not modelled: the model keeps the exact integer.
- `getDemoCities(count = 20)` and `fetchAllCityCharts(…, cities = getDemoCities(20))` have default arguments. The model has no defaults: callers pass `count` and the city list explicitly.
- The z coordinate of `calculatePosition` and `calculateCityPosition` is left out (trigonometry). Both functions model x and y only.
- DOM behaviour in main.js is not modelled:
  - the browser's clamping of `scrollLeft` to [0, scrollWidth - clientWidth];
  - the dispatch of `scroll` events, which is a separate `OnScroll` call.
- `Object.entries` ordering: layers follow first-appearance order of the labels. JavaScript puts integer-like keys first, and no label here is integer-like.
- `processAppleData.js`:
  - the CSV stream, the console summary and the file write are left out;
  - rows are a given sequence of five optional columns;
  - hours outside 0..23 (which would write past `hourCounts`) are not modelled.
- The score vector of `deezerCharts.ts:95-116` is modelled by `EmotionAnalysis.EmotionScores`, because its text is the same.
- `cityCharts.ts` duplicates the genre chain of `offlineMode.ts`, and both are modelled through `GenreTable`.
- CityCharts.CityChartCache.VisitAll takes the fetch of city i as `chart(i)`. `FetchAllCityCharts` supplies the real per-city charts through `ChartsOf`, so `FetchCityChart` is proved separately and not called from inside the loop.
- CityCharts.CityChartCache: the colour table is a constant field of the cache (the module's `emotionColors`).
- DeezerCharts.GetQuadrantColor: requires valence in [0, 1]. Outside it the intermediate colours are not `#rrggbb` strings, and reading them back is not modelled. Every caller passes an average of estimates in [0.15, 0.95].
- DeezerCharts.LerpColorAtZero and DeezerCharts.LerpColorAtOne: stated for lowercase endpoints only. An upper-case input comes back lower-cased.
- The sort is modelled as a stable insertion sort on an array. `Array.prototype.sort` is stable, so the order is the same.
- MoodAtlasOfflineMode: `analyzeSongMood`, imported from a module not part of this model, is left out, so the `mood` field of its output is not modelled.
- Where the code and its design notes disagree, the model follows the code:
  - the Deezer loader is sequential, with no batches;
  - the per-track jitter is linear, not trigonometric;
  - the registry has 33 regions.

## Findings

| source | as written | input that shows it | evidently intended | confidence | as-written member | corrected member |
|---|---|---|---|---|---|---|
| mood-atlas/src/utils/security.ts:117 | `validateDeveloperToken`, declared `boolean`, returns `header.typ === 'JWT' && header.alg`, which is the algorithm string | a token `h.p.s` whose header decodes to `{typ: "JWT", alg: "ES256"}` returns `"ES256"` | a boolean that is true iff the header names JWT and a non-empty algorithm | not executed | Security.ReturnsAlgNotBoolean | Security.TruthyIffValid |
| mood-atlas/src/utils/security.ts:165 | `anonymizeUserData` sets `userId` to `this.hashString(userId)` without awaiting it, so the field holds a Promise | a record with `userId: "u-1"` gets `userId` = a pending promise of the hash of "u-1" | the hex digest string replaces the raw id | not executed | Security.UserIdBecomesPromise | Security.AwaitedRemovesIdentity |
