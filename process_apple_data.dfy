/** The play-history script mood-atlas-src/scripts/processAppleData.js: a fold of the
    exported CSV rows into per-track counters (`processCSV`), the behavioural emotion
    scores of one track (`calculateEmotions`) and the output list (`generateJSON`). The
    CSV file itself is a sequence of rows; the JSON file written is the returned list. */
module ProcessAppleData {
  import opened Js
  import opened Text

  // ---------------------------------------------------------------------------
  // rows and the per-track record

  /** The five columns read from a row; a column missing from the file is `None`. */
  datatype Row = Row(
    trackId: Option<string>,
    description: Option<string>,
    playDuration: Option<string>,
    endReason: Option<string>,
    hours: Option<string>)

  /** The record `songData` keeps for one track identifier. */
  datatype TrackStats = TrackStats(
    trackId: string,
    artist: string,
    title: string,
    totalDuration: int,
    playCount: nat,
    skipCount: nat,
    naturalEndCount: nat,
    hourCounts: seq<nat>,
    durations: seq<int>)

  /** The accepted identity of a row: its track, artist and title. */
  datatype Track = Track(trackId: string, artist: string, title: string)

  const Separator: string := " - "
  const NaturalEnd: string := "NATURAL_END_OF_TRACK"

  /** `parseInt(row['Play Duration Milliseconds']) || 0`. */
  function PlayDuration(row: Row): (d: int)
    ensures row.playDuration.None? ==> d == 0
    ensures row.playDuration.Some? && ParseInt(row.playDuration.value).Some? ==> d == ParseInt(row.playDuration.value).value
  {
    if row.playDuration.None? then 0
    else match ParseInt(row.playDuration.value)
      case None => 0
      case Some(v) => v
  }

  /** `parseInt(row['Hours']) || 12`: an unreadable hour and hour 0 both become 12. */
  function Hour(row: Row): (h: int)
    ensures h != 0
    ensures row.hours.Some? && ParseInt(row.hours.value).Some? && ParseInt(row.hours.value).value != 0
            ==> h == ParseInt(row.hours.value).value
  {
    var p := if row.hours.Some? then ParseInt(row.hours.value) else None;
    if p.Some? && p.value != 0 then p.value else 12
  }

  /** `parseInt` without a radix reads a `0x` column in base 16, so such a duration or
      hour is neither 0 nor the default. */
  lemma HexColumnsAreRead(row: Row)
    requires row.playDuration == Some("0x1A") && row.hours == Some("0x5")
    ensures PlayDuration(row) == 26 && Hour(row) == 5
  {
    ParseIntHex();
    ParseIntOfHexLiteral("0x5");
    assert "0x5"[2..] == "5";
    assert HexPrefix("5") == "5" by { assert "5"[1..] == ""; }
    assert HexDigitsValue("5") == 5 by { assert "5"[..0] == ""; }
  }

  /** The skip rules and the artist/title split of a row: `None` when the row is ignored. */
  function Accept(row: Row): (t: Option<Track>)
    ensures t.Some? ==> row.trackId == Some(t.value.trackId) && t.value.trackId != ""
  {
    if row.trackId.None? || row.trackId.value == "" then None
    else if row.description.None? || row.description.value == "" || row.description.value == "N/A" then None
    else
      var parts := Split(row.description.value, Separator);
      if |parts| < 2 then None
      else Some(Track(row.trackId.value, Trim(parts[0]), Trim(Join(parts[1..], Separator))))
  }

  /** A row is kept exactly when it has a track identifier and a description other than
      "N/A" that contains " - ". */
  lemma AcceptIff(row: Row)
    ensures Accept(row).Some? <==>
            row.trackId.Some? && row.trackId.value != ""
            && row.description.Some? && row.description.value != "" && row.description.value != "N/A"
            && Contains(row.description.value, Separator)
  {
    if row.description.Some? {
      SplitHasTwoPieces(row.description.value, Separator);
    }
  }

  /** The artist is the trimmed text before the first " - ", the title the trimmed text
      after it, further " - " included. */
  lemma AcceptSplitsAtFirstSeparator(row: Row, k: nat)
    requires Accept(row).Some? && row.description.Some?
    requires FirstOccurrence(row.description.value, Separator, 0) == Some(k)
    ensures k + |Separator| <= |row.description.value|
    ensures Accept(row).value.artist == Trim(row.description.value[..k])
    ensures Accept(row).value.title == Trim(row.description.value[k + |Separator|..])
  {
    JoinTail(row.description.value, Separator, k);
  }

  /** What the callback reads from an accepted row: the track, the hour, the duration
      and the end reason. */
  datatype Play = Play(track: Track, hour: int, duration: int, endReason: Option<string>)

  /** The row as the callback reads it: `None` for a skipped row. */
  function ReadRow(row: Row): (p: Option<Play>)
    ensures p.Some? <==> Accept(row).Some?
    ensures p.Some? ==> p.value.track == Accept(row).value && p.value.hour != 0
                        && p.value.endReason == row.endReason
  {
    match Accept(row)
    case None => None
    case Some(track) => Some(Play(track, Hour(row), PlayDuration(row), row.endReason))
  }

  /** The record created for the first accepted row of a track. */
  function NewStats(track: Track): (t: TrackStats)
    ensures t.trackId == track.trackId && t.playCount == 0 && |t.hourCounts| == 24
  {
    TrackStats(track.trackId, track.artist, track.title, 0, 0, 0, 0, seq(24, _ => 0), [])
  }

  /** The counters every accepted row updates: one more play, its duration added and
      appended, its hour counted. An hour outside 0..23 writes a property outside the 24
      slots, which nothing reads. */
  function Record(t: TrackStats, p: Play): (r: TrackStats)
  {
    t.(playCount := t.playCount + 1,
       totalDuration := t.totalDuration + p.duration,
       durations := t.durations + [p.duration],
       hourCounts := if 0 <= p.hour < |t.hourCounts| then t.hourCounts[p.hour := t.hourCounts[p.hour] + 1] else t.hourCounts)
  }

  /** The end-reason test. A missing reason that is not the natural end reaches
      `endReason.includes(..)` on `undefined` (the `&&` binds tighter than the `||`) and
      throws. */
  function CountEnd(t: TrackStats, reason: Option<string>): (r: Result<TrackStats>)
    ensures r.Err? <==> reason.None?
    ensures r.Ok? ==> r.value.playCount == t.playCount
                      && r.value.naturalEndCount + r.value.skipCount <= t.naturalEndCount + t.skipCount + 1
  {
    if reason == Some(NaturalEnd) then Ok(t.(naturalEndCount := t.naturalEndCount + 1))
    else if reason.None? then Err("TypeError: Cannot read properties of undefined (reading 'includes')")
    else if Contains(reason.value, "SKIP") || Contains(reason.value, "MANUALLY_SELECTED") then
      Ok(t.(skipCount := t.skipCount + 1))
    else Ok(t)
  }

  /** The natural end wins over the skip test; otherwise a reason mentioning SKIP or
      MANUALLY_SELECTED is a skip. */
  lemma CountEndCases(t: TrackStats, reason: string)
    ensures reason == NaturalEnd ==> CountEnd(t, Some(reason)) == Ok(t.(naturalEndCount := t.naturalEndCount + 1))
    ensures reason != NaturalEnd && (Contains(reason, "SKIP") || Contains(reason, "MANUALLY_SELECTED"))
            ==> CountEnd(t, Some(reason)) == Ok(t.(skipCount := t.skipCount + 1))
    ensures reason != NaturalEnd && !Contains(reason, "SKIP") && !Contains(reason, "MANUALLY_SELECTED")
            ==> CountEnd(t, Some(reason)) == Ok(t)
  {
  }

  /** `songData`: the track identifiers in insertion order, and their records. */
  datatype State = State(order: seq<string>, songs: map<string, TrackStats>)

  const Empty: State := State([], map[])

  /** One row of the `results.forEach` callback. */
  function Step(s: State, row: Row): Result<State>
  {
    Apply(s, ReadRow(row))
  }

  /** The callback once the row is read: nothing for a skipped row, otherwise the
      track's record is created if new, counted and stored. */
  function Apply(s: State, play: Option<Play>): Result<State>
  {
    match play
    case None => Ok(s)
    case Some(p) =>
      var id := p.track.trackId;
      var known := id in s.songs;
      var t := Record(if known then s.songs[id] else NewStats(p.track), p);
      match CountEnd(t, p.endReason)
      case Err(e) => Err(e)
      case Ok(t') => Ok(State(if known then s.order else s.order + [id], s.songs[id := t']))
  }

  /** The state after an accepted row whose end reason the record passes. */
  lemma ApplyCounted(s: State, p: Play, counted: TrackStats)
    requires var id := p.track.trackId;
             CountEnd(Record(if id in s.songs then s.songs[id] else NewStats(p.track), p), p.endReason) == Ok(counted)
    ensures var id := p.track.trackId;
            Apply(s, Some(p)) == Ok(State(if id in s.songs then s.order else s.order + [id], s.songs[id := counted]))
  {
  }

  /** The rows as read, in order. */
  function Reads(rows: seq<Row>): (plays: seq<Option<Play>>)
    ensures |plays| == |rows|
  {
    if rows == [] then [] else [ReadRow(rows[0])] + Reads(rows[1..])
  }

  lemma {:induction false} ReadsAt(rows: seq<Row>, i: nat)
    requires i < |rows|
    ensures Reads(rows)[i] == ReadRow(rows[i]) && Reads(rows)[i..][1..] == Reads(rows)[i + 1..]
  {
    if i > 0 {
      ReadsAt(rows[1..], i - 1);
    }
  }

  /** The callback over the rows read, left to right, stopping at the first that throws. */
  function Fold(s: State, plays: seq<Option<Play>>): Result<State>
    decreases |plays|
  {
    if plays == [] then Ok(s)
    else match Apply(s, plays[0])
      case Err(e) => Err(e)
      case Ok(s') => Fold(s', plays[1..])
  }

  /** The whole `forEach`. */
  function Aggregate(s: State, rows: seq<Row>): Result<State>
  {
    Fold(s, Reads(rows))
  }

  /** The fold is the callback applied row by row. */
  lemma AggregateUnfold(s: State, rows: seq<Row>)
    requires rows != []
    ensures Aggregate(s, rows) == match Step(s, rows[0])
                                  case Err(e) => Err(e)
                                  case Ok(s') => Aggregate(s', rows[1..])
  {
  }

  // ---------------------------------------------------------------------------
  // the invariant of the aggregated map

  /** The bookkeeping every record keeps: one duration per play summing to the total,
      no more completions and skips than plays, 24 hour slots of which slot 0 is never
      counted, and no more counted hours than plays. */
  ghost predicate Consistent(t: TrackStats)
  {
    |t.hourCounts| == 24 && t.hourCounts[0] == 0
    && |t.durations| == t.playCount && SumInt(t.durations) == t.totalDuration
    && t.naturalEndCount + t.skipCount <= t.playCount
    && SumInt(t.hourCounts) <= t.playCount
  }

  /** A stored record: consistent, with at least one play. */
  ghost predicate WellFormed(t: TrackStats)
  {
    Consistent(t) && t.playCount >= 1
  }

  ghost predicate Valid(s: State)
  {
    (forall i, j :: 0 <= i < j < |s.order| ==> s.order[i] != s.order[j])
    && s.songs.Keys == set k | k in s.order
    && (forall k :: k in s.songs ==> s.songs[k].trackId == k && WellFormed(s.songs[k]))
  }

  lemma {:induction false} SumIntZeros(n: nat)
    ensures SumInt(seq(n, _ => 0)) == 0
  {
    if n > 0 {
      assert seq(n, _ => 0)[..n - 1] == seq(n - 1, _ => 0);
      SumIntZeros(n - 1);
    }
  }

  lemma {:induction false} SumIntIncrement(xs: seq<int>, h: nat)
    requires h < |xs|
    ensures SumInt(xs[h := xs[h] + 1]) == SumInt(xs) + 1
  {
    var ys := xs[h := xs[h] + 1];
    if h < |xs| - 1 {
      assert ys[..|ys| - 1] == xs[..|xs| - 1][h := xs[h] + 1];
      SumIntIncrement(xs[..|xs| - 1], h);
    } else {
      assert ys[..|ys| - 1] == xs[..|xs| - 1];
    }
  }

  lemma SumIntSnoc(xs: seq<int>, d: int)
    ensures SumInt(xs + [d]) == SumInt(xs) + d
  {
    assert (xs + [d])[..|xs|] == xs;
  }

  lemma NewStatsConsistent(track: Track)
    ensures Consistent(NewStats(track))
  {
    SumIntZeros(24);
  }

  /** Recording a play at a non-zero hour makes a consistent record well formed, with
      room for one more completion or skip. */
  lemma RecordWellFormed(t: TrackStats, p: Play)
    requires Consistent(t) && p.hour != 0
    ensures var r := Record(t, p);
            WellFormed(r) && t.naturalEndCount + t.skipCount < r.playCount
  {
    SumIntSnoc(t.durations, p.duration);
    if 0 <= p.hour < |t.hourCounts| {
      SumIntIncrement(t.hourCounts, p.hour);
    }
  }

  /** Storing a well-formed record under its own identifier keeps the map valid. */
  lemma StoreValid(s: State, t: TrackStats)
    requires Valid(s) && WellFormed(t)
    ensures var known := t.trackId in s.songs;
            Valid(State(if known then s.order else s.order + [t.trackId], s.songs[t.trackId := t]))
  {
    var id := t.trackId;
    var known := id in s.songs;
    var s' := State(if known then s.order else s.order + [id], s.songs[id := t]);
    assert known <==> id in s.order;
    assert s'.songs.Keys == set k | k in s'.order;
  }

  /** The plays a row can yield: those with a non-zero hour. */
  predicate Readable(plays: seq<Option<Play>>)
  {
    forall i :: 0 <= i < |plays| && plays[i].Some? ==> plays[i].value.hour != 0
  }

  lemma ReadsReadable(rows: seq<Row>)
    ensures Readable(Reads(rows))
  {
    forall i | 0 <= i < |rows| && Reads(rows)[i].Some?
      ensures Reads(rows)[i].value.hour != 0
    {
      ReadsAt(rows, i);
    }
  }

  /** Counting the end reason of a record with room for one more completion or skip
      keeps it well formed and under its identifier. */
  lemma CountEndWellFormed(t: TrackStats, reason: Option<string>)
    requires WellFormed(t) && t.naturalEndCount + t.skipCount < t.playCount
    requires CountEnd(t, reason).Ok?
    ensures WellFormed(CountEnd(t, reason).value) && CountEnd(t, reason).value.trackId == t.trackId
  {
  }

  lemma ApplyValid(s: State, play: Option<Play>)
    requires Valid(s) && Apply(s, play).Ok?
    requires play.Some? ==> play.value.hour != 0
    ensures Valid(Apply(s, play).value)
  {
    if play.Some? {
      var p := play.value;
      var t0 := if p.track.trackId in s.songs then s.songs[p.track.trackId] else NewStats(p.track);
      if p.track.trackId !in s.songs {
        NewStatsConsistent(p.track);
      }
      RecordWellFormed(t0, p);
      CountEndWellFormed(Record(t0, p), p.endReason);
      var t' := CountEnd(Record(t0, p), p.endReason).value;
      ApplyCounted(s, p, t');
      StoreValid(s, t');
    }
  }

  lemma {:induction false} FoldValid(s: State, plays: seq<Option<Play>>)
    requires Valid(s) && Readable(plays) && Fold(s, plays).Ok?
    ensures Valid(Fold(s, plays).value)
    decreases |plays|
  {
    if plays != [] {
      ApplyValid(s, plays[0]);
      FoldValid(Apply(s, plays[0]).value, plays[1..]);
    }
  }

  /** The aggregation keeps the map's invariant, whatever rows it reads. */
  lemma AggregateValid(s: State, rows: seq<Row>)
    requires Valid(s) && Aggregate(s, rows).Ok?
    ensures Valid(Aggregate(s, rows).value)
  {
    ReadsReadable(rows);
    FoldValid(s, Reads(rows));
  }

  /** Hence hour 0, which `|| 12` turns into hour 12, is never counted. */
  lemma HourZeroNeverCounted(rows: seq<Row>, id: string)
    requires Aggregate(Empty, rows).Ok? && id in Aggregate(Empty, rows).value.songs
    ensures |Aggregate(Empty, rows).value.songs[id].hourCounts| == 24
            && Aggregate(Empty, rows).value.songs[id].hourCounts[0] == 0
  {
    AggregateValid(Empty, rows);
  }

  // ---------------------------------------------------------------------------
  // what the fold counts

  /** How many of the plays are of track `id`. */
  function PlaysOf(plays: seq<Option<Play>>, id: string): (n: nat)
    ensures n <= |plays|
  {
    if plays == [] then 0
    else (if plays[0].Some? && plays[0].value.track.trackId == id then 1 else 0) + PlaysOf(plays[1..], id)
  }

  /** How many of the rows are accepted for track `id`. */
  function AcceptedFor(rows: seq<Row>, id: string): nat
  {
    PlaysOf(Reads(rows), id)
  }

  function PlayCount(s: State, id: string): nat
  {
    if id in s.songs then s.songs[id].playCount else 0
  }

  lemma ApplyCounts(s: State, play: Option<Play>, id: string)
    requires Apply(s, play).Ok?
    ensures PlayCount(Apply(s, play).value, id)
            == PlayCount(s, id) + if play.Some? && play.value.track.trackId == id then 1 else 0
    ensures id in Apply(s, play).value.songs <==> id in s.songs || (play.Some? && play.value.track.trackId == id)
  {
  }

  lemma {:induction false} FoldCounts(s: State, plays: seq<Option<Play>>, id: string)
    requires Fold(s, plays).Ok?
    ensures PlayCount(Fold(s, plays).value, id) == PlayCount(s, id) + PlaysOf(plays, id)
    ensures id in Fold(s, plays).value.songs <==> id in s.songs || PlaysOf(plays, id) > 0
    decreases |plays|
  {
    if plays != [] {
      ApplyCounts(s, plays[0], id);
      FoldCounts(Apply(s, plays[0]).value, plays[1..], id);
    }
  }

  /** Every accepted row counts exactly one play of its own track and no other, and a
      track is in the map exactly when one of its rows was accepted. */
  lemma PlayCountCountsRows(s: State, rows: seq<Row>, id: string)
    requires Aggregate(s, rows).Ok?
    ensures PlayCount(Aggregate(s, rows).value, id) == PlayCount(s, id) + AcceptedFor(rows, id)
    ensures id in Aggregate(s, rows).value.songs <==> id in s.songs || AcceptedFor(rows, id) > 0
  {
    FoldCounts(s, Reads(rows), id);
  }

  /** A row is accepted for `id` exactly when the skip rules keep it and its identifier
      is `id`. */
  lemma AcceptedForCons(rows: seq<Row>, id: string)
    requires rows != []
    ensures AcceptedFor(rows, id)
            == (if Accept(rows[0]).Some? && rows[0].trackId == Some(id) then 1 else 0) + AcceptedFor(rows[1..], id)
  {
  }

  /** A track already recorded keeps its artist and title through any row. */
  lemma ApplyKeepsNames(s: State, play: Option<Play>, id: string)
    requires id in s.songs && Apply(s, play).Ok?
    ensures id in Apply(s, play).value.songs
    ensures Apply(s, play).value.songs[id].artist == s.songs[id].artist
    ensures Apply(s, play).value.songs[id].title == s.songs[id].title
  {
    match play
    case None =>
    case Some(p) =>
      if p.track.trackId == id {
        var t := Record(s.songs[id], p);
        assert CountEnd(t, p.endReason).value.artist == s.songs[id].artist;
      }
  }

  lemma {:induction false} FoldKeepsNames(s: State, plays: seq<Option<Play>>, id: string)
    requires id in s.songs && Fold(s, plays).Ok?
    ensures id in Fold(s, plays).value.songs
    ensures Fold(s, plays).value.songs[id].artist == s.songs[id].artist
    ensures Fold(s, plays).value.songs[id].title == s.songs[id].title
    decreases |plays|
  {
    if plays != [] {
      ApplyKeepsNames(s, plays[0], id);
      FoldKeepsNames(Apply(s, plays[0]).value, plays[1..], id);
    }
  }

  /** The first accepted row of a track fixes its artist and title: later rows only move
      the counters. */
  lemma NamesFixedByFirstRow(s: State, rows: seq<Row>, id: string)
    requires id in s.songs && Aggregate(s, rows).Ok?
    ensures id in Aggregate(s, rows).value.songs
    ensures Aggregate(s, rows).value.songs[id].artist == s.songs[id].artist
    ensures Aggregate(s, rows).value.songs[id].title == s.songs[id].title
  {
    FoldKeepsNames(s, Reads(rows), id);
  }

  /** An accepted row whose end reason is missing aborts the run. */
  lemma MissingEndReasonThrows(s: State, row: Row)
    requires Accept(row).Some? && row.endReason.None?
    ensures Step(s, row).Err?
  {
  }

  /** A skipped row changes nothing. */
  lemma SkippedRowChangesNothing(s: State, row: Row)
    requires Accept(row).None?
    ensures Step(s, row) == Ok(s)
  {
  }

  // ---------------------------------------------------------------------------
  // calculateEmotions

  /** The eight keys of `emotionScores`, in insertion order. */
  const Labels: seq<string> := ["Happy", "Exuberant", "Energetic", "Frantic", "Anxious/Sad", "Depression", "Calm", "Contentment"]
  const CalmLabel: string := "Calm"

  /** What `calculateEmotions` needs of a record: a play to divide by and the 24 slots. */
  predicate Scorable(t: TrackStats)
  {
    t.playCount > 0 && |t.hourCounts| == 24
  }

  /** The sum of the slots of `xs` at the given indices. */
  function SumAt(xs: seq<int>, idx: seq<nat>): int
    requires forall k :: 0 <= k < |idx| ==> idx[k] < |xs|
  {
    if idx == [] then 0 else SumAt(xs, idx[..|idx| - 1]) + xs[idx[|idx| - 1]]
  }

  lemma {:induction false} SumAtPrefix(xs: seq<int>, idx: seq<nat>, m: nat)
    requires m <= |xs| && forall k :: 0 <= k < |idx| ==> idx[k] < m
    ensures SumAt(xs, idx) == SumAt(xs[..m], idx)
  {
    if idx != [] {
      SumAtPrefix(xs, idx[..|idx| - 1], m);
    }
  }

  /** A few slots of a sequence of counts never sum to more than all of them. */
  lemma {:induction false} SumAtBound(xs: seq<int>, idx: seq<nat>)
    requires forall k :: 0 <= k < |xs| ==> xs[k] >= 0
    requires forall k :: 0 <= k < |idx| ==> idx[k] < |xs|
    requires forall k, l :: 0 <= k < l < |idx| ==> idx[k] < idx[l]
    ensures 0 <= SumAt(xs, idx) <= SumInt(xs)
    decreases |xs|
  {
    if xs == [] {
      assert idx == [];
    } else {
      var n := |xs|;
      if idx != [] && idx[|idx| - 1] == n - 1 {
        var rest := idx[..|idx| - 1];
        SumAtPrefix(xs, rest, n - 1);
        SumAtBound(xs[..n - 1], rest);
      } else {
        SumAtPrefix(xs, idx, n - 1);
        SumAtBound(xs[..n - 1], idx);
      }
    }
  }

  const LateNightHours: seq<nat> := [0, 1, 2, 22, 23]
  const MorningHours: seq<nat> := [6, 7, 8, 9]
  const AfternoonHours: seq<nat> := [12, 13, 14, 15]

  function CompletionRate(t: TrackStats): real
    requires Scorable(t)
  {
    t.naturalEndCount as real / t.playCount as real
  }

  function SkipRate(t: TrackStats): real
    requires Scorable(t)
  {
    t.skipCount as real / t.playCount as real
  }

  /** The share of plays in the given hours (`lateNightPlays`, `morningPlays`, `afternoonPlays`). */
  function HourShare(t: TrackStats, hours: seq<nat>): real
    requires Scorable(t) && forall k :: 0 <= k < |hours| ==> hours[k] < 24
  {
    SumAt(t.hourCounts, hours) as real / t.playCount as real
  }

  function Energy(t: TrackStats): real
    requires Scorable(t)
  {
    CompletionRate(t) * 0.6 + Min(t.playCount as real / 20.0, 1.0) * 0.4
  }

  function Stress(t: TrackStats): real
    requires Scorable(t)
  {
    SkipRate(t) * 0.5 + (1.0 - HourShare(t, LateNightHours) * 0.7) * 0.5
  }

  function Engagement(t: TrackStats): real
    requires Scorable(t)
  {
    Min(t.playCount as real / 15.0 * CompletionRate(t), 1.0)
  }

  /** The eight raw scores of Thayer's quadrants, each floored at 0. */
  function RawScores(t: TrackStats): (r: seq<real>)
    requires Scorable(t)
    ensures |r| == |Labels| && forall i :: 0 <= i < |r| ==> r[i] >= 0.0
  {
    var e := Energy(t);
    var s := Stress(t);
    var g := Engagement(t);
    var late := HourShare(t, LateNightHours);
    [Max(0.0, e * (1.0 - s) * (if HourShare(t, MorningHours) > 0.2 then 1.2 else 1.0)),
     Max(0.0, e * (1.0 - s) * g * 1.1),
     Max(0.0, e * s * (if HourShare(t, AfternoonHours) > 0.2 then 1.2 else 1.0)),
     Max(0.0, e * s * SkipRate(t) * 1.3),
     Max(0.0, (1.0 - e) * s * (if late > 0.3 then 1.3 else 1.0)),
     Max(0.0, (1.0 - e) * s * (1.0 - g)),
     Max(0.0, (1.0 - e) * (1.0 - s) * (if late > 0.3 then 1.3 else 1.0)),
     Max(0.0, (1.0 - e) * (1.0 - s) * g)]
  }

  /** With no more completions and skips than plays and no more counted hours than plays,
      every rate lies in [0, 1], and the stress in [0.15, 1]. */
  lemma RatesInRange(t: TrackStats)
    requires Scorable(t) && t.naturalEndCount + t.skipCount <= t.playCount
    requires SumInt(t.hourCounts) <= t.playCount
    ensures 0.0 <= CompletionRate(t) <= 1.0 && 0.0 <= SkipRate(t) <= 1.0
    ensures 0.0 <= HourShare(t, LateNightHours) <= 1.0
    ensures 0.0 <= Energy(t) <= 1.0 && 0.15 <= Stress(t) <= 1.0 && 0.0 <= Engagement(t) <= 1.0
  {
    var n := t.playCount as real;
    DivBetween(t.naturalEndCount as real, n, 0.0, 1.0);
    DivBetween(t.skipCount as real, n, 0.0, 1.0);
    SumAtBound(t.hourCounts, LateNightHours);
    DivBetween(SumAt(t.hourCounts, LateNightHours) as real, n, 0.0, 1.0);
  }

  /** `Math.max(...Object.values(emotionScores))`. */
  function MaxOf(xs: seq<real>): (m: real)
    requires |xs| > 0
    ensures forall i :: 0 <= i < |xs| ==> xs[i] <= m
    ensures exists i :: 0 <= i < |xs| && xs[i] == m
  {
    if |xs| == 1 then xs[0]
    else
      var m := MaxOf(xs[..|xs| - 1]);
      assert forall i :: 0 <= i < |xs| - 1 ==> xs[..|xs| - 1][i] == xs[i];
      if xs[|xs| - 1] > m then xs[|xs| - 1] else m
  }

  /** The normalisation: each score divided by the largest and capped at 1, when the
      largest is positive; otherwise the scores stay. */
  function Normalize(xs: seq<real>): (r: seq<real>)
    requires |xs| > 0
    ensures |r| == |xs|
  {
    var m := MaxOf(xs);
    if m > 0.0 then seq(|xs|, i requires 0 <= i < |xs| => Scaled(xs[i], m)) else xs
  }

  /** `Math.min(score / maxScore, 1)`. */
  function Scaled(x: real, m: real): real
    requires m > 0.0
  {
    Min(x / m, 1.0)
  }

  lemma ScaledBelowMax(x: real, m: real)
    requires 0.0 <= x <= m && m > 0.0
    ensures Scaled(x, m) == x / m && 0.0 <= x / m <= 1.0
  {
    DivBetween(x, m, 0.0, 1.0);
  }

  /** With a positive largest score the cap never bites: each score is divided by it. */
  lemma NormalizedAt(xs: seq<real>, i: nat)
    requires i < |xs| && xs[i] >= 0.0 && MaxOf(xs) > 0.0
    ensures Normalize(xs)[i] == xs[i] / MaxOf(xs) && 0.0 <= Normalize(xs)[i] <= 1.0
  {
    var m := MaxOf(xs);
    assert Normalize(xs)[i] == Scaled(xs[i], m);
    ScaledBelowMax(xs[i], m);
  }

  /** Normalised non-negative scores lie in [0, 1]. */
  lemma NormalizeInUnit(xs: seq<real>)
    requires |xs| > 0 && forall i :: 0 <= i < |xs| ==> xs[i] >= 0.0
    ensures forall i :: 0 <= i < |xs| ==> 0.0 <= Normalize(xs)[i] <= 1.0
  {
    if MaxOf(xs) > 0.0 {
      forall i | 0 <= i < |xs|
        ensures 0.0 <= Normalize(xs)[i] <= 1.0
      {
        NormalizedAt(xs, i);
      }
    }
  }

  /** A positive largest score becomes exactly 1. */
  lemma NormalizeReachesOne(xs: seq<real>)
    requires |xs| > 0 && forall i :: 0 <= i < |xs| ==> xs[i] >= 0.0
    requires MaxOf(xs) > 0.0
    ensures exists i :: 0 <= i < |xs| && Normalize(xs)[i] == 1.0
  {
    var m := MaxOf(xs);
    var k :| 0 <= k < |xs| && xs[k] == m;
    NormalizedAt(xs, k);
    DivSelf(m);
  }

  lemma DivSelf(m: real)
    requires m > 0.0
    ensures m / m == 1.0
  {
  }

  /** Normalising keeps the order of the scores. */
  lemma NormalizeKeepsOrder(xs: seq<real>, i: nat, j: nat)
    requires |xs| > 0 && forall k :: 0 <= k < |xs| ==> xs[k] >= 0.0
    requires i < |xs| && j < |xs|
    ensures Normalize(xs)[i] < Normalize(xs)[j] <==> xs[i] < xs[j]
  {
    if MaxOf(xs) > 0.0 {
      NormalizedAt(xs, i);
      NormalizedAt(xs, j);
      DivLess(xs[i], xs[j], MaxOf(xs));
    }
  }

  lemma DivLess(a: real, b: real, m: real)
    requires m > 0.0
    ensures a / m < b / m <==> a < b
  {
    if a < b {
      assert b / m - a / m == (b - a) / m;
    } else {
      assert a / m - b / m == (a - b) / m;
    }
  }

  /** The first position holding `v`. */
  function FirstIndexOf(xs: seq<real>, v: real): (i: nat)
    requires v in xs
    ensures i < |xs| && xs[i] == v && forall j :: 0 <= j < i ==> xs[j] != v
  {
    if xs[0] == v then 0 else 1 + FirstIndexOf(xs[1..], v)
  }

  /** The index of the primary emotion: the first score equal to the largest, when that
      is positive; `None` (Calm) when every score is 0. */
  function PrimaryIndex(xs: seq<real>): (r: Option<nat>)
    requires |xs| > 0
    ensures r.Some? ==> r.value < |xs|
  {
    var m := MaxOf(xs);
    if m > 0.0 then Some(FirstIndexOf(xs, m)) else None
  }

  function PrimaryEmotion(xs: seq<real>): (name: string)
    requires |xs| == |Labels|
    ensures name in Labels
  {
    match PrimaryIndex(xs)
    case None => CalmLabel
    case Some(i) => Labels[i]
  }

  /** The primary index is the first strictly largest positive score; there is none
      exactly when no score is positive. */
  lemma PrimaryIndexIsFirstMax(xs: seq<real>)
    requires |xs| > 0
    ensures PrimaryIndex(xs).None? <==> forall j :: 0 <= j < |xs| ==> xs[j] <= 0.0
    ensures PrimaryIndex(xs).Some? ==>
            var i := PrimaryIndex(xs).value;
            xs[i] > 0.0 && (forall j :: 0 <= j < |xs| ==> xs[j] <= xs[i]) && (forall j :: 0 <= j < i ==> xs[j] < xs[i])
  {
  }

  /** Any first strictly largest positive score is the primary one. */
  lemma PrimaryIndexUnique(xs: seq<real>, i: nat)
    requires i < |xs| && xs[i] > 0.0
    requires forall j :: 0 <= j < |xs| ==> xs[j] <= xs[i]
    requires forall j :: 0 <= j < i ==> xs[j] < xs[i]
    ensures PrimaryIndex(xs) == Some(i)
  {
    assert MaxOf(xs) == xs[i];
  }

  /** Normalising does not move the primary emotion. */
  lemma PrimaryEmotionOfNormalized(xs: seq<real>)
    requires |xs| == |Labels| && forall i :: 0 <= i < |xs| ==> xs[i] >= 0.0
    ensures PrimaryEmotion(Normalize(xs)) == PrimaryEmotion(xs)
  {
    var ys := Normalize(xs);
    PrimaryIndexIsFirstMax(xs);
    if PrimaryIndex(xs).Some? {
      var i := PrimaryIndex(xs).value;
      NormalizedAt(xs, i);
      forall j | 0 <= j < |xs| ensures ys[j] <= ys[i] && (j < i ==> ys[j] < ys[i]) {
        NormalizeKeepsOrder(xs, j, i);
        NormalizeKeepsOrder(xs, i, j);
      }
      PrimaryIndexUnique(ys, i);
    } else {
      assert ys == xs;
    }
  }

  /** The result of `calculateEmotions`. */
  datatype Emotions = Emotions(
    energy: real,
    scores: seq<real>,
    primaryEmotion: string,
    completionRate: real,
    skipRate: real,
    engagement: real)

  function EmotionsOf(t: TrackStats): (e: Emotions)
    requires Scorable(t)
    ensures |e.scores| == |Labels| && e.primaryEmotion in Labels
  {
    var scores := Normalize(RawScores(t));
    Emotions(Min(Energy(t), 1.0), scores, PrimaryEmotion(scores), CompletionRate(t), SkipRate(t), Engagement(t))
  }

  /** For a well-formed record: energy and every score in [0, 1], some score exactly 1
      unless all are 0, and the primary emotion is the first label whose raw score is
      strictly largest, Calm when all are 0. */
  lemma EmotionsInRange(t: TrackStats)
    requires WellFormed(t)
    ensures var e := EmotionsOf(t);
            0.0 <= e.energy <= 1.0 && forall i :: 0 <= i < |e.scores| ==> 0.0 <= e.scores[i] <= 1.0
    ensures var e := EmotionsOf(t);
            MaxOf(RawScores(t)) > 0.0 ==> exists i :: 0 <= i < |e.scores| && e.scores[i] == 1.0
    ensures EmotionsOf(t).primaryEmotion == PrimaryEmotion(RawScores(t))
  {
    RatesInRange(t);
    NormalizeInUnit(RawScores(t));
    if MaxOf(RawScores(t)) > 0.0 {
      NormalizeReachesOne(RawScores(t));
    }
    PrimaryEmotionOfNormalized(RawScores(t));
  }

  /** `calculateEmotions(song)`: the scores normalised in place, then the running
      maximum over `Object.entries`. */
  method CalculateEmotions(t: TrackStats) returns (e: Emotions)
    requires Scorable(t)
    ensures e == EmotionsOf(t)
  {
    var raw := RawScores(t);
    var scores := raw;
    var maxScore := MaxOf(raw);
    if maxScore > 0.0 {
      var k := 0;
      while k < |scores|
        invariant 0 <= k <= |scores| == |raw|
        invariant forall i :: 0 <= i < k ==> scores[i] == Scaled(raw[i], maxScore)
        invariant forall i :: k <= i < |scores| ==> scores[i] == raw[i]
      {
        scores := scores[k := Min(scores[k] / maxScore, 1.0)];
        assert scores[k] == Scaled(raw[k], maxScore);
        k := k + 1;
      }
    }
    assert scores == Normalize(raw);
    var primary := CalmLabel;
    var best := 0.0;
    ghost var at := 0;
    var k := 0;
    while k < |scores|
      invariant 0 <= k <= |scores| == |Labels|
      invariant best >= 0.0 && forall j :: 0 <= j < k ==> scores[j] <= best
      invariant best > 0.0 ==> at < k && scores[at] == best && primary == Labels[at]
                               && forall j :: 0 <= j < at ==> scores[j] < best
      invariant best == 0.0 ==> primary == CalmLabel
    {
      if scores[k] > best {
        best := scores[k];
        primary := Labels[k];
        at := k;
      }
      k := k + 1;
    }
    if best > 0.0 {
      PrimaryIndexUnique(scores, at);
    } else {
      PrimaryIndexIsFirstMax(scores);
    }
    e := Emotions(Min(Energy(t), 1.0), scores, primary, CompletionRate(t), SkipRate(t), Engagement(t));
  }

  // ---------------------------------------------------------------------------
  // generateJSON

  /** One entry of the output file. */
  datatype OutputSong = OutputSong(
    id: string,
    trackId: string,
    title: string,
    artist: string,
    energy: real,
    primaryEmotion: string,
    emotionScores: seq<real>,
    playCount: nat,
    skipCount: nat,
    completionRate: int,
    dataSource: string)

  /** The entry for record `t` with emotions `e` under id `n`; the completion rate is a
      rounded percentage. */
  function Output(t: TrackStats, e: Emotions, n: nat): OutputSong
  {
    OutputSong(NatToString(n), t.trackId, t.title, t.artist, e.energy, e.primaryEmotion, e.scores,
               t.playCount, t.skipCount, Round(e.completionRate * 100.0), "apple")
  }

  /** Every listed identifier has a record that can be scored. */
  ghost predicate Tracked(order: seq<string>, songs: map<string, TrackStats>)
  {
    forall i :: 0 <= i < |order| ==> order[i] in songs && Scorable(songs[order[i]])
  }

  lemma ValidTracked(s: State)
    requires Valid(s)
    ensures Tracked(s.order, s.songs)
  {
  }

  /** The records the `songData.forEach` pass of `generateJSON` outputs: those with at
      least two plays, in insertion order. */
  function Selected(order: seq<string>, songs: map<string, TrackStats>): (r: seq<TrackStats>)
    requires Tracked(order, songs)
    ensures |r| <= |order|
    ensures forall i :: 0 <= i < |r| ==> r[i].playCount >= 2 && Scorable(r[i])
  {
    if order == [] then []
    else
      var t := songs[order[|order| - 1]];
      Selected(order[..|order| - 1], songs) + (if t.playCount >= 2 then [t] else [])
  }

  lemma SelectedSnoc(order: seq<string>, songs: map<string, TrackStats>, i: nat)
    requires i < |order| && Tracked(order, songs)
    ensures Tracked(order[..i], songs) && Tracked(order[..i + 1], songs)
    ensures var t := songs[order[i]];
            Selected(order[..i + 1], songs) == Selected(order[..i], songs) + (if t.playCount >= 2 then [t] else [])
  {
    assert order[..i + 1][..i] == order[..i];
  }

  /** Some record of `r` is for track `id`. */
  predicate Has(r: seq<TrackStats>, id: string)
  {
    exists i :: 0 <= i < |r| && r[i].trackId == id
  }

  lemma HasAppend(r: seq<TrackStats>, r': seq<TrackStats>, id: string)
    ensures Has(r + r', id) <==> Has(r, id) || Has(r', id)
  {
    if Has(r, id) {
      var i :| 0 <= i < |r| && r[i].trackId == id;
      assert (r + r')[i].trackId == id;
    }
    if Has(r', id) {
      var i :| 0 <= i < |r'| && r'[i].trackId == id;
      assert (r + r')[|r| + i].trackId == id;
    }
    if Has(r + r', id) {
      var i :| 0 <= i < |r + r'| && (r + r')[i].trackId == id;
      if i < |r| {
        assert r[i].trackId == id;
      } else {
        assert r'[i - |r|].trackId == id;
      }
    }
  }

  /** A track is selected exactly when it was recorded with at least two plays. */
  lemma {:induction false} SelectedCover(order: seq<string>, songs: map<string, TrackStats>, id: string)
    requires Tracked(order, songs)
    requires forall i :: 0 <= i < |order| ==> songs[order[i]].trackId == order[i]
    ensures Has(Selected(order, songs), id) <==> id in order && songs[id].playCount >= 2
  {
    if order != [] {
      var init := order[..|order| - 1];
      var t := songs[order[|order| - 1]];
      SelectedCover(init, songs, id);
      assert order == init + [order[|order| - 1]];
      assert id in order <==> id in init || id == order[|order| - 1];
      HasAppend(Selected(init, songs), if t.playCount >= 2 then [t] else [], id);
      if t.playCount >= 2 {
        assert [t][0].trackId == t.trackId;
      }
    }
  }

  /** `calculateEmotions` of each selected record. */
  function Scores(sel: seq<TrackStats>): (ems: seq<Emotions>)
    requires forall i :: 0 <= i < |sel| ==> Scorable(sel[i])
    ensures |ems| == |sel|
  {
    seq(|sel|, i requires 0 <= i < |sel| => EmotionsOf(sel[i]))
  }

  lemma ScoresSnoc(sel: seq<TrackStats>, t: TrackStats)
    requires forall i :: 0 <= i < |sel| ==> Scorable(sel[i])
    requires Scorable(t)
    ensures Scores(sel + [t]) == Scores(sel) + [EmotionsOf(t)]
  {
    assert (sel + [t])[|sel|] == t;
    forall i | 0 <= i < |sel|
      ensures Scores(sel + [t])[i] == Scores(sel)[i]
    {
      assert (sel + [t])[i] == sel[i];
    }
  }

  /** The output entries of the selected records, numbered from `next` on. */
  function Entries(sel: seq<TrackStats>, ems: seq<Emotions>, next: nat): (r: seq<OutputSong>)
    requires |ems| == |sel|
    ensures |r| == |sel|
  {
    seq(|sel|, i requires 0 <= i < |sel| => Output(sel[i], ems[i], next + i))
  }

  lemma EntriesSnoc(sel: seq<TrackStats>, ems: seq<Emotions>, t: TrackStats, e: Emotions, next: nat)
    requires |ems| == |sel|
    ensures Entries(sel + [t], ems + [e], next) == Entries(sel, ems, next) + [Output(t, e, next + |sel|)]
  {
    assert (sel + [t])[|sel|] == t && (ems + [e])[|sel|] == e;
    forall i | 0 <= i < |sel|
      ensures Entries(sel + [t], ems + [e], next)[i] == Entries(sel, ems, next)[i]
    {
      assert (sel + [t])[i] == sel[i] && (ems + [e])[i] == ems[i];
    }
  }

  /** Some entry of `r` is for track `id`. */
  predicate Lists(r: seq<OutputSong>, id: string)
  {
    exists i :: 0 <= i < |r| && r[i].trackId == id
  }

  /** Each entry carries its record's identifier and play count, under its position's id. */
  lemma EntriesOf(sel: seq<TrackStats>, ems: seq<Emotions>, next: nat, id: string)
    requires |ems| == |sel|
    ensures forall i :: 0 <= i < |sel| ==>
              Entries(sel, ems, next)[i].id == NatToString(next + i) && Entries(sel, ems, next)[i].trackId == sel[i].trackId
              && Entries(sel, ems, next)[i].playCount == sel[i].playCount
    ensures Lists(Entries(sel, ems, next), id) <==> Has(sel, id)
  {
    var r := Entries(sel, ems, next);
    if Has(sel, id) {
      var i :| 0 <= i < |sel| && sel[i].trackId == id;
      assert r[i].trackId == id;
    }
    if Lists(r, id) {
      var i :| 0 <= i < |r| && r[i].trackId == id;
      assert sel[i].trackId == id;
    }
  }

  lemma ListsPermutation(r: seq<OutputSong>, r': seq<OutputSong>, id: string)
    requires multiset(r) == multiset(r')
    ensures Lists(r, id) <==> Lists(r', id)
  {
    if Lists(r, id) {
      var i :| 0 <= i < |r| && r[i].trackId == id;
      assert r[i] in multiset(r');
      var k :| 0 <= k < |r'| && r'[k] == r[i];
    }
    if Lists(r', id) {
      var i :| 0 <= i < |r'| && r'[i].trackId == id;
      assert r'[i] in multiset(r);
      var k :| 0 <= k < |r| && r[k] == r'[i];
    }
  }

  /** `songs.sort((a, b) => b.playCount - a.playCount)`, which is stable: `x` goes after
      every entry with at least its play count. */
  function InsertDesc(s: seq<OutputSong>, x: OutputSong): (r: seq<OutputSong>)
    ensures |r| == |s| + 1
  {
    if s == [] then [x]
    else if s[|s| - 1].playCount >= x.playCount then s + [x]
    else InsertDesc(s[..|s| - 1], x) + [s[|s| - 1]]
  }

  function SortDesc(xs: seq<OutputSong>): (r: seq<OutputSong>)
    ensures |r| == |xs|
  {
    if xs == [] then [] else InsertDesc(SortDesc(xs[..|xs| - 1]), xs[|xs| - 1])
  }

  predicate SortedDesc(s: seq<OutputSong>)
  {
    forall i, j :: 0 <= i < j < |s| ==> s[i].playCount >= s[j].playCount
  }

  /** The entries with play count `p`, in order. */
  function OfCount(s: seq<OutputSong>, p: nat): seq<OutputSong>
  {
    if s == [] then [] else OfCount(s[..|s| - 1], p) + (if s[|s| - 1].playCount == p then [s[|s| - 1]] else [])
  }

  lemma {:induction false} InsertDescPermutes(s: seq<OutputSong>, x: OutputSong)
    ensures multiset(InsertDesc(s, x)) == multiset(s) + multiset{x}
  {
    if s != [] && s[|s| - 1].playCount < x.playCount {
      InsertDescPermutes(s[..|s| - 1], x);
      assert s == s[..|s| - 1] + [s[|s| - 1]];
    }
  }

  lemma {:induction false} InsertDescSorted(s: seq<OutputSong>, x: OutputSong)
    requires SortedDesc(s)
    ensures SortedDesc(InsertDesc(s, x))
  {
    if s != [] && s[|s| - 1].playCount < x.playCount {
      var last := s[|s| - 1];
      var init := s[..|s| - 1];
      InsertDescSorted(init, x);
      InsertDescPermutes(init, x);
      var r := InsertDesc(init, x);
      forall i | 0 <= i < |r|
        ensures r[i].playCount >= last.playCount
      {
        assert r[i] in multiset(r);
        if r[i] != x {
          assert r[i] in multiset(init);
          var k :| 0 <= k < |init| && init[k] == r[i];
        }
      }
    }
  }

  /** The position `x` takes: after the entries with at least its play count. */
  lemma {:induction false} InsertDescAt(s: seq<OutputSong>, x: OutputSong, j: nat)
    requires j <= |s|
    requires j > 0 ==> s[j - 1].playCount >= x.playCount
    requires forall k :: j <= k < |s| ==> s[k].playCount < x.playCount
    ensures InsertDesc(s, x) == s[..j] + [x] + s[j..]
  {
    if s != [] && j < |s| {
      var init := s[..|s| - 1];
      InsertDescAt(init, x, j);
      assert init[..j] == s[..j];
      assert init[j..] + [s[|s| - 1]] == s[j..];
    }
  }

  lemma OfCountSnoc(s: seq<OutputSong>, y: OutputSong, p: nat)
    ensures OfCount(s + [y], p) == OfCount(s, p) + (if y.playCount == p then [y] else [])
  {
    assert (s + [y])[..|s|] == s;
  }

  /** Inserting keeps the entries of each play count in their original order. */
  lemma {:induction false} InsertDescStable(s: seq<OutputSong>, x: OutputSong, p: nat)
    ensures OfCount(InsertDesc(s, x), p) == OfCount(s, p) + (if x.playCount == p then [x] else [])
  {
    if s == [] {
      assert InsertDesc(s, x) == [] + [x];
      OfCountSnoc([], x, p);
    } else if s[|s| - 1].playCount >= x.playCount {
      OfCountSnoc(s, x, p);
    } else {
      var init := s[..|s| - 1];
      InsertDescStable(init, x, p);
      OfCountSnoc(InsertDesc(init, x), s[|s| - 1], p);
    }
  }

  /** The sort orders the entries by play count, highest first. */
  lemma {:induction false} SortDescSorted(xs: seq<OutputSong>)
    ensures SortedDesc(SortDesc(xs))
  {
    if xs != [] {
      SortDescSorted(xs[..|xs| - 1]);
      InsertDescSorted(SortDesc(xs[..|xs| - 1]), xs[|xs| - 1]);
    }
  }

  /** The sort is a permutation. */
  lemma {:induction false} SortDescPermutes(xs: seq<OutputSong>)
    ensures multiset(SortDesc(xs)) == multiset(xs)
  {
    if xs != [] {
      SortDescPermutes(xs[..|xs| - 1]);
      InsertDescPermutes(SortDesc(xs[..|xs| - 1]), xs[|xs| - 1]);
      assert xs == xs[..|xs| - 1] + [xs[|xs| - 1]];
    }
  }

  /** The sort is stable: the entries of each play count keep their original order. */
  lemma {:induction false} SortDescStable(xs: seq<OutputSong>, p: nat)
    ensures OfCount(SortDesc(xs), p) == OfCount(xs, p)
  {
    if xs != [] {
      SortDescStable(xs[..|xs| - 1], p);
      InsertDescStable(SortDesc(xs[..|xs| - 1]), xs[|xs| - 1], p);
    }
  }

  /** One pass of the in-place sort: `a[i]` moves left past the entries with a lower
      play count, the sorted prefix before it shifting one place right. */
  method InsertLast(a: array<OutputSong>, i: nat)
    requires i < a.Length
    modifies a
    ensures a[..i + 1] == InsertDesc(old(a[..i]), old(a[i]))
    ensures a[i + 1..] == old(a[i + 1..])
  {
    var x := a[i];
    ghost var sorted := a[..i];
    var j := ShiftSmaller(a, i);
    a[j] := x;
    assert a[..j] == sorted[..j];
    assert a[j + 1..i + 1] == sorted[j..];
    assert a[i + 1..] == old(a[i + 1..]);
    InsertDescAt(sorted, x, j);
    assert a[..i + 1] == sorted[..j] + [x] + sorted[j..];
  }

  /** The inner loop of the insertion: moves the entries before `i` with fewer plays than
      entry `i` one place up, and returns the gap `j` left for it. */
  method ShiftSmaller(a: array<OutputSong>, i: nat) returns (j: nat)
    requires i < a.Length
    modifies a
    ensures j <= i
    ensures j > 0 ==> old(a[..i])[j - 1].playCount >= old(a[i]).playCount
    ensures forall k :: j <= k < i ==> old(a[..i])[k].playCount < old(a[i]).playCount
    ensures forall k :: 0 <= k < j ==> a[k] == old(a[k])
    ensures forall k :: j < k <= i ==> a[k] == old(a[k - 1])
    ensures forall k :: i < k < a.Length ==> a[k] == old(a[k])
  {
    var x := a[i];
    ghost var sorted := a[..i];
    j := i;
    while j > 0 && a[j - 1].playCount < x.playCount
      invariant 0 <= j <= i
      invariant forall k :: 0 <= k < j ==> a[k] == sorted[k]
      invariant forall k :: j < k <= i ==> a[k] == sorted[k - 1]
      invariant forall k :: i < k < a.Length ==> a[k] == old(a[k])
      invariant forall k :: j <= k < i ==> sorted[k].playCount < x.playCount
    {
      a[j] := a[j - 1];
      j := j - 1;
    }
  }

  /** The sort, done in place on the array of entries (an insertion sort: the comparator
      only looks at play counts and the sort is stable). */
  method SortByPlayCount(a: array<OutputSong>)
    modifies a
    ensures a[..] == SortDesc(old(a[..]))
  {
    var i := 0;
    while i < a.Length
      invariant 0 <= i <= a.Length
      invariant a[..i] == SortDesc(old(a[..])[..i])
      invariant a[i..] == old(a[..])[i..]
    {
      assert old(a[..])[..i + 1][..i] == old(a[..])[..i];
      InsertLast(a, i);
      i := i + 1;
    }
    assert a[..i] == a[..] && old(a[..])[..i] == old(a[..]);
  }

  /** The output file: the selected records' entries, numbered from 1, sorted by play
      count. */
  function JsonSongs(s: State): seq<OutputSong>
    requires Tracked(s.order, s.songs)
  {
    var sel := Selected(s.order, s.songs);
    SortDesc(Entries(sel, Scores(sel), 1))
  }

  /** Sorting the entries of records with at least two plays lists exactly those
      records, each with at least two plays, highest first. */
  lemma SortedEntries(sel: seq<TrackStats>, ems: seq<Emotions>, id: string)
    requires |ems| == |sel| && forall i :: 0 <= i < |sel| ==> sel[i].playCount >= 2
    ensures var out := SortDesc(Entries(sel, ems, 1));
            SortedDesc(out) && (forall i :: 0 <= i < |out| ==> out[i].playCount >= 2)
            && (Lists(out, id) <==> Has(sel, id))
  {
    var es := Entries(sel, ems, 1);
    var out := SortDesc(es);
    SortDescSorted(es);
    SortDescPermutes(es);
    EntriesOf(sel, ems, 1, id);
    forall i | 0 <= i < |out| ensures out[i].playCount >= 2 {
      assert out[i] in multiset(es);
      var k :| 0 <= k < |es| && es[k] == out[i];
    }
    ListsPermutation(out, es, id);
  }

  /** What `generateJSON` writes: exactly the tracks with at least two plays, ordered by
      play count, highest first. */
  lemma JsonSongsListed(s: State, id: string)
    requires Valid(s)
    ensures SortedDesc(JsonSongs(s))
    ensures forall i :: 0 <= i < |JsonSongs(s)| ==> JsonSongs(s)[i].playCount >= 2
    ensures Lists(JsonSongs(s), id) <==> id in s.songs && s.songs[id].playCount >= 2
  {
    var sel := Selected(s.order, s.songs);
    SortedEntries(sel, Scores(sel), id);
    SelectedCover(s.order, s.songs, id);
  }

  /** Before the sort the entries are the selected records in insertion order, numbered
      "1", "2", ..; the sort only permutes them. */
  lemma JsonSongsNumbered(s: State)
    requires Tracked(s.order, s.songs)
    ensures var sel := Selected(s.order, s.songs);
            var es := Entries(sel, Scores(sel), 1);
            (forall i :: 0 <= i < |es| ==> es[i].id == NatToString(i + 1) && es[i].trackId == sel[i].trackId)
            && multiset(JsonSongs(s)) == multiset(es)
  {
    var sel := Selected(s.order, s.songs);
    EntriesOf(sel, Scores(sel), 1, "");
    SortDescPermutes(Entries(sel, Scores(sel), 1));
  }

  /** The sort keeps the numbering order among entries of equal play count: the entries
      with `p` plays appear in the output as they were numbered. */
  lemma JsonSongsStable(s: State, p: nat)
    requires Tracked(s.order, s.songs)
    ensures var sel := Selected(s.order, s.songs);
            OfCount(JsonSongs(s), p) == OfCount(Entries(sel, Scores(sel), 1), p)
  {
    var sel := Selected(s.order, s.songs);
    SortDescStable(Entries(sel, Scores(sel), 1), p);
  }

  /** The entries collected from the first `i` identifiers of `order`. */
  ghost function Collected(order: seq<string>, songs: map<string, TrackStats>, i: nat): seq<OutputSong>
    requires i <= |order| && Tracked(order, songs)
  {
    assert Tracked(order[..i], songs);
    var sel := Selected(order[..i], songs);
    Entries(sel, Scores(sel), 1)
  }

  /** One pass of the collecting loop: the record of `order[i]` adds the entry numbered
      after those so far when it has at least two plays, and nothing otherwise. */
  lemma CollectStep(order: seq<string>, songs: map<string, TrackStats>, i: nat)
    requires i < |order| && Tracked(order, songs)
    ensures var t := songs[order[i]];
            var before := Collected(order, songs, i);
            Scorable(t)
            && Collected(order, songs, i + 1)
               == before + (if t.playCount >= 2 then [Output(t, EmotionsOf(t), |before| + 1)] else [])
  {
    SelectedSnoc(order, songs, i);
    var t := songs[order[i]];
    var sel := Selected(order[..i], songs);
    if t.playCount >= 2 {
      ScoresSnoc(sel, t);
      EntriesSnoc(sel, Scores(sel), t, EmotionsOf(t), 1);
    }
  }

  // ---------------------------------------------------------------------------
  // the script's state

  /** The module-level `songData` map, its insertion order kept beside it. */
  class PlayHistory {
    var order: seq<string>
    var songData: map<string, TrackStats>

    function Current(): State
      reads this
    {
      State(order, songData)
    }

    constructor()
      ensures Current() == Empty
    {
      order := [];
      songData := map[];
    }

    /** One call of the `results.forEach` callback; `Some` is the error it throws. */
    method ProcessRow(row: Row) returns (error: Option<string>)
      modifies this
      ensures Step(old(Current()), row).Ok? ==> error.None? && Current() == Step(old(Current()), row).value
      ensures Step(old(Current()), row).Err? ==> error.Some?
    {
      var play := ReadRow(row);
      if play.None? {
        return None;
      }
      error := RecordPlay(play.value);
    }

    /** The callback past the skip rules: the track's record is created if new, counted,
        and its end reason tested; on a throw the counted record is already stored, as the
        script mutates the stored object in place. */
    method RecordPlay(p: Play) returns (error: Option<string>)
      modifies this
      ensures Apply(old(Current()), Some(p)).Ok? ==> error.None? && Current() == Apply(old(Current()), Some(p)).value
      ensures Apply(old(Current()), Some(p)).Err? ==> error.Some?
    {
      ghost var s0 := Current();
      var id := p.track.trackId;
      var song;
      if id in songData {
        song := songData[id];
      } else {
        song := NewStats(p.track);
        order := order + [id];
      }
      ghost var before := song;
      var hours := song.hourCounts;
      if 0 <= p.hour < |hours| {
        hours := hours[p.hour := hours[p.hour] + 1];
      }
      song := song.(playCount := song.playCount + 1, totalDuration := song.totalDuration + p.duration,
                    durations := song.durations + [p.duration], hourCounts := hours);
      assert song == Record(before, p);
      error := None;
      if p.endReason == Some(NaturalEnd) {
        song := song.(naturalEndCount := song.naturalEndCount + 1);
      } else if p.endReason.None? {
        error := Some("TypeError: Cannot read properties of undefined (reading 'includes')");
      } else if Contains(p.endReason.value, "SKIP") || Contains(p.endReason.value, "MANUALLY_SELECTED") {
        song := song.(skipCount := song.skipCount + 1);
      }
      if error.None? {
        ApplyCounted(s0, p, song);
      }
      songData := songData[id := song];
    }

    /** The `forEach` over all rows of the file, stopping at the first row that throws. */
    method ProcessCSV(rows: seq<Row>) returns (error: Option<string>)
      modifies this
      ensures Aggregate(old(Current()), rows).Ok? ==> error.None? && Current() == Aggregate(old(Current()), rows).value
      ensures Aggregate(old(Current()), rows).Err? ==> error.Some?
    {
      var i := 0;
      while i < |rows|
        invariant 0 <= i <= |rows|
        invariant Aggregate(old(Current()), rows) == Fold(Current(), Reads(rows)[i..])
      {
        ReadsAt(rows, i);
        error := ProcessRow(rows[i]);
        if error.Some? {
          return;
        }
        i := i + 1;
      }
      return None;
    }

    /** The `songData.forEach` pass of `generateJSON`: an entry for every record with at
        least two plays, numbered from 1 in insertion order. */
    method CollectSongs() returns (out: seq<OutputSong>)
      requires Tracked(order, songData)
      ensures out == Entries(Selected(order, songData), Scores(Selected(order, songData)), 1)
    {
      out := [];
      var songId := 1;
      var i := 0;
      while i < |order|
        invariant 0 <= i <= |order|
        invariant out == Collected(order, songData, i) && songId == |out| + 1
      {
        CollectStep(order, songData, i);
        var song := songData[order[i]];
        if song.playCount >= 2 {
          var emotions := CalculateEmotions(song);
          var entry := OutputSong(NatToString(songId), song.trackId, song.title, song.artist, emotions.energy,
                                  emotions.primaryEmotion, emotions.scores, song.playCount, song.skipCount,
                                  Round(emotions.completionRate * 100.0), "apple");
          assert entry == Output(song, EmotionsOf(song), songId);
          out := out + [entry];
          songId := songId + 1;
        }
        i := i + 1;
      }
      assert order[..i] == order;
    }

    /** `generateJSON` after the aggregation: the entries collected, then sorted in place
        by play count. */
    method GenerateJSON() returns (songs: seq<OutputSong>)
      requires Valid(Current())
      ensures songs == JsonSongs(Current())
    {
      ValidTracked(Current());
      var out := CollectSongs();
      var a := new OutputSong[|out|](k requires 0 <= k < |out| => out[k]);
      assert a[..] == out;
      SortByPlayCount(a);
      songs := a[..];
    }
  }
}
