/** The genre keyword decision table that opens `generateAudioFeatures` in both
    mood-atlas-src/src/utils/cityCharts.ts and mood-atlas-src/src/utils/offlineMode.ts: the
    same nineteen `includes` tests in the same order, the first match deciding. Each file
    attaches its own base features to the branch this module picks. */
module GenreTable {
  import opened Text

  /** The keywords of each branch, top to bottom. */
  const Keywords: seq<seq<string>> := [
    ["electronic", "dance", "edm", "house", "techno"],
    ["hip-hop", "hip hop", "rap"],
    ["r&b", "rnb", "soul"],
    ["rock", "metal", "punk", "grunge"],
    ["indie", "alternative"],
    ["pop"],
    ["latin", "reggaeton", "salsa", "bachata"],
    ["afrobeat", "afro"],
    ["k-pop", "kpop", "j-pop", "jpop"],
    ["reggae", "dub"],
    ["country", "folk"],
    ["jazz", "blues"],
    ["classical", "orchestra", "symphony"],
    ["ambient", "chill", "lofi", "lo-fi"],
    ["singer", "songwriter"],
    ["funk", "disco"],
    ["new wave", "synth", "synthpop"],
    ["post-punk", "darkwave", "goth"],
    ["soundtrack", "score", "cinematic"]]

  /** Branch indices with a name used by the lemmas below. */
  const Rock: nat := 3
  const Pop: nat := 5
  const KPop: nat := 8
  const PostPunk: nat := 17

  /** The index that stands for "no branch matched": the defaults stay. */
  const NoMatch: nat := |Keywords|

  /** The test of branch `b` of a keyword table: the genre includes one of its keywords. */
  predicate MatchesIn(table: seq<seq<string>>, genre: string, b: nat)
    requires b < |table|
  {
    exists j :: 0 <= j < |table[b]| && Contains(genre, table[b][j])
  }

  /** The first branch at or after `from` whose test passes, or `|table|`. */
  function FirstMatchFrom(table: seq<seq<string>>, genre: string, from: nat): (b: nat)
    requires from <= |table|
    ensures from <= b <= |table|
    decreases |table| - from
  {
    if from == |table| then |table|
    else if MatchesIn(table, genre, from) then from
    else FirstMatchFrom(table, genre, from + 1)
  }

  lemma {:induction false} FirstMatchFromIsFirst(table: seq<seq<string>>, genre: string, from: nat)
    requires from <= |table|
    ensures var b := FirstMatchFrom(table, genre, from);
            (b < |table| ==> MatchesIn(table, genre, b)) && forall c :: from <= c < b ==> !MatchesIn(table, genre, c)
    decreases |table| - from
  {
    if from < |table| && !MatchesIn(table, genre, from) {
      FirstMatchFromIsFirst(table, genre, from + 1);
    }
  }

  /** The branch an `if (includes(..) || ..) .. else if ..` chain over `table` takes. */
  function FirstMatch(table: seq<seq<string>>, genre: string): (b: nat)
    ensures b <= |table|
  {
    FirstMatchFrom(table, genre, 0)
  }

  /** The branch taken is the first whose test passes, all earlier tests failing; it is
      `|table|` (no branch) exactly when no test passes. */
  lemma FirstMatchIsFirst(table: seq<seq<string>>, genre: string)
    ensures var b := FirstMatch(table, genre);
            (b < |table| ==> MatchesIn(table, genre, b))
            && (forall c :: 0 <= c < b ==> !MatchesIn(table, genre, c))
            && (b == |table| <==> forall c :: 0 <= c < |table| ==> !MatchesIn(table, genre, c))
  {
    FirstMatchFromIsFirst(table, genre, 0);
  }

  /** The branch is fixed by which tests pass: any branch whose test passes while all
      earlier ones fail is the one taken. */
  lemma FirstMatchUnique(table: seq<seq<string>>, genre: string, b: nat)
    requires b < |table| && MatchesIn(table, genre, b)
    requires forall c :: 0 <= c < b ==> !MatchesIn(table, genre, c)
    ensures FirstMatch(table, genre) == b
  {
    FirstMatchIsFirst(table, genre);
  }

  /** The test of branch `b` of the nineteen-branch table. */
  predicate Matches(genre: string, b: nat)
    requires b < |Keywords|
  {
    MatchesIn(Keywords, genre, b)
  }

  /** The branch the nineteen-branch chain takes for an already lower-cased genre. */
  function Branch(genre: string): (b: nat)
    ensures b <= NoMatch
  {
    FirstMatch(Keywords, genre)
  }

  lemma BranchIsFirstMatch(genre: string)
    ensures var b := Branch(genre);
            (b < NoMatch ==> Matches(genre, b))
            && (forall c :: 0 <= c < b ==> !Matches(genre, c))
            && (b == NoMatch <==> forall c :: 0 <= c < NoMatch ==> !Matches(genre, c))
  {
    FirstMatchIsFirst(Keywords, genre);
    forall c | 0 <= c < NoMatch
      ensures Matches(genre, c) == MatchesIn(Keywords, genre, c)
    {
    }
  }

  lemma PopInsideKPop(k: string)
    requires k in Keywords[KPop]
    ensures Contains(k, "pop")
  {
    assert OccursAt(k, "pop", |k| - 3);
  }

  /** The k-pop/j-pop branch is dead: each of its keywords contains "pop", so the pop
      branch above it always fires first. */
  lemma KPopUnreachable(genre: string)
    ensures Branch(genre) != KPop
  {
    BranchIsFirstMatch(genre);
    if Matches(genre, KPop) {
      var j :| 0 <= j < |Keywords[KPop]| && Contains(genre, Keywords[KPop][j]);
      PopInsideKPop(Keywords[KPop][j]);
      ContainsTransitive(genre, Keywords[KPop][j], "pop");
      assert Keywords[Pop][0] == "pop";
      assert Matches(genre, Pop);
    }
  }

  /** A genre mentioning post-punk is decided at the rock branch or earlier (through
      "punk"), never by the post-punk branch. */
  lemma PostPunkIsRock(genre: string)
    requires Contains(genre, "post-punk")
    ensures Branch(genre) <= Rock
  {
    BranchIsFirstMatch(genre);
    assert OccursAt("post-punk", "punk", 5);
    ContainsTransitive(genre, "post-punk", "punk");
    assert Contains(genre, Keywords[Rock][2]);
  }

  /** Every keyword of the table has at least one character. */
  lemma KeywordsNonEmpty(c: nat, j: nat)
    requires c < |Keywords| && j < |Keywords[c]|
    ensures |Keywords[c][j]| > 0
  {
    assert forall b, i :: 0 <= b < |Keywords| && 0 <= i < |Keywords[b]| ==> |Keywords[b][i]| > 0;
  }

  /** The empty genre, which missing genre data becomes, matches nothing. */
  lemma EmptyGenreMatchesNothing()
    ensures Branch("") == NoMatch
  {
    BranchIsFirstMatch("");
    forall c | 0 <= c < NoMatch
      ensures !Matches("", c)
    {
      forall j | 0 <= j < |Keywords[c]|
        ensures !Contains("", Keywords[c][j])
      {
        KeywordsNonEmpty(c, j);
      }
    }
  }
}
