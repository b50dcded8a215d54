/** The layer grouping both mock-song modules share (`generateMoodLayers` in
    mood-atlas-src/src/data/mockSongs.ts and mood-atlas/src/data/mockSongs.ts): a `reduce`
    that pushes each song onto the list for its key, then one layer per key with the song
    count, the mean energy, a clamped radius, a stacked height and a colour. The two files
    differ only in the key (`primaryEmotion` or `mood`) and the colour table, which are
    parameters here. */
module MoodLayering {
  import opened Js

  /** One layer of the atlas. */
  datatype Layer<T> = Layer(
    id: string,
    name: string,
    songs: seq<T>,
    totalSongs: nat,
    avgEnergy: real,
    radius: real,
    height: real,
    color: string)

  // ---------------------------------------------------------------------------
  // Grouping

  /** The keys of `xs` in order of first appearance: the order in which the `reduce`
      creates the accumulator's entries, which `Object.entries` gives back. */
  function Keys<T>(xs: seq<T>, key: T -> string): seq<string>
  {
    if xs == [] then []
    else
      var ks := Keys(xs[..|xs| - 1], key);
      if key(xs[|xs| - 1]) in ks then ks else ks + [key(xs[|xs| - 1])]
  }

  /** The songs with key `k`, in input order: the list the `reduce` builds for `k`. */
  function Group<T>(xs: seq<T>, key: T -> string, k: string): seq<T>
  {
    if xs == [] then []
    else Group(xs[..|xs| - 1], key, k) + (if key(xs[|xs| - 1]) == k then [xs[|xs| - 1]] else [])
  }

  /** A string is a key exactly when some song has it. */
  lemma {:induction false} KeysAreTheSongKeys<T>(xs: seq<T>, key: T -> string)
    ensures forall k :: k in Keys(xs, key) <==> exists i :: 0 <= i < |xs| && key(xs[i]) == k
  {
    if xs != [] {
      var init := xs[..|xs| - 1];
      KeysAreTheSongKeys(init, key);
      forall k | (exists i :: 0 <= i < |xs| && key(xs[i]) == k)
        ensures k in Keys(xs, key)
      {
        var i :| 0 <= i < |xs| && key(xs[i]) == k;
        if i < |xs| - 1 {
          assert init[i] == xs[i];
        }
      }
      forall k | k in Keys(init, key)
        ensures exists i :: 0 <= i < |xs| && key(xs[i]) == k
      {
        var i :| 0 <= i < |init| && key(init[i]) == k;
        assert xs[i] == init[i];
      }
    }
  }

  /** No key appears twice, so each key gets exactly one layer. */
  lemma {:induction false} KeysDistinct<T>(xs: seq<T>, key: T -> string)
    ensures forall a, b :: 0 <= a < b < |Keys(xs, key)| ==> Keys(xs, key)[a] != Keys(xs, key)[b]
  {
    if xs != [] {
      KeysDistinct(xs[..|xs| - 1], key);
    }
  }

  /** A group holds exactly the songs with its key. */
  lemma {:induction false} GroupMembers<T>(xs: seq<T>, key: T -> string, k: string)
    ensures forall x :: x in Group(xs, key, k) <==> x in xs && key(x) == k
  {
    if xs != [] {
      var init := xs[..|xs| - 1];
      GroupMembers(init, key, k);
      assert xs == init + [xs[|xs| - 1]];
    }
  }

  /** The group of a key that no song has is empty. */
  lemma {:induction false} GroupOfAbsentKey<T>(xs: seq<T>, key: T -> string, k: string)
    requires k !in Keys(xs, key)
    ensures Group(xs, key, k) == []
  {
    if xs != [] {
      GroupOfAbsentKey(xs[..|xs| - 1], key, k);
    }
  }

  /** The group of every key is non-empty. */
  lemma GroupOfKeyNonEmpty<T>(xs: seq<T>, key: T -> string, k: string)
    requires k in Keys(xs, key)
    ensures |Group(xs, key, k)| > 0
  {
    KeysAreTheSongKeys(xs, key);
    GroupMembers(xs, key, k);
    var i :| 0 <= i < |xs| && key(xs[i]) == k;
    assert xs[i] in Group(xs, key, k);
  }

  /** The sizes of the groups of keys `ks`. */
  function GroupSizes<T>(xs: seq<T>, key: T -> string, ks: seq<string>): nat
  {
    if ks == [] then 0 else GroupSizes(xs, key, ks[..|ks| - 1]) + |Group(xs, key, ks[|ks| - 1])|
  }

  /** Adding one song adds one to the total size of the groups, over distinct keys, exactly
      when its key is among them. */
  lemma {:induction false} GroupSizesSnoc<T>(xs: seq<T>, x: T, key: T -> string, ks: seq<string>)
    requires forall a, b :: 0 <= a < b < |ks| ==> ks[a] != ks[b]
    ensures GroupSizes(xs + [x], key, ks) == GroupSizes(xs, key, ks) + (if key(x) in ks then 1 else 0)
  {
    var ys := xs + [x];
    assert ys[..|ys| - 1] == xs;
    if ks != [] {
      var init := ks[..|ks| - 1];
      GroupSizesSnoc(xs, x, key, init);
      assert key(x) in ks <==> key(x) in init || key(x) == ks[|ks| - 1];
      if key(x) == ks[|ks| - 1] {
        assert key(x) !in init by {
          forall a | 0 <= a < |init| ensures init[a] != key(x) {
            assert init[a] == ks[a];
          }
        }
      }
    }
  }

  /** The groups cover every song exactly once: their sizes add up to the number of songs. */
  lemma {:induction false} GroupSizesSum<T>(xs: seq<T>, key: T -> string)
    ensures GroupSizes(xs, key, Keys(xs, key)) == |xs|
  {
    if xs != [] {
      var init, x := xs[..|xs| - 1], xs[|xs| - 1];
      assert xs == init + [x];
      GroupSizesSum(init, key);
      KeysDistinct(init, key);
      GroupSizesSnoc(init, x, key, Keys(init, key));
      if key(x) !in Keys(init, key) {
        var ks := Keys(init, key) + [key(x)];
        assert ks[..|ks| - 1] == Keys(init, key);
        GroupOfAbsentKey(init, key, key(x));
      }
    }
  }

  /** The `reduce`: each song is pushed onto the list of its key, a new key's list being
      created first; `order` records the order in which keys were created. */
  method GroupByKey<T>(xs: seq<T>, key: T -> string) returns (order: seq<string>, groups: map<string, seq<T>>)
    ensures order == Keys(xs, key)
    ensures groups.Keys == set k | k in order
    ensures forall k :: k in groups ==> groups[k] == Group(xs, key, k)
  {
    order, groups := [], map[];
    var i := 0;
    while i < |xs|
      invariant 0 <= i <= |xs|
      invariant order == Keys(xs[..i], key)
      invariant groups.Keys == set k | k in order
      invariant forall k :: k in groups ==> groups[k] == Group(xs[..i], key, k)
    {
      var song := xs[i];
      var k := key(song);
      assert xs[..i + 1][..i] == xs[..i];
      if k !in groups {
        groups := groups[k := []];
        order := order + [k];
        GroupOfAbsentKey(xs[..i], key, k);
      }
      groups := groups[k := groups[k] + [song]];
      i := i + 1;
    }
    assert xs[..i] == xs;
  }

  // ---------------------------------------------------------------------------
  // Layers

  /** `Math.max(4, Math.min(10, 3 + totalSongs * 0.4))`. */
  function Radius(totalSongs: nat): (r: real)
    ensures 4.0 <= r <= 10.0
  {
    Clamp(3.0 + totalSongs as real * 0.4, 4.0, 10.0)
  }

  /** Two songs or fewer get the smallest radius, eighteen or more the largest, and the
      radius grows with the count in between. */
  lemma RadiusSteps(n: nat, m: nat)
    ensures n <= 2 ==> Radius(n) == 4.0
    ensures n >= 18 ==> Radius(n) == 10.0
    ensures 3 <= n <= 17 ==> Radius(n) == 3.0 + n as real * 0.4
    ensures n <= m ==> Radius(n) <= Radius(m)
  {
    if n <= m {
      ClampMonotone(3.0 + n as real * 0.4, 3.0 + m as real * 0.4, 4.0, 10.0);
    }
  }

  /** The energies of some songs, in order. */
  function EnergyList<T>(songs: seq<T>, energy: T -> real): (es: seq<real>)
    ensures |es| == |songs| && forall i :: 0 <= i < |songs| ==> es[i] == energy(songs[i])
  {
    seq(|songs|, i requires 0 <= i < |songs| => energy(songs[i]))
  }

  /** `colors[k] || '#ffffff'`. */
  function ColorOf(colors: map<string, string>, k: string): string
  {
    if k in colors && colors[k] != "" then colors[k] else "#ffffff"
  }

  /** The layer at position `index` for key `k` and its songs. */
  function MakeLayer<T>(k: string, songs: seq<T>, index: nat, energy: T -> real, colors: map<string, string>): Layer<T>
    requires |songs| > 0
  {
    var totalSongs := |songs|;
    var avgEnergy := Sum(EnergyList(songs, energy)) / totalSongs as real;
    Layer(k, k, songs, totalSongs, avgEnergy, Radius(totalSongs), 8.0 + index as real * 6.0, ColorOf(colors, k))
  }

  /** The layer of the `j`-th key. */
  function LayerAt<T>(xs: seq<T>, key: T -> string, energy: T -> real, colors: map<string, string>, j: nat): Layer<T>
    requires j < |Keys(xs, key)|
  {
    var k := Keys(xs, key)[j];
    GroupOfKeyNonEmpty(xs, key, k);
    MakeLayer(k, Group(xs, key, k), j, energy, colors)
  }

  /** The layers of `xs`, one per key in first-appearance order. */
  function Layers<T>(xs: seq<T>, key: T -> string, energy: T -> real, colors: map<string, string>): (ls: seq<Layer<T>>)
    ensures |ls| == |Keys(xs, key)|
  {
    seq(|Keys(xs, key)|, j requires 0 <= j < |Keys(xs, key)| => LayerAt(xs, key, energy, colors, j))
  }

  /** `generateMoodLayers`: the `reduce` into groups, then the `map` over the entries,
      layer `j` being built from the `j`-th key and its group. */
  method GenerateMoodLayers<T>(xs: seq<T>, key: T -> string, energy: T -> real, colors: map<string, string>)
    returns (layers: seq<Layer<T>>)
    ensures layers == Layers(xs, key, energy, colors)
  {
    var order, groups := GroupByKey(xs, key);
    ghost var spec := Layers(xs, key, energy, colors);
    layers := [];
    var j := 0;
    while j < |order|
      invariant 0 <= j <= |order|
      invariant layers == spec[..j]
    {
      var k := order[j];
      assert k in groups;
      GroupOfKeyNonEmpty(xs, key, k);
      layers := layers + [MakeLayer(k, groups[k], j, energy, colors)];
      j := j + 1;
    }
    assert spec[..j] == spec;
  }

  /** The total of `totalSongs` over some layers. */
  function TotalSongs<T>(layers: seq<Layer<T>>): nat
  {
    if layers == [] then 0 else TotalSongs(layers[..|layers| - 1]) + layers[|layers| - 1].totalSongs
  }

  lemma {:induction false} TotalSongsOfPrefix<T>(xs: seq<T>, key: T -> string, energy: T -> real, colors: map<string, string>, n: nat)
    requires n <= |Keys(xs, key)|
    ensures TotalSongs(Layers(xs, key, energy, colors)[..n]) == GroupSizes(xs, key, Keys(xs, key)[..n])
  {
    if n > 0 {
      var ls := Layers(xs, key, energy, colors);
      var ks := Keys(xs, key);
      assert ls[..n][..n - 1] == ls[..n - 1];
      assert ks[..n][..n - 1] == ks[..n - 1];
      TotalSongsOfPrefix(xs, key, energy, colors, n - 1);
    }
  }

  /** The song counts of the layers add up to the number of songs. */
  lemma TotalSongsSum<T>(xs: seq<T>, key: T -> string, energy: T -> real, colors: map<string, string>)
    ensures TotalSongs(Layers(xs, key, energy, colors)) == |xs|
  {
    var ls := Layers(xs, key, energy, colors);
    var ks := Keys(xs, key);
    TotalSongsOfPrefix(xs, key, energy, colors, |ks|);
    assert ls[..|ks|] == ls && ks[..|ks|] == ks;
    GroupSizesSum(xs, key);
  }

  /** Layer `j` is named by the `j`-th key and holds that key's group. */
  lemma LayerIsGroup<T>(xs: seq<T>, key: T -> string, energy: T -> real, colors: map<string, string>, j: nat)
    requires j < |Keys(xs, key)|
    ensures Layers(xs, key, energy, colors)[j].id == Keys(xs, key)[j]
    ensures Layers(xs, key, energy, colors)[j].songs == Group(xs, key, Keys(xs, key)[j])
  {
  }

  /** No two layers share an id. */
  lemma LayerIdsDistinct<T>(xs: seq<T>, key: T -> string, energy: T -> real, colors: map<string, string>)
    ensures var ls := Layers(xs, key, energy, colors);
            forall a, b :: 0 <= a < b < |ls| ==> ls[a].id != ls[b].id
  {
    KeysDistinct(xs, key);
    forall a, b | 0 <= a < b < |Keys(xs, key)|
      ensures Layers(xs, key, energy, colors)[a].id != Layers(xs, key, energy, colors)[b].id
    {
      LayerIsGroup(xs, key, energy, colors, a);
      LayerIsGroup(xs, key, energy, colors, b);
    }
  }

  /** Every song's key names a layer. */
  lemma EverySongHasALayer<T>(xs: seq<T>, key: T -> string, energy: T -> real, colors: map<string, string>, i: nat)
    requires i < |xs|
    ensures exists j :: 0 <= j < |Layers(xs, key, energy, colors)| && Layers(xs, key, energy, colors)[j].id == key(xs[i])
  {
    KeysAreTheSongKeys(xs, key);
    var ks := Keys(xs, key);
    assert key(xs[i]) in ks;
    var j :| 0 <= j < |ks| && ks[j] == key(xs[i]);
    LayerIsGroup(xs, key, energy, colors, j);
  }

  /** A layer holds exactly the songs whose key is its id, in input order. */
  lemma LayerMembers<T>(xs: seq<T>, key: T -> string, energy: T -> real, colors: map<string, string>, j: nat)
    requires j < |Layers(xs, key, energy, colors)|
    ensures var l := Layers(xs, key, energy, colors)[j];
            forall x :: x in l.songs <==> x in xs && key(x) == l.id
  {
    LayerIsGroup(xs, key, energy, colors, j);
    GroupMembers(xs, key, Keys(xs, key)[j]);
  }

  /** Each layer is non-empty and its energy is the mean of its songs' energies, so it lies
      within any bounds the songs' energies share; layers are stacked 6 apart from 8 up. */
  lemma LayerShape<T>(xs: seq<T>, key: T -> string, energy: T -> real, colors: map<string, string>, j: nat, lo: real, hi: real)
    requires j < |Layers(xs, key, energy, colors)|
    requires forall x :: x in xs ==> lo <= energy(x) <= hi
    ensures var l := Layers(xs, key, energy, colors)[j];
            l.totalSongs == |l.songs| > 0
            && l.avgEnergy == Sum(EnergyList(l.songs, energy)) / |l.songs| as real
            && lo <= l.avgEnergy <= hi
            && l.height == 8.0 + 6.0 * j as real
            && l.radius == Radius(l.totalSongs)
            && l.name == l.id
            && l.color == ColorOf(colors, l.id)
  {
    var ks := Keys(xs, key);
    var g := Group(xs, key, ks[j]);
    GroupOfKeyNonEmpty(xs, key, ks[j]);
    GroupMembers(xs, key, ks[j]);
    MeanBounds(EnergyList(g, energy), lo, hi);
  }

  /** Heights strictly increase from one layer to the next. */
  lemma HeightsIncrease<T>(xs: seq<T>, key: T -> string, energy: T -> real, colors: map<string, string>, a: nat, b: nat)
    requires a < b < |Layers(xs, key, energy, colors)|
    ensures Layers(xs, key, energy, colors)[a].height < Layers(xs, key, energy, colors)[b].height
  {
  }
}
