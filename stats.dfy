/**
 * The analytics page: a per-platform histogram folded into a dictionary, the pie slices read off
 * its keys in insertion order, the read/unread split, and the three number tiles.
 */
module Stats {
  import opened Types
  import opened Seqs
  import App

  /** One slice of the source-distribution pie: a platform and how many articles it has. */
  datatype PieSlice = PieSlice(name: Platform, value: nat)

  /** What the page shows: the pie, the read/unread bars and the three tiles. */
  datatype StatsView = StatsView(
    pieData: seq<PieSlice>,
    readCount: nat,
    unreadCount: int,
    totalTile: nat,
    readTile: nat,
    sourcesTile: nat)

  function HasPlatform(p: Platform): Article -> bool
  {
    (a: Article) => a.platform == p
  }

  function IsRead(a: Article): bool
  {
    a.isRead
  }

  /** The number of articles on platform `p`. */
  function CountOf(articles: seq<Article>, p: Platform): nat
  {
    |Filter(articles, HasPlatform(p))|
  }

  /** `articles.filter(a => a.isRead).length`. */
  function ReadCount(articles: seq<Article>): (n: nat)
    ensures n <= |articles|
  {
    |Filter(articles, IsRead)|
  }

  predicate NoDuplicates<T(==)>(s: seq<T>)
  {
    forall i, j :: 0 <= i < j < |s| ==> s[i] != s[j]
  }

  /**
   * The platforms present, each once, in the order of their first article: the key order of the
   * dictionary the fold builds, since a key is inserted when its first article is counted.
   */
  function DistinctPlatforms(articles: seq<Article>): (r: seq<Platform>)
    ensures NoDuplicates(r)
  {
    if articles == [] then []
    else
      var seen := DistinctPlatforms(articles[..|articles| - 1]);
      var p := articles[|articles| - 1].platform;
      if p in seen then seen else seen + [p]
  }

  /** The dictionary as a JavaScript object: insertion-ordered keys and their counts. */
  predicate WellKeyed(keys: seq<Platform>, counts: map<Platform, nat>)
  {
    forall k :: k in counts <==> k in keys
  }

  /** `Object.keys(platformCounts).map(key => ({ name: key, value: platformCounts[key] }))`. */
  function PieData(keys: seq<Platform>, counts: map<Platform, nat>): (r: seq<PieSlice>)
    requires forall i :: 0 <= i < |keys| ==> keys[i] in counts
    ensures |r| == |keys|
    ensures forall i :: 0 <= i < |r| ==> r[i] == PieSlice(keys[i], counts[keys[i]])
  {
    if keys == [] then [] else [PieSlice(keys[0], counts[keys[0]])] + PieData(keys[1..], counts)
  }

  /** The sum of the slice values. */
  function SliceTotal(slices: seq<PieSlice>): nat
  {
    if slices == [] then 0 else slices[0].value + SliceTotal(slices[1..])
  }

  /** The sum of the per-platform counts over a list of platforms. */
  function SumCounts(keys: seq<Platform>, articles: seq<Article>): nat
  {
    if keys == [] then 0 else CountOf(articles, keys[0]) + SumCounts(keys[1..], articles)
  }

  /**
   * The dictionary after counting `seen`: its keys, in insertion order, are the platforms of `seen`
   * in order of first occurrence, and each value is that platform's number of articles.
   */
  predicate Histogram(seen: seq<Article>, keys: seq<Platform>, counts: map<Platform, nat>)
  {
    keys == DistinctPlatforms(seen) &&
    WellKeyed(keys, counts) &&
    forall p :: p in counts ==> counts[p] == CountOf(seen, p)
  }

  /**
   * `articles.reduce((acc, curr) => { acc[curr.platform] = (acc[curr.platform] || 0) + 1; ... }, {})`:
   * a first sighting inserts the key with count 1, later ones increment it.
   */
  method PlatformCounts(articles: seq<Article>) returns (keys: seq<Platform>, counts: map<Platform, nat>)
    ensures keys == DistinctPlatforms(articles)
    ensures WellKeyed(keys, counts)
    ensures forall p :: p in counts ==> counts[p] == CountOf(articles, p)
  {
    keys, counts := [], map[];
    var i := 0;
    while i < |articles|
      invariant 0 <= i <= |articles|
      invariant Histogram(articles[..i], keys, counts)
    {
      assert articles[..i + 1] == articles[..i] + [articles[i]];
      keys, counts := Tally(articles[..i], articles[i], keys, counts);
      i := i + 1;
    }
    assert articles[..i] == articles;
  }

  /** Counts one more article: `acc[curr.platform] = (acc[curr.platform] || 0) + 1`. */
  method Tally(ghost seen: seq<Article>, curr: Article, keys: seq<Platform>, counts: map<Platform, nat>)
    returns (keys': seq<Platform>, counts': map<Platform, nat>)
    requires Histogram(seen, keys, counts)
    ensures Histogram(seen + [curr], keys', counts')
  {
    assert (seen + [curr])[..|seen|] == seen;
    CountOfSnoc(seen, curr);
    if curr.platform in counts {
      keys', counts' := keys, counts[curr.platform := counts[curr.platform] + 1];
    } else {
      DistinctPlatformsMembers(seen, curr.platform);
      keys', counts' := keys + [curr.platform], counts[curr.platform := 1];
    }
  }

  /** The analytics page's numbers. */
  method ComputeStats(articles: seq<Article>) returns (v: StatsView)
    ensures |v.pieData| == |DistinctPlatforms(articles)| <= 4
    ensures forall i :: 0 <= i < |v.pieData| ==>
      v.pieData[i].name == DistinctPlatforms(articles)[i] && v.pieData[i].value == CountOf(articles, v.pieData[i].name)
    ensures forall i :: 0 <= i < |v.pieData| ==> v.pieData[i].value >= 1
    ensures SliceTotal(v.pieData) == |articles|
    ensures v.readCount == ReadCount(articles) && v.readCount + v.unreadCount == |articles| && v.unreadCount >= 0
    ensures v.totalTile == |articles| && v.readTile == v.readCount && v.sourcesTile == |v.pieData|
  {
    var keys, counts := PlatformCounts(articles);
    var pieData := PieData(keys, counts);
    var readCount := ReadCount(articles);
    var unreadCount := |articles| - readCount;
    v := StatsView(pieData, readCount, unreadCount, |articles|, readCount, |pieData|);
    DistinctAtMostFour(articles);
    forall i | 0 <= i < |pieData|
      ensures pieData[i].value >= 1
    {
      DistinctPlatformsMembers(articles, keys[i]);
    }
    PieTotal(keys, counts, articles);
    CountsSumToTotal(articles);
  }

  // ---------------------------------------------------------------------------
  // Lemmas.

  /** One more article adds one to its own platform's count and nothing to the others. */
  lemma CountOfSnoc(seen: seq<Article>, curr: Article)
    ensures forall p :: CountOf(seen + [curr], p) == CountOf(seen, p) + (if p == curr.platform then 1 else 0)
  {
    forall p
      ensures CountOf(seen + [curr], p) == CountOf(seen, p) + (if p == curr.platform then 1 else 0)
    {
      FilterSnoc(seen, curr, HasPlatform(p));
    }
  }

  /** A platform is a key of the histogram exactly when at least one article is on it. */
  lemma {:induction false} DistinctPlatformsMembers(articles: seq<Article>, p: Platform)
    ensures p in DistinctPlatforms(articles) <==> CountOf(articles, p) >= 1
    decreases |articles|
  {
    if articles != [] {
      var s := articles[..|articles| - 1];
      var x := articles[|articles| - 1];
      assert articles == s + [x];
      DistinctPlatformsMembers(s, p);
      FilterSnoc(s, x, HasPlatform(p));
    }
  }

  /** A list without repeats has as many elements as its set. */
  lemma {:induction false} NoDuplicatesCard<T>(s: seq<T>)
    requires NoDuplicates(s)
    ensures |set x | x in s| == |s|
  {
    if s != [] {
      NoDuplicatesCard(s[1..]);
      assert (set x | x in s) == (set x | x in s[1..]) + {s[0]};
      assert s[0] !in s[1..];
    }
  }

  /** There are four platforms, so at most four slices and at most four for the "Sources" tile. */
  lemma DistinctAtMostFour(articles: seq<Article>)
    ensures |DistinctPlatforms(articles)| <= 4
  {
    var r := DistinctPlatforms(articles);
    NoDuplicatesCard(r);
    var all: set<Platform> := {YOUTUBE, TWITTER, REDDIT, BLOG};
    assert (set x | x in r) <= all by {
      forall x | x in r ensures x in all {
        match x
        case YOUTUBE =>
        case TWITTER =>
        case REDDIT =>
        case BLOG =>
      }
    }
    assert |all| == 4;
    SubsetCard((set x | x in r), all);
  }

  lemma SubsetCard<T>(a: set<T>, b: set<T>)
    requires a <= b
    ensures |a| <= |b|
  {
    assert b == a + (b - a);
  }

  /** The slice values add up to the sum of the counts over the keys. */
  lemma {:induction false} PieTotal(keys: seq<Platform>, counts: map<Platform, nat>, articles: seq<Article>)
    requires forall i :: 0 <= i < |keys| ==> keys[i] in counts && counts[keys[i]] == CountOf(articles, keys[i])
    ensures SliceTotal(PieData(keys, counts)) == SumCounts(keys, articles)
  {
    if keys != [] {
      PieTotal(keys[1..], counts, articles);
    }
  }

  /** Appending a platform adds its count to the sum. */
  lemma {:induction false} SumCountsSnoc(keys: seq<Platform>, p: Platform, articles: seq<Article>)
    ensures SumCounts(keys + [p], articles) == SumCounts(keys, articles) + CountOf(articles, p)
  {
    if keys != [] {
      assert (keys + [p])[1..] == keys[1..] + [p];
      SumCountsSnoc(keys[1..], p, articles);
    }
  }

  /** One more article raises the sum over a repeat-free key list by one exactly when its platform is listed. */
  lemma {:induction false} SumCountsOneMore(keys: seq<Platform>, articles: seq<Article>, x: Article)
    requires NoDuplicates(keys)
    ensures SumCounts(keys, articles + [x]) == SumCounts(keys, articles) + (if x.platform in keys then 1 else 0)
  {
    if keys != [] {
      FilterSnoc(articles, x, HasPlatform(keys[0]));
      assert NoDuplicates(keys[1..]);
      SumCountsOneMore(keys[1..], articles, x);
      assert x.platform in keys <==> x.platform == keys[0] || x.platform in keys[1..];
      assert keys[0] !in keys[1..];
    }
  }

  /** The histogram's values add up to the number of articles. */
  lemma {:induction false} CountsSumToTotal(articles: seq<Article>)
    ensures SumCounts(DistinctPlatforms(articles), articles) == |articles|
    decreases |articles|
  {
    if articles != [] {
      var s := articles[..|articles| - 1];
      var x := articles[|articles| - 1];
      assert articles == s + [x];
      CountsSumToTotal(s);
      var seen := DistinctPlatforms(s);
      SumCountsOneMore(seen, s, x);
      if x.platform !in seen {
        SumCountsSnoc(seen, x.platform, articles);
        DistinctPlatformsMembers(s, x.platform);
        FilterSnoc(s, x, HasPlatform(x.platform));
      }
    }
  }

  /** The dictionary's key order is the order of first occurrence: counting more articles only appends keys. */
  lemma {:induction false} DistinctPlatformsPrefix(articles: seq<Article>, i: nat)
    requires i <= |articles|
    ensures DistinctPlatforms(articles[..i]) <= DistinctPlatforms(articles)
    decreases |articles| - i
  {
    if i < |articles| {
      DistinctPlatformsPrefix(articles, i + 1);
      assert articles[..i + 1][..i] == articles[..i];
    } else {
      assert articles[..i] == articles;
    }
  }

  /** Marking one article read or unread moves the read count by one in the matching direction. */
  lemma {:induction false} ToggleReadMovesReadCount(articles: seq<Article>, id: string, k: nat)
    requires k < |articles| && articles[k].id == id
    requires forall j :: 0 <= j < |articles| && j != k ==> articles[j].id != id
    ensures ReadCount(App.ToggleRead(articles, id)) == ReadCount(articles) + (if articles[k].isRead then -1 else 1)
  {
    var t := App.ToggleRead(articles, id);
    assert t[1..] == App.ToggleRead(articles[1..], id);
    if k == 0 {
      assert App.ToggleRead(articles[1..], id) == articles[1..];
    } else {
      ToggleReadMovesReadCount(articles[1..], id, k - 1);
    }
  }
}
