/**
 * The article synthesiser: from the current subscriptions it fabricates a batch of articles,
 * one per loop iteration, each dressed in its platform's template, and returns them newest first.
 *
 * Every `Math.random()` the loop consumes is an explicit real in [0, 1) carried by a `Draw`,
 * the random id string is given as is, and the clock is a single `now` in milliseconds.
 */
module MockData {
  import opened Types
  import opened Text
  import opened Seqs

  /** The topic vocabulary one tag is drawn from. */
  const Tags: seq<string> := ["AI", "Crypto", "Coding", "Politics", "Design", "Apple", "SpaceX"]

  /** The subscriptions the dashboard starts with: one per platform. */
  const MockSources: seq<FeedSource> := [
    FeedSource("1", "Tech Reviews", "https://youtube.com/mkbhd", YOUTUBE),
    FeedSource("2", "Dev Twitter", "https://x.com/reactjs", TWITTER),
    FeedSource("3", "Hacker News", "https://news.ycombinator.com", BLOG),
    FeedSource("4", "r/programming", "https://reddit.com/r/programming", REDDIT)
  ]

  const MsPerHour: int := 3600000

  const YouTubeContent: string := "Explore the latest insights from this channel. Today we look at emerging trends and performance benchmarks that are shaping the industry."
  const TwitterContent: string := "Just shared some thoughts on the current state of decentralized systems. The community feedback has been incredible! #tech #future"
  const RedditContent: string := "A deep dive into why developers are moving towards minimalist frameworks. Over 500 comments and counting."
  const BlogContent: string := "Our latest editorial covers the intersection of user experience and automated design tools. A must-read for creative professionals."

  /**
   * The random inputs of one loop iteration, one field per `Math.random()` call: which source,
   * the id string, the number in a video title, the age in hours, the read flag and the tag.
   */
  datatype Draw = Draw(sourcePick: real, id: string, videoPick: real, hoursPick: real, readPick: real, tagPick: real)

  /** A fraction `Math.random()` can return. */
  predicate IsUnit(r: real)
  {
    0.0 <= r < 1.0
  }

  predicate ValidDraw(d: Draw)
  {
    IsUnit(d.sourcePick) && IsUnit(d.videoPick) && IsUnit(d.hoursPick) && IsUnit(d.readPick) && IsUnit(d.tagPick)
  }

  /** `Math.floor(r * n)`: a uniformly drawn index below `n`. */
  function Pick(r: real, n: nat): (k: nat)
    requires IsUnit(r) && n > 0
    ensures k < n
  {
    assert 0.0 <= r * n as real < n as real;
    (r * n as real).Floor
  }

  /** `getRandomDate`: the current time moved back by a whole number of hours. */
  function RandomDate(now: int, hoursPick: real): (t: int)
    requires IsUnit(hoursPick)
    ensures now - 47 * MsPerHour <= t <= now
    ensures (now - t) % MsPerHour == 0
  {
    now - Pick(hoursPick, 48) * MsPerHour
  }

  /** The thumbnail URL for an image of the given size, seeded by the article id. */
  function PicsumUrl(id: string, height: string): string
  {
    "https://picsum.photos/seed/" + id + "/400/" + height
  }

  /** The article one iteration builds from its draw: the body of the loop as a value. */
  function ArticleFor(sources: seq<FeedSource>, d: Draw, now: int): (r: Article)
    requires |sources| > 0 && ValidDraw(d)
    ensures r.id == d.id && CopiedFrom(r, sources[Pick(d.sourcePick, |sources|)])
    ensures r.isRead <==> d.readPick > 0.9
    ensures |r.tags| == 1 && r.tags[0] in Tags
    ensures r.thumbnail.Some? <==> r.platform == YOUTUBE || r.platform == BLOG
  {
    var source := sources[Pick(d.sourcePick, |sources|)];
    var title := TemplateTitle(source.platform, source.name, Pick(d.videoPick, 100));
    var content := match source.platform
      case YOUTUBE => YouTubeContent
      case TWITTER => TwitterContent
      case REDDIT => RedditContent
      case BLOG => BlogContent;
    var thumbnail := match source.platform
      case YOUTUBE => Some(PicsumUrl(d.id, "225"))
      case BLOG => Some(PicsumUrl(d.id, "200"))
      case _ => None;
    Article(d.id, source.id, source.platform, title, content, source.name, RandomDate(now, d.hoursPick),
            source.url, thumbnail, d.readPick > 0.9, None, None, [Tags[Pick(d.tagPick, |Tags|)]])
  }

  /** The articles the loop pushes, in push order, before the final sort. */
  function Synthesize(sources: seq<FeedSource>, draws: seq<Draw>, now: int): (r: seq<Article>)
    requires |sources| > 0 && forall i :: 0 <= i < |draws| ==> ValidDraw(draws[i])
    ensures |r| == |draws|
  {
    if draws == [] then []
    else Synthesize(sources, draws[..|draws| - 1], now) + [ArticleFor(sources, draws[|draws| - 1], now)]
  }

  /** Pushing the article of draw `i` extends the batch of the first `i` draws to the first `i + 1`. */
  lemma SynthesizeSnoc(sources: seq<FeedSource>, draws: seq<Draw>, now: int, i: nat)
    requires |sources| > 0 && i < |draws| && forall j :: 0 <= j <= i ==> ValidDraw(draws[j])
    ensures Synthesize(sources, draws[..i + 1], now) == Synthesize(sources, draws[..i], now) + [ArticleFor(sources, draws[i], now)]
  {
    assert draws[..i + 1][..i] == draws[..i];
  }

  /** The `k`-th article pushed is the one built from the `k`-th draw. */
  lemma {:induction false} SynthesizeAt(sources: seq<FeedSource>, draws: seq<Draw>, now: int, k: nat)
    requires |sources| > 0 && forall i :: 0 <= i < |draws| ==> ValidDraw(draws[i])
    requires k < |draws|
    ensures Synthesize(sources, draws, now)[k] == ArticleFor(sources, draws[k], now)
  {
    if k < |draws| - 1 {
      SynthesizeAt(sources, draws[..|draws| - 1], now, k);
    }
  }

  // ---------------------------------------------------------------------------
  // What a synthesised article looks like, stated independently of how it is built.

  /** The fields copied from the owning subscription. */
  predicate CopiedFrom(a: Article, s: FeedSource)
  {
    a.sourceId == s.id && a.platform == s.platform && a.author == s.name && a.url == s.url
  }

  /** The title a platform's template gives a post by `name` (`n` only appears in video titles). */
  function TemplateTitle(p: Platform, name: string, n: nat): string
  {
    match p
    case YOUTUBE => name + ": New Video Analysis " + NatToString(n)
    case TWITTER => "Post from " + name
    case REDDIT => "Trending in " + name
    case BLOG => name + " | Weekly Digest"
  }

  /**
   * Title, content and thumbnail follow the article's platform template: a video title carries a
   * number below 100, only videos and blog posts carry a thumbnail, seeded by the article id.
   */
  ghost predicate FollowsTemplate(a: Article)
  {
    (exists n: nat :: n < 100 && a.title == TemplateTitle(a.platform, a.author, n)) &&
    match a.platform
    case YOUTUBE => a.content == YouTubeContent && a.thumbnail == Some(PicsumUrl(a.id, "225"))
    case TWITTER => a.content == TwitterContent && a.thumbnail == None
    case REDDIT => a.content == RedditContent && a.thumbnail == None
    case BLOG => a.content == BlogContent && a.thumbnail == Some(PicsumUrl(a.id, "200"))
  }

  /** Published a whole number of hours, at most 47, before `now`. */
  predicate Backdated(a: Article, now: int)
  {
    now - 47 * MsPerHour <= a.publishedAt <= now && (now - a.publishedAt) % MsPerHour == 0
  }

  /** Exactly one tag, from the vocabulary; no summary and no summarising flag yet. */
  predicate Fresh(a: Article)
  {
    |a.tags| == 1 && a.tags[0] in Tags && a.summary == None && a.isSummarizing == None
  }

  /** An article the synthesiser can produce from `sources` at time `now`. */
  ghost predicate Generated(a: Article, sources: seq<FeedSource>, now: int)
  {
    (exists i :: 0 <= i < |sources| && CopiedFrom(a, sources[i])) &&
    FollowsTemplate(a) && Backdated(a, now) && Fresh(a)
  }

  /** Every article one iteration builds is of the generated shape. */
  lemma ArticleForIsGenerated(sources: seq<FeedSource>, d: Draw, now: int)
    requires |sources| > 0 && ValidDraw(d)
    ensures Generated(ArticleFor(sources, d, now), sources, now)
  {
  }

  /** A generated article names the subscription it was copied from. */
  lemma GeneratedOwner(a: Article, sources: seq<FeedSource>, now: int) returns (i: nat)
    requires Generated(a, sources, now)
    ensures i < |sources| && CopiedFrom(a, sources[i])
  {
    i :| 0 <= i < |sources| && CopiedFrom(a, sources[i]);
  }

  /** Only video and blog articles have a thumbnail. */
  lemma ThumbnailOnlyForVisualPlatforms(a: Article)
    requires FollowsTemplate(a)
    ensures a.thumbnail.Some? <==> (a.platform == YOUTUBE || a.platform == BLOG)
  {
  }

  function PublishedAt(a: Article): int
  {
    a.publishedAt
  }

  /** Ordered by `publishedAt`, most recent first. */
  ghost predicate NewestFirst(s: seq<Article>)
  {
    DescendingBy(s, PublishedAt)
  }

  /** The final `sort((a, b) => b.publishedAt - a.publishedAt)`. */
  function SortNewestFirst(s: seq<Article>): (r: seq<Article>)
    ensures NewestFirst(r)
    ensures multiset(r) == multiset(s)
    ensures |r| == |s|
  {
    SortDescending(s, PublishedAt)
  }

  /** Sorting a synthesised batch only reorders it, so every member is still of the generated shape. */
  lemma SortedBatchIsGenerated(sources: seq<FeedSource>, draws: seq<Draw>, now: int)
    requires |sources| > 0 && forall i :: 0 <= i < |draws| ==> ValidDraw(draws[i])
    ensures forall k :: 0 <= k < |draws| ==> Generated(SortNewestFirst(Synthesize(sources, draws, now))[k], sources, now)
  {
    var batch := Synthesize(sources, draws, now);
    var sorted := SortNewestFirst(batch);
    forall k | 0 <= k < |draws|
      ensures Generated(sorted[k], sources, now)
    {
      assert |sorted| == |multiset(sorted)| == |batch|;
      assert sorted[k] in multiset(batch);
      var j :| 0 <= j < |batch| && batch[j] == sorted[k];
      SynthesizeAt(sources, draws, now, j);
      ArticleForIsGenerated(sources, draws[j], now);
    }
  }

  /** One iteration of the loop: pick a source, fill in its platform's template, build the article. */
  method BuildArticle(sources: seq<FeedSource>, d: Draw, now: int) returns (article: Article)
    requires |sources| > 0 && ValidDraw(d)
    ensures article == ArticleFor(sources, d, now)
  {
    var source := sources[Pick(d.sourcePick, |sources|)];
    var platform := source.platform;
    var id := d.id;
    var title := "";
    var content := "";
    var thumbnail: Option<string> := None;
    match platform {
      case YOUTUBE =>
        title := source.name + ": New Video Analysis " + NatToString(Pick(d.videoPick, 100));
        content := YouTubeContent;
        thumbnail := Some(PicsumUrl(id, "225"));
      case TWITTER =>
        title := "Post from " + source.name;
        content := TwitterContent;
      case REDDIT =>
        title := "Trending in " + source.name;
        content := RedditContent;
      case BLOG =>
        title := source.name + " | Weekly Digest";
        content := BlogContent;
        thumbnail := Some(PicsumUrl(id, "200"));
    }
    article := Article(id, source.id, platform, title, content, source.name,
                       RandomDate(now, d.hoursPick), source.url, thumbnail,
                       d.readPick > 0.9, None, None, [Tags[Pick(d.tagPick, |Tags|)]]);
  }

  /** `generateArticlesFromSources(sources, count)`. */
  method GenerateArticlesFromSources(sources: seq<FeedSource>, count: int, draws: seq<Draw>, now: int)
    returns (result: seq<Article>)
    requires count <= |draws|
    requires forall i :: 0 <= i < count ==> ValidDraw(draws[i])
    ensures sources == [] ==> result == []
    ensures sources != [] ==> |result| == (if count > 0 then count else 0)
    ensures sources != [] ==> result == SortNewestFirst(Synthesize(sources, draws[..if count > 0 then count else 0], now))
    ensures NewestFirst(result)
    ensures forall k :: 0 <= k < |result| ==> Generated(result[k], sources, now)
  {
    var articles: seq<Article> := [];
    if |sources| == 0 {
      return [];
    }
    ghost var n := if count > 0 then count else 0;
    var i := 0;
    while i < count
      invariant 0 <= i <= n
      invariant articles == Synthesize(sources, draws[..i], now)
    {
      var article := BuildArticle(sources, draws[i], now);
      SynthesizeSnoc(sources, draws, now, i);
      articles := articles + [article];
      i := i + 1;
    }
    result := SortNewestFirst(articles);
    SortedBatchIsGenerated(sources, draws[..n], now);
  }
}
