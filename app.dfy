/**
 * The dashboard controller: subscriptions, the current article batch, the loading flags, the
 * platform filter and search term, and the morning briefing. Each event handler is a method on
 * `Dashboard`; the new lists they compute are the pure `map`/`filter` functions defined first.
 *
 * The two text-generation calls are split at their `await`: the first step returns the request
 * the gateway receives, the second takes the reply as a parameter. The delete confirmation is a
 * boolean parameter, and the 800 ms refresh timer is a pending fetch that a later step completes.
 */
module App {
  import opened Types
  import opened Seqs
  import opened Text
  import MockData

  /** How many articles a refresh generates. */
  const BatchSize: nat := 24

  /** How many headlines feed the briefing. */
  const BriefingHeadlines: nat := 10

  /** The platform chips: 'ALL' or one platform. */
  datatype PlatformFilter = ALL | Only(platform: Platform)

  /** What the summarisation gateway receives: the article text and its platform. */
  datatype SummaryRequest = SummaryRequest(text: string, platform: Platform)

  // ---------------------------------------------------------------------------
  // Callbacks handed to `map`, `filter` and `find`.

  function HasId(id: string): Article -> bool
  {
    (a: Article) => a.id == id
  }

  function FromSource(sourceId: string): Article -> bool
  {
    (a: Article) => a.sourceId == sourceId
  }

  function SourceHasId(id: string): FeedSource -> bool
  {
    (s: FeedSource) => s.id == id
  }

  // ---------------------------------------------------------------------------
  // The new article lists the handlers compute.

  /** `articles.find(a => a.id === id)`: the first article with that id, if any. */
  function Find(articles: seq<Article>, id: string): (r: Option<Article>)
    ensures r.None? <==> forall i :: 0 <= i < |articles| ==> articles[i].id != id
    ensures r.Some? ==> exists i :: 0 <= i < |articles| && articles[i] == r.value && r.value.id == id &&
                                    forall j :: 0 <= j < i ==> articles[j].id != id
  {
    if articles == [] then None
    else if articles[0].id == id then Some(articles[0])
    else
      var r := Find(articles[1..], id);
      assert r.Some? ==> exists i :: 0 <= i < |articles| && articles[i] == r.value && r.value.id == id &&
                                     forall j :: 0 <= j < i ==> articles[j].id != id by {
        if r.Some? {
          var k :| 0 <= k < |articles[1..]| && articles[1..][k] == r.value && r.value.id == id &&
                   forall j :: 0 <= j < k ==> articles[1..][j] != r.value && articles[1..][j].id != id;
          assert articles[k + 1] == r.value;
        }
      }
      r
  }

  function FlipRead(a: Article): Article
  {
    a.(isRead := !a.isRead)
  }

  /** `handleMarkRead`: flip `isRead` on the articles with that id; nothing else changes. */
  function ToggleRead(articles: seq<Article>, id: string): (r: seq<Article>)
    ensures |r| == |articles|
    ensures forall i :: 0 <= i < |r| ==> r[i].isRead == (articles[i].isRead != (articles[i].id == id))
    ensures forall i :: 0 <= i < |r| ==> r[i] == articles[i].(isRead := r[i].isRead)
  {
    UpdateWhere(articles, HasId(id), FlipRead)
  }

  /** First step of `handleSummarize`: mark the articles with that id as being summarised. */
  function MarkSummarizing(articles: seq<Article>, id: string): (r: seq<Article>)
    ensures |r| == |articles|
    ensures forall i :: 0 <= i < |r| ==>
      r[i].isSummarizing == (if articles[i].id == id then Some(true) else articles[i].isSummarizing)
    ensures forall i :: 0 <= i < |r| ==> r[i] == articles[i].(isSummarizing := r[i].isSummarizing)
  {
    UpdateWhere(articles, HasId(id), (a: Article) => a.(isSummarizing := Some(true)))
  }

  /** Second step of `handleSummarize`: store the reply and clear the flag on the articles with that id. */
  function ApplySummary(articles: seq<Article>, id: string, summary: string): (r: seq<Article>)
    ensures |r| == |articles|
    ensures forall i :: 0 <= i < |r| && articles[i].id == id ==>
      r[i] == articles[i].(isSummarizing := Some(false), summary := Some(summary))
    ensures forall i :: 0 <= i < |r| && articles[i].id != id ==> r[i] == articles[i]
  {
    UpdateWhere(articles, HasId(id), (a: Article) => a.(isSummarizing := Some(false), summary := Some(summary)))
  }

  /** `sources.filter(s => s.id !== id)`: every subscription with that id is gone, the rest keep their order. */
  function RemoveSource(sources: seq<FeedSource>, id: string): (r: seq<FeedSource>)
    ensures IsSubsequence(r, sources)
    ensures forall i :: 0 <= i < |r| ==> r[i].id != id
    ensures forall i :: 0 <= i < |sources| && sources[i].id != id ==> sources[i] in r
    ensures |r| == |sources| - |Filter(sources, SourceHasId(id))|
  {
    FilterIsSubsequence(sources, Not(SourceHasId(id)));
    FilterSplitsLength(sources, SourceHasId(id));
    Filter(sources, Not(SourceHasId(id)))
  }

  /** `articles.filter(a => a.sourceId !== id)`: the cascade of a delete. */
  function RemoveArticlesOf(articles: seq<Article>, sourceId: string): (r: seq<Article>)
    ensures IsSubsequence(r, articles)
    ensures forall i :: 0 <= i < |r| ==> r[i].sourceId != sourceId
    ensures forall i :: 0 <= i < |articles| && articles[i].sourceId != sourceId ==> articles[i] in r
    ensures |r| == |articles| - |Filter(articles, FromSource(sourceId))|
  {
    FilterIsSubsequence(articles, Not(FromSource(sourceId)));
    FilterSplitsLength(articles, FromSource(sourceId));
    Filter(articles, Not(FromSource(sourceId)))
  }

  /** `articles.map(a => a.title)`. */
  function Titles(articles: seq<Article>): (r: seq<string>)
    ensures |r| == |articles|
    ensures forall i :: 0 <= i < |r| ==> r[i] == articles[i].title
  {
    if articles == [] then [] else [articles[0].title] + Titles(articles[1..])
  }

  /** `articles.slice(0, 10).map(a => a.title)`: the headlines the briefing is asked about. */
  function RecentTitles(articles: seq<Article>): (r: seq<string>)
    ensures |r| == (if |articles| < BriefingHeadlines then |articles| else BriefingHeadlines)
    ensures forall i :: 0 <= i < |r| ==> r[i] == articles[i].title
  {
    Titles(articles[..if |articles| < BriefingHeadlines then |articles| else BriefingHeadlines])
  }

  // ---------------------------------------------------------------------------
  // The filtered view.

  predicate PlatformMatches(filter: PlatformFilter, a: Article)
  {
    filter == ALL || filter == Only(a.platform)
  }

  /** The lower-cased title or author contains the lower-cased search term. */
  predicate SearchMatches(term: string, a: Article)
  {
    Includes(Lower(a.title), Lower(term)) || Includes(Lower(a.author), Lower(term))
  }

  function Matches(filter: PlatformFilter, term: string): Article -> bool
  {
    (a: Article) => PlatformMatches(filter, a) && SearchMatches(term, a)
  }

  /** `filteredArticles`: the articles shown, in list order. */
  function FilteredArticles(articles: seq<Article>, filter: PlatformFilter, term: string): (r: seq<Article>)
    ensures IsSubsequence(r, articles)
    ensures forall i :: 0 <= i < |r| ==> PlatformMatches(filter, r[i]) && SearchMatches(term, r[i])
    ensures forall i :: 0 <= i < |articles| && PlatformMatches(filter, articles[i]) && SearchMatches(term, articles[i]) ==>
      articles[i] in r
    ensures |r| == |articles| - |Filter(articles, Not(Matches(filter, term)))|
  {
    FilterIsSubsequence(articles, Matches(filter, term));
    FilterSplitsLength(articles, Matches(filter, term));
    Filter(articles, Matches(filter, term))
  }

  // ---------------------------------------------------------------------------
  // Properties relating the operations.

  /** With every platform shown and an empty search, the view is the whole list. */
  lemma ShowAllWithEmptySearch(articles: seq<Article>)
    ensures FilteredArticles(articles, ALL, "") == articles
  {
    forall i | 0 <= i < |articles|
      ensures Matches(ALL, "")(articles[i])
    {
      IncludesEmpty(Lower(articles[i].title));
    }
    FilterKeepsAll(articles, Matches(ALL, ""));
  }

  /** A search term found in no title and no author leaves nothing to show. */
  lemma UnmatchedSearchShowsNothing(articles: seq<Article>, filter: PlatformFilter, term: string)
    requires forall i :: 0 <= i < |articles| ==> !SearchMatches(term, articles[i])
    ensures FilteredArticles(articles, filter, term) == []
  {
  }

  /**
   * The read flag plays no part in the filter, so marking an article read and then filtering
   * shows the same articles as filtering first, with that article marked.
   */
  lemma FilterThenToggleRead(articles: seq<Article>, filter: PlatformFilter, term: string, id: string)
    ensures FilteredArticles(ToggleRead(articles, id), filter, term) == ToggleRead(FilteredArticles(articles, filter, term), id)
  {
    FilterUpdateWhere(articles, Matches(filter, term), HasId(id), FlipRead);
  }

  /** Marking an article read twice restores the list. */
  lemma ToggleReadTwice(articles: seq<Article>, id: string)
    ensures ToggleRead(ToggleRead(articles, id), id) == articles
  {
  }

  /** When no article has the id, the first summarise step changes nothing. */
  lemma MarkAbsentIsNoop(articles: seq<Article>, id: string)
    requires Find(articles, id) == None
    ensures MarkSummarizing(articles, id) == articles
  {
  }

  /**
   * The two summarise steps together leave the matching articles with their summary and the flag
   * cleared, and every other article as it was: the first step leaves no trace.
   */
  lemma SummarizeRoundTrip(articles: seq<Article>, id: string, summary: string)
    ensures ApplySummary(MarkSummarizing(articles, id), id, summary) == ApplySummary(articles, id, summary)
  {
  }

  // ---------------------------------------------------------------------------
  // The component state and its handlers.

  class Dashboard {
    var sources: seq<FeedSource>
    var articles: seq<Article>
    var loading: bool
    var refreshing: bool
    var filterPlatform: PlatformFilter
    var searchTerm: string
    var briefing: Option<string>
    var generatingBriefing: bool
    /** The source list captured by the outstanding 800 ms refresh timer, if one is running. */
    var pendingFetch: Option<seq<FeedSource>>

    /** The initial state, before the mount effect runs. */
    constructor ()
      ensures sources == MockData.MockSources && articles == []
      ensures loading && !refreshing
      ensures filterPlatform == ALL && searchTerm == ""
      ensures briefing == None && !generatingBriefing
      ensures pendingFetch == None
    {
      sources := MockData.MockSources;
      articles := [];
      loading := true;
      refreshing := false;
      filterPlatform := ALL;
      searchTerm := "";
      briefing := None;
      generatingBriefing := false;
      pendingFetch := None;
    }

    /** `filteredArticles`: the articles on screen, under the current filter and search term. */
    function Visible(): (r: seq<Article>)
      reads this
      ensures forall i :: 0 <= i < |r| ==>
        r[i] in articles && PlatformMatches(filterPlatform, r[i]) && SearchMatches(searchTerm, r[i])
    {
      FilteredArticles(articles, filterPlatform, searchTerm)
    }

    /** `fetchData(currentSources, isRefresh)`: raise the flags and start the timer. */
    method FetchData(currentSources: seq<FeedSource>, isRefresh: bool)
      modifies this
      ensures refreshing == (old(refreshing) || isRefresh)
      ensures loading
      ensures pendingFetch == Some(currentSources)
      ensures sources == old(sources) && articles == old(articles)
      ensures filterPlatform == old(filterPlatform) && searchTerm == old(searchTerm)
      ensures briefing == old(briefing) && generatingBriefing == old(generatingBriefing)
    {
      if isRefresh {
        refreshing := true;
      }
      loading := true;
      pendingFetch := Some(currentSources);
    }

    /**
     * The refresh timer fires: a new batch of 24 articles, generated from the captured list,
     * replaces the old one wholesale, and both flags drop.
     */
    method FetchCompletes(draws: seq<MockData.Draw>, now: int)
      requires pendingFetch.Some?
      requires |draws| >= BatchSize && forall i :: 0 <= i < BatchSize ==> MockData.ValidDraw(draws[i])
      modifies this
      ensures var captured := old(pendingFetch).value;
        articles == (if captured == [] then [] else MockData.SortNewestFirst(MockData.Synthesize(captured, draws[..BatchSize], now)))
      ensures old(pendingFetch).value != [] ==> |articles| == BatchSize
      ensures forall k :: 0 <= k < |articles| ==> MockData.Generated(articles[k], old(pendingFetch).value, now)
      ensures !loading && !refreshing && pendingFetch == None
      ensures sources == old(sources)
      ensures filterPlatform == old(filterPlatform) && searchTerm == old(searchTerm)
      ensures briefing == old(briefing) && generatingBriefing == old(generatingBriefing)
    {
      var data := MockData.GenerateArticlesFromSources(pendingFetch.value, BatchSize, draws, now);
      articles := data;
      loading := false;
      refreshing := false;
      pendingFetch := None;
    }

    /** The mount effect: the first fetch, without the refreshing spinner. */
    method Mount()
      modifies this
      ensures loading && refreshing == old(refreshing) && pendingFetch == Some(old(sources))
      ensures sources == old(sources) && articles == old(articles)
      ensures filterPlatform == old(filterPlatform) && searchTerm == old(searchTerm)
      ensures briefing == old(briefing) && generatingBriefing == old(generatingBriefing)
    {
      FetchData(sources, false);
    }

    /** `handleRefresh`: refetch from the current subscriptions. */
    method HandleRefresh()
      modifies this
      ensures loading && refreshing && pendingFetch == Some(old(sources))
      ensures sources == old(sources) && articles == old(articles)
      ensures filterPlatform == old(filterPlatform) && searchTerm == old(searchTerm)
      ensures briefing == old(briefing) && generatingBriefing == old(generatingBriefing)
    {
      FetchData(sources, true);
    }

    /**
     * First step of `handleSummarize(id)`: flag the article and return the gateway request built
     * from the article as it was when the handler ran; with no such article nothing is sent.
     */
    method HandleSummarize(id: string) returns (request: Option<SummaryRequest>)
      modifies this
      ensures articles == MarkSummarizing(old(articles), id)
      ensures request == match Find(old(articles), id)
        case Some(a) => Some(SummaryRequest(a.content, a.platform))
        case None => None
      ensures sources == old(sources) && loading == old(loading) && refreshing == old(refreshing)
      ensures filterPlatform == old(filterPlatform) && searchTerm == old(searchTerm)
      ensures briefing == old(briefing) && generatingBriefing == old(generatingBriefing)
      ensures pendingFetch == old(pendingFetch)
    {
      var snapshot := articles;
      articles := MarkSummarizing(articles, id);
      var article := Find(snapshot, id);
      match article {
        case Some(a) => request := Some(SummaryRequest(a.content, a.platform));
        case None => request := None;
      }
    }

    /** Second step of `handleSummarize(id)`, once the gateway replies. */
    method SummaryArrives(id: string, summary: string)
      modifies this
      ensures articles == ApplySummary(old(articles), id, summary)
      ensures sources == old(sources) && loading == old(loading) && refreshing == old(refreshing)
      ensures filterPlatform == old(filterPlatform) && searchTerm == old(searchTerm)
      ensures briefing == old(briefing) && generatingBriefing == old(generatingBriefing)
      ensures pendingFetch == old(pendingFetch)
    {
      articles := ApplySummary(articles, id, summary);
    }

    /** `handleMarkRead(id)`: the screen shows the same articles, the marked one flipped. */
    method HandleMarkRead(id: string)
      modifies this
      ensures articles == ToggleRead(old(articles), id)
      ensures Visible() == ToggleRead(old(Visible()), id)
      ensures sources == old(sources) && loading == old(loading) && refreshing == old(refreshing)
      ensures filterPlatform == old(filterPlatform) && searchTerm == old(searchTerm)
      ensures briefing == old(briefing) && generatingBriefing == old(generatingBriefing)
      ensures pendingFetch == old(pendingFetch)
    {
      FilterThenToggleRead(articles, filterPlatform, searchTerm, id);
      articles := ToggleRead(articles, id);
    }

    /** First step of `handleGenerateBriefing`: raise the flag and return the headlines to send. */
    method HandleGenerateBriefing() returns (titles: seq<string>)
      modifies this
      ensures generatingBriefing
      ensures titles == RecentTitles(articles)
      ensures sources == old(sources) && articles == old(articles)
      ensures loading == old(loading) && refreshing == old(refreshing)
      ensures filterPlatform == old(filterPlatform) && searchTerm == old(searchTerm)
      ensures briefing == old(briefing) && pendingFetch == old(pendingFetch)
    {
      generatingBriefing := true;
      titles := RecentTitles(articles);
    }

    /** Second step of `handleGenerateBriefing`: show the reply and drop the flag. */
    method BriefingArrives(result: string)
      modifies this
      ensures briefing == Some(result) && !generatingBriefing
      ensures sources == old(sources) && articles == old(articles)
      ensures loading == old(loading) && refreshing == old(refreshing)
      ensures filterPlatform == old(filterPlatform) && searchTerm == old(searchTerm)
      ensures pendingFetch == old(pendingFetch)
    {
      briefing := Some(result);
      generatingBriefing := false;
    }

    /** `handleAddSource(source)`: append the subscription, then refetch from the extended list. */
    method HandleAddSource(source: FeedSource)
      modifies this
      ensures sources == old(sources) + [source]
      ensures loading && refreshing && pendingFetch == Some(old(sources) + [source])
      ensures articles == old(articles)
      ensures filterPlatform == old(filterPlatform) && searchTerm == old(searchTerm)
      ensures briefing == old(briefing) && generatingBriefing == old(generatingBriefing)
    {
      var updatedSources := sources + [source];
      sources := updatedSources;
      FetchData(updatedSources, true);
    }

    /**
     * `handleDeleteSource(id)` with the user's answer to the confirmation: when confirmed, the
     * subscription and its articles go, without a new batch; when declined, nothing changes.
     */
    method HandleDeleteSource(id: string, confirmed: bool)
      modifies this
      ensures sources == (if confirmed then RemoveSource(old(sources), id) else old(sources))
      ensures articles == (if confirmed then RemoveArticlesOf(old(articles), id) else old(articles))
      ensures loading == old(loading) && refreshing == old(refreshing)
      ensures filterPlatform == old(filterPlatform) && searchTerm == old(searchTerm)
      ensures briefing == old(briefing) && generatingBriefing == old(generatingBriefing)
      ensures pendingFetch == old(pendingFetch)
    {
      if confirmed {
        sources := RemoveSource(sources, id);
        articles := RemoveArticlesOf(articles, id);
      }
    }

    /** A platform chip is clicked. */
    method SetFilterPlatform(filter: PlatformFilter)
      modifies this`filterPlatform
      ensures filterPlatform == filter
    {
      filterPlatform := filter;
    }

    /** The search box changes. */
    method SetSearchTerm(term: string)
      modifies this`searchTerm
      ensures searchTerm == term
    {
      searchTerm := term;
    }
  }

  /** A batch generated from the four initial subscriptions and one more belongs to those five. */
  lemma OwnedByFive(articles: seq<Article>, source: FeedSource, now: int)
    requires forall k :: 0 <= k < |articles| ==> MockData.Generated(articles[k], MockData.MockSources + [source], now)
    ensures forall k :: 0 <= k < |articles| ==>
      articles[k].sourceId in ["1", "2", "3", "4", source.id] &&
      exists i :: 0 <= i < 5 && MockData.CopiedFrom(articles[k], (MockData.MockSources + [source])[i])
  {
    forall k | 0 <= k < |articles|
      ensures articles[k].sourceId in ["1", "2", "3", "4", source.id]
      ensures exists i :: 0 <= i < 5 && MockData.CopiedFrom(articles[k], (MockData.MockSources + [source])[i])
    {
      var i := MockData.GeneratedOwner(articles[k], MockData.MockSources + [source], now);
      assert (MockData.MockSources + [source])[i].id in ["1", "2", "3", "4", source.id];
    }
  }

  /**
   * A fifth subscription is added to the initial four and the refresh completes: the screen holds a
   * full new batch, newest first, and every article belongs to one of the five subscriptions.
   */
  method AddFifthSourceScenario(source: FeedSource, draws: seq<MockData.Draw>, now: int)
    returns (articles: seq<Article>, sources: seq<FeedSource>)
    requires |draws| >= BatchSize && forall i :: 0 <= i < BatchSize ==> MockData.ValidDraw(draws[i])
    ensures sources == MockData.MockSources + [source]
    ensures |articles| == BatchSize && MockData.NewestFirst(articles)
    ensures forall k :: 0 <= k < |articles| ==>
      articles[k].sourceId in ["1", "2", "3", "4", source.id] &&
      exists i :: 0 <= i < |sources| && MockData.CopiedFrom(articles[k], sources[i])
  {
    var dashboard := new Dashboard();
    dashboard.HandleAddSource(source);
    dashboard.FetchCompletes(draws, now);
    articles, sources := dashboard.articles, dashboard.sources;
    OwnedByFive(articles, source, now);
  }
}
