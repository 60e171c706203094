# Feed dashboard core, modelled in Dafny

The system is a single-page feed reader. It keeps a list of subscriptions (sources): YouTube
channels, Twitter accounts, subreddits and blogs. From them it synthesises a batch of placeholder
articles: a random source per slot, one fixed template per platform, a random age, read flag and
topic tag, newest first.

The dashboard's handlers act on that state:
- refresh;
- add a subscription, which is followed by a refresh;
- delete a subscription, which cascades to its articles;
- mark an article read or unread;
- summarise one article in two steps;
- request a "morning briefing" built from the first ten headlines;
- filter what is shown by platform and by a case-insensitive search in title and author.

An analytics page builds a per-platform histogram, pie slices, read/unread counts and three number
tiles. An "add source" form validates and resets its three fields.

Modules, one per source file, plus three helper modules:

| module | file | models |
|---|---|---|
| `Types` | types.dfy | the records and the platform enumeration of types.ts |
| `Seqs` | seqs.dfy | `filter`, `map`-with-update, subsequence, a stable descending insertion sort |
| `Text` | text.dfy | ASCII `toLowerCase`, `includes`, decimal rendering of a number |
| `MockData` | mock_data.dfy | services/mockData.ts: the article generator (an imperative loop) |
| `App` | app.dfy | App.tsx: the pure list transformations, and a `Dashboard` class holding the component state |
| `Stats` | stats.dfy | components/Stats.tsx: the histogram fold (a loop over a map), pie data, counts, tiles |
| `AddSourceModal` | add_source_modal.dfy | components/AddSourceModal.tsx: the form as a class with three fields |
| `GeminiService` | gemini_service.dfy | services/geminiService.ts: only the fixed fallback strings; the reply is a parameter |

How the model handles inputs the code takes from outside:
- Every `Math.random()` call becomes a field of a `Draw`, a real in [0, 1); `Math.floor(r * n)` is
  `Pick(r, n)`.
- The random id string is given ready-made.
- The clock is one integer `now`, in milliseconds.
- The 800 ms timer in `fetchData` is a `pendingFetch` field (the captured source list) and a later
  `FetchCompletes` step that consumes the draws.
- The delete confirmation is a boolean parameter.
- Each of the two `await`ed gateway calls splits its handler into a step that returns the request
  and a step that takes the reply.

Three behaviours of the code worth stating:
- The "Sources" tile shows the number of distinct platforms among the articles
  (`pieData.length`), not the number of subscriptions.
- Article ages are whole hours from 0 to 47: the clock is moved back with `setHours` by a whole
  number of hours.
- The model's sort keeps articles with equal timestamps in list order.

## Model

| member | source | states |
|---|---|---|
| `MockData.Pick` | services/mockData.ts:28 | `Math.floor(r * n)` for a fraction `r` is a valid index below `n` |
| `MockData.RandomDate` | services/mockData.ts:6-10 | the timestamp is `now` moved back by a whole number of hours between 0 and 47 |
| `MockData.Synthesize` | services/mockData.ts:27-69 | one article is pushed per draw, so the batch has as many articles as draws |
| `MockData.SynthesizeSnoc` | services/mockData.ts:56-68 | pushing the article of the next draw extends the batch of the draws so far by exactly that article |
| `MockData.ArticleFor` | services/mockData.ts:28-68 | one loop iteration as a value: the article takes the draw's id and copies id, platform, name and url from the source at index `floor(r * n)`; it is read exactly when the read draw exceeds 0.9, has one tag from the vocabulary, and has a thumbnail exactly for a video or a blog post |
| `MockData.SynthesizeAt` | services/mockData.ts:27-69 | the `k`-th article pushed is the one built from the `k`-th draw |
| `MockData.ArticleForIsGenerated` | services/mockData.ts:28-68 | each built article copies id, platform, name (as author) and url from one of the given sources, follows its platform's title/content/thumbnail template, is backdated 0-47 whole hours, has exactly one tag from the seven-word vocabulary and no summary |
| `MockData.GeneratedOwner` | services/mockData.ts:28-29 | a generated article names the source at some index it was copied from |
| `MockData.ThumbnailOnlyForVisualPlatforms` | services/mockData.ts:34-54 | an article following the templates has a thumbnail exactly when it is a video or a blog post |
| `MockData.SortNewestFirst` | services/mockData.ts:71 | the final sort gives `publishedAt` non-increasing, is a permutation of its input and keeps the length |
| `MockData.SortedBatchIsGenerated` | services/mockData.ts:71 | after sorting, every article of the batch is still of the generated shape |
| `MockData.BuildArticle` | services/mockData.ts:28-68 | the loop body (source pick, per-platform switch, the record literal) builds exactly the article the draw determines, which the loop then pushes |
| `MockData.GenerateArticlesFromSources` | services/mockData.ts:22-72 | no sources gives `[]` for any count; otherwise exactly `max(count, 0)` articles, the sorted batch of the draws, newest first, each of the generated shape |
| `Text.Lower` | App.tsx:86-87 | lower-casing keeps the length and maps each ASCII capital to its small letter, leaving other characters alone |
| `Text.IncludesAt` | App.tsx:86-87 | if the term occurs at some position, `includes` holds |
| `Text.IncludesPosition` | App.tsx:86-87 | if `includes` holds, the term occurs at the returned position |
| `Text.IncludesEmpty` | App.tsx:86-87 | the empty search term is contained in every string |
| `Text.NatToString` | services/mockData.ts:38 | a number in a template literal renders as at least one decimal digit, with no leading zero |
| `Text.NatToStringRoundTrip` | services/mockData.ts:38 | reading the rendered digits back gives the number |
| `Text.NatToStringInjective` | services/mockData.ts:38 | distinct video numbers give distinct title suffixes |
| `App.Find` | App.tsx:50 | `find` returns nothing exactly when no article has the id, and otherwise the first article with it |
| `App.ToggleRead` | App.tsx:58 | same length; `isRead` flipped exactly on the articles with the id; every other field of every article unchanged |
| `App.ToggleReadTwice` | App.tsx:58 | marking read twice restores the list |
| `App.MarkSummarizing` | App.tsx:49 | same length; `isSummarizing` becomes true exactly on the articles with the id; nothing else changes |
| `App.MarkAbsentIsNoop` | App.tsx:49-51 | when no article has the id, the first step changes nothing |
| `App.ApplySummary` | App.tsx:53 | articles with the id get the reply as summary and the flag cleared; every other article is unchanged |
| `App.SummarizeRoundTrip` | App.tsx:48-55 | the two summarise steps together equal applying the summary alone: phase 1 leaves no trace once phase 2 runs |
| `App.RemoveSource` | App.tsx:78 | the surviving subscriptions are a subsequence without the id, every other subscription survives, and the count drops by the number that had the id |
| `App.RemoveArticlesOf` | App.tsx:80 | the surviving articles are a subsequence with no article of the deleted source, every other article survives, and the count drops by exactly the number attributed to it |
| `App.Titles` | App.tsx:63 | one title per article, in list order |
| `App.RecentTitles` | App.tsx:63 | the titles of the first `min(10, articles.length)` articles, in list order |
| `App.FilteredArticles` | App.tsx:84-89 | the view is a subsequence of the articles, an article is in it exactly when its platform passes the filter and its lower-cased title or author contains the lower-cased term, and its length is the number of articles that pass, so repeated articles keep every copy |
| `App.FilterThenToggleRead` | App.tsx:84-89 | the filter ignores the read flag: filtering a toggled list equals toggling the filtered list |
| `App.ShowAllWithEmptySearch` | App.tsx:84-89 | with filter ALL and an empty term, the view is the entire list |
| `App.UnmatchedSearchShowsNothing` | App.tsx:84-89 | a term found in no title and no author gives an empty view |
| `App.Dashboard.constructor` | App.tsx:15-22 | initial state: the four mock subscriptions, no articles, loading, filter ALL, empty search, no briefing |
| `App.Dashboard.Visible` | App.tsx:84-89 | every article on screen is one of the dashboard's articles and passes the current platform filter and search term |
| `App.Dashboard.FetchData` | App.tsx:26-37 | sets loading, sets refreshing only when asked, starts the timer on the given source list; nothing else changes |
| `App.Dashboard.FetchCompletes` | App.tsx:30-36 | the timer replaces the articles wholesale by a 24-article sorted batch from the captured list (empty when it was empty), each of the generated shape, and clears both flags |
| `App.Dashboard.Mount` | App.tsx:40-42 | the first fetch uses the current subscriptions and does not raise `refreshing` |
| `App.Dashboard.HandleRefresh` | App.tsx:44-46 | a refresh fetches from the current subscriptions with `refreshing` raised |
| `App.Dashboard.HandleSummarize` | App.tsx:48-52 | flags the matching articles and returns the request (content and platform) of the first match, or no request when the id is absent |
| `App.Dashboard.SummaryArrives` | App.tsx:53 | stores the reply on the matching articles and clears their flag; nothing else changes |
| `App.Dashboard.HandleMarkRead` | App.tsx:57-59 | the articles become their toggled version, and the screen shows the same articles with the marked one flipped; nothing else changes |
| `App.Dashboard.HandleGenerateBriefing` | App.tsx:61-64 | raises `generatingBriefing` and returns the first ten titles; nothing else changes |
| `App.Dashboard.BriefingArrives` | App.tsx:65-66 | stores the reply and drops `generatingBriefing` |
| `App.Dashboard.HandleAddSource` | App.tsx:69-74 | appends the subscription after the existing ones and starts a refresh on the extended list |
| `App.Dashboard.HandleDeleteSource` | App.tsx:76-82 | confirmed: the subscription and its articles go, with no new batch; declined: nothing changes |
| `App.Dashboard.SetFilterPlatform` | App.tsx:19 | the chip sets the platform filter |
| `App.Dashboard.SetSearchTerm` | App.tsx:20 | the search box sets the search term |
| `App.AddFifthSourceScenario` | App.tsx:69-74 | adding a fifth subscription and letting the refresh complete gives 24 articles, newest first, each copied from one of the five subscriptions |
| `Stats.ReadCount` | components/Stats.tsx:22 | the read count never exceeds the number of articles |
| `Stats.DistinctPlatforms` | components/Stats.tsx:12-20 | the histogram's keys contain no platform twice |
| `Stats.DistinctPlatformsMembers` | components/Stats.tsx:12-15 | a platform is a key exactly when at least one article is on it |
| `Stats.DistinctPlatformsPrefix` | components/Stats.tsx:12-20 | counting more articles only appends keys, so the keys are in order of first occurrence |
| `Stats.PlatformCounts` | components/Stats.tsx:12-15 | the fold's keys are the distinct platforms in first-occurrence order, and each key's value is the number of articles on that platform |
| `Stats.Tally` | components/Stats.tsx:13 | one step of the fold keeps the dictionary a histogram of the articles seen so far: keys in first-occurrence order, values the per-platform counts |
| `Stats.PieData` | components/Stats.tsx:17-20 | one slice per key, in key order, valued by that key's count |
| `Stats.PieTotal` | components/Stats.tsx:17-20 | the slice values add up to the sum of the counts over the keys |
| `Stats.CountOfSnoc` | components/Stats.tsx:13 | one more article adds one to its own platform's count and nothing to any other |
| `Stats.CountsSumToTotal` | components/Stats.tsx:12-15 | the histogram's values add up to the number of articles |
| `Stats.DistinctAtMostFour` | components/Stats.tsx:17-20 | there are at most four keys, so at most four slices |
| `Stats.ComputeStats` | components/Stats.tsx:12-87 | slices in first-occurrence order, at most four, each at least 1 and summing to the article count; read plus unread equals the total; the tiles show total, read count and the number of slices |
| `Stats.ToggleReadMovesReadCount` | components/Stats.tsx:22 | marking one article (its id unique) read or unread moves the read count by one in the matching direction |
| `AddSourceModal.AddSourceForm.constructor` | components/AddSourceModal.tsx:12-14 | the form starts with empty name and url and platform BLOG |
| `AddSourceModal.AddSourceForm.SetName` | components/AddSourceModal.tsx:83 | typing sets the name and leaves url and platform alone |
| `AddSourceModal.AddSourceForm.SetUrl` | components/AddSourceModal.tsx:95 | typing sets the url and leaves name and platform alone |
| `AddSourceModal.AddSourceForm.SelectPlatform` | components/AddSourceModal.tsx:61 | a platform button sets the platform and leaves name and url alone |
| `AddSourceModal.AddSourceForm.Submit` | components/AddSourceModal.tsx:18-34 | with an empty name or url neither callback runs and the fields stay; otherwise the record carries the current fields, the form resets to blank/BLOG and closes |
| `AddSourceModal.SubmitBlankLookingName` | components/AddSourceModal.tsx:20 | only emptiness is checked: a name of spaces is accepted and passed on unchanged |
| `AddSourceModal.SubmitWithoutUrl` | components/AddSourceModal.tsx:20 | a name without a url is refused and the typed name stays |
| `AddSourceModal.SubmitTwice` | components/AddSourceModal.tsx:30-33 | after a successful submit the reset form refuses a second submit |
| `GeminiService.SummarizeContent` | services/geminiService.ts:6-33 | the summary text is never empty: the missing-key message without a key, the reply when it has text, "Could not generate summary." when the reply is empty, the failure message when the call throws |
| `GeminiService.GenerateBriefing` | services/geminiService.ts:35-55 | the briefing text is never empty: the missing-key message without a key, the reply when it has text, "No briefing available." when the reply is empty, the failure message when the call throws |
| `GeminiService.FailedSummaryIsShown` | App.tsx:48-55 | when the call fails, the article ends with its flag cleared and the fixed failure (or missing-key) text as summary |

## Left out

- Randomness: the draws are inputs. The model claims nothing about uniformity or about the uniqueness of ids made by `Math.random().toString(36).substring(7)`; the code does not guarantee it.
- MockData.RandomDate: one instant `now` serves the whole batch, while the code reads the clock once per article. Daylight-saving jumps in `setHours` are not modelled; an hour is always 3 600 000 ms.
- Floating point: `Math.random()` and `r * n` are exact reals here. For the small `n` used here the rounded double product stays below `n`, as the real one does.
- MockData.SortNewestFirst: the engine's sort algorithm is replaced by a stable insertion sort with the same comparator. The model proves the result ordered and a permutation; stability is by construction and not stated as a theorem.
- Text.Lower: `toLowerCase` is modelled for ASCII letters only; Unicode case mapping is not.
- App.Dashboard.FetchCompletes: there is one pending timer. A second fetch started before the first fires replaces it, whereas in the browser both timers fire in turn. Interleavings with other events while a call is awaited (React batching, concurrent summaries, a delete racing a summary) are not modelled.
- App.Dashboard.HandleSummarize: the article sent to the gateway is looked up in the same list that the first update maps over. In the component, `find` reads the list of the render the handler belongs to, while the update maps over the latest list; the model treats the two as one because each handler runs as one step.
- The `authors` constant in services/mockData.ts is never used by the code, so it is not modelled.
- Gateway calls: prompts, the model name and the network client are out of scope; only the fixed fallback texts are modelled, with the reply as a parameter.
- The `isOpen` gate in the form and the dialog's close button only decide what is rendered; the model keeps the form state, which survives the dialog being hidden.
- Presentation: the sidebar, article cards, source list, charts, colours, date formatting and the dashboard's sidebar/tab/modal-open flags are not modelled.
