/** The records shared by the whole dashboard: platforms, subscriptions and articles. */
module Types {

  /** A value that may be absent (a TypeScript optional property). */
  datatype Option<+T> = None | Some(value: T)

  /** The four kinds of feed a subscription can come from. */
  datatype Platform = YOUTUBE | TWITTER | REDDIT | BLOG

  /** A subscription the user follows. The optional `icon` is never set by the dashboard and is not modelled. */
  datatype FeedSource = FeedSource(id: string, name: string, url: string, platform: Platform)

  /**
   * One feed item. `publishedAt` is a timestamp in milliseconds; `thumbnail`, `summary` and
   * `isSummarizing` are optional properties, absent until something sets them.
   */
  datatype Article = Article(
    id: string,
    sourceId: string,
    platform: Platform,
    title: string,
    content: string,
    author: string,
    publishedAt: int,
    url: string,
    thumbnail: Option<string>,
    isRead: bool,
    summary: Option<string>,
    isSummarizing: Option<bool>,
    tags: seq<string>)
}
