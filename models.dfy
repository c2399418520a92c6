/** The two records the pipeline passes around. */
module Models {
  import opened Wrappers

  /** One normalised feed entry; `published` is a time in whole seconds. */
  datatype NewsItem = NewsItem(
    source: string,
    id: string,
    title: string,
    link: string,
    summary: string,
    published: Option<int>)

  /** A news item with the outcome of script generation. */
  datatype ProcessedItem = ProcessedItem(
    news: NewsItem,
    script: Option<string>,
    error: Option<string>)
}
