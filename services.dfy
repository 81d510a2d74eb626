/** The foreign calls the workflows make, as given functions: the page
    fetch with its HTML extraction, the language-model steps (summary,
    analysis, brief, article), the `uuid4` used for the export file name and
    `Path.resolve`. Each language-model step either returns its text or
    raises. */
module Services {
  import opened Wrappers
  import opened Schemas
  import Extractor
  import Exporter

  /** The brand fields and the prompt override a customised builder is
      given; `""` stands for a missing setting. */
  datatype Branding = Branding(brandName: string, brandUrl: string, promptOverride: string)

  datatype Oracles = Oracles(
    /** `_fetch_html(url)` together with what the HTML libraries see. */
    fetch: string -> Extractor.FetchResponse,
    /** The language-model call of `summarize_article`. */
    summarize: UrlContent -> Result<string>,
    /** `analyze_summaries(query, summaries)` */
    analyze: (string, seq<ArticleSummary>) -> Result<string>,
    /** `write_article(query, seo_analysis)` */
    writeArticle: (string, string) -> Result<string>,
    /** `build_brief_with_customization(query, summaries, seo_analysis, ...)` */
    buildBrief: (string, seq<ArticleSummary>, string, Branding) -> Result<string>,
    /** `build_brief_from_query_with_customization(query, ...)` */
    buildBriefFromQuery: (string, Branding) -> Result<string>,
    /** `write_article_from_brief_with_customization(query, brief, ...)` */
    writeFromBrief: (string, string, Branding) -> Result<string>,
    /** `uuid4().hex` at the time of the export. */
    uuidHex: Exporter.UuidHex,
    /** `Path.resolve` */
    resolve: string -> string)
}
