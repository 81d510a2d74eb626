/** The records of `app/models/schemas.py`, and the brief, article and
    user-settings records that the orchestrators and routes use through the
    store interface. */
module Schemas {
  import opened Wrappers

  /** Record ids: `str(uuid4())` in the application. */
  type Id = string

  /** `created_at` / `updated_at`: ticks of a clock that never goes back. */
  type Timestamp = nat

  /** `Literal["queued", "running", "completed", "failed"]` */
  datatype Status = Queued | Running | Completed | Failed

  /** `RunCreateRequest`, once pydantic has accepted it. */
  datatype RunCreateRequest = RunCreateRequest(
    query: string,
    seedUrls: seq<string>,
    aiCitationsText: string,
    aiOverviewText: string)

  const QueryMinLength := 3

  /** Validation of a `RunCreateRequest` body (`query: str = Field(min_length=3)`):
      a query shorter than three characters is refused before any handler
      runs; every other field has a default. */
  function NewRunCreateRequest(
    query: string, seedUrls: seq<string>, aiCitationsText: string, aiOverviewText: string
  ): (r: Option<RunCreateRequest>)
    ensures r.Some? <==> |query| >= QueryMinLength
    ensures r.Some? ==> r.value.query == query && r.value.seedUrls == seedUrls
    ensures r.Some? ==> r.value.aiCitationsText == aiCitationsText && r.value.aiOverviewText == aiOverviewText
  {
    if |query| < QueryMinLength then None
    else Some(RunCreateRequest(query, seedUrls, aiCitationsText, aiOverviewText))
  }

  datatype UrlContent = UrlContent(url: string, title: string, text: string)

  datatype ArticleSummary = ArticleSummary(url: string, summary: string)

  datatype RunArtifacts = RunArtifacts(
    sources: seq<string>,
    extractedArticles: seq<UrlContent>,
    summaries: seq<ArticleSummary>,
    seoAnalysis: string,
    articleMarkdown: string,
    exportLink: Option<string>)

  /** `RunArtifacts()` with every default. */
  const EmptyRunArtifacts := RunArtifacts([], [], [], "", "", None)

  datatype RunRecord = RunRecord(
    id: Id,
    query: string,
    status: Status,
    createdAt: Timestamp,
    updatedAt: Timestamp,
    error: Option<string>,
    artifacts: RunArtifacts)

  /** Artifacts of a brief: the sources it was built from and its markdown. */
  datatype BriefArtifacts = BriefArtifacts(
    sources: seq<string>,
    extractedArticles: seq<UrlContent>,
    summaries: seq<ArticleSummary>,
    seoAnalysis: string,
    briefMarkdown: string)

  const EmptyBriefArtifacts := BriefArtifacts([], [], [], "", "")

  /** Artifacts of an article: the brief it was written from and its output. */
  datatype ArticleArtifacts = ArticleArtifacts(
    sourceBriefId: Option<Id>,
    sourceBriefMarkdown: string,
    articleMarkdown: string,
    exportLink: Option<string>)

  /** A brief or article record: owner-scoped, with a stage label and a
      progress percentage beside the status. */
  datatype TaskRecord<A> = TaskRecord(
    id: Id,
    userId: Id,
    query: string,
    status: Status,
    stage: string,
    progressPercent: int,
    error: Option<string>,
    artifacts: A,
    createdAt: Timestamp,
    updatedAt: Timestamp)

  type BriefRecord = TaskRecord<BriefArtifacts>

  type ArticleRecord = TaskRecord<ArticleArtifacts>

  /** Per-owner brand and prompt customisation read by the orchestrators. */
  datatype UserSettings = UserSettings(
    brandName: string,
    brandUrl: string,
    briefPromptOverride: string,
    writerPromptOverride: string)

  /** What an HTTP handler returns: its body, or the `HTTPException` it raised. */
  datatype HttpResponse<T> = Success(body: T) | HttpException(statusCode: int, detail: string)
}
