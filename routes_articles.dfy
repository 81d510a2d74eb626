/** `app/api/routes_articles.py`: `POST /api/articles` checks the request
    for its mode, answers 400 or 404 before anything is stored, and
    otherwise creates the article and schedules the job for that mode;
    `GET /api/articles/{id}` answers 404 for an article the user does not
    own.

    Scheduling with `asyncio.create_task` becomes the job the handler
    returns beside its response. */
module RoutesArticles {
  import opened Wrappers
  import opened Schemas
  import opened Text
  import opened TaskStore

  /** `ArticleCreateRequest`, as far as the handler reads it. */
  datatype ArticleCreateRequest = ArticleCreateRequest(
    mode: string,
    query: string,
    briefId: Option<string>,
    customBriefMarkdown: string,
    seedUrls: seq<string>,
    aiCitationsText: string,
    aiOverviewText: string)

  /** A scheduled orchestrator call, with the arguments it is given. */
  datatype ArticleJob =
    | FromBriefJob(articleId: Id, query: string, sourceBriefId: Id, briefMarkdown: string)
    | CustomBriefJob(articleId: Id, query: string, briefMarkdown: string)
    | QuickDraftJob(articleId: Id, query: string, seedUrls: seq<string>, aiCitationsText: string, aiOverviewText: string)

  /** What the checks decide: refuse with a status and a detail, or create
      an article with these initial artifacts and schedule a job of this
      kind (the article id is filled in once the article exists). */
  datatype Plan =
    | Refuse(statusCode: int, detail: string)
    | Accept(artifacts: ArticleArtifacts, job: Id -> ArticleJob)

  /** Python-falsy `brief_id`: missing or empty. */
  predicate MissingBriefId(briefId: Option<string>) {
    briefId.None? || briefId.value == ""
  }

  /** The checks of `create_article`, in the handler's order. */
  function PlanArticle(req: ArticleCreateRequest, userId: Id, briefs: map<Id, BriefRecord>): (p: Plan) {
    if req.mode == "from_brief" then
      if MissingBriefId(req.briefId) then Refuse(400, "brief_id is required for from_brief mode")
      else match Owned(briefs, userId, req.briefId.value)
        case None => Refuse(404, "Brief not found")
        case Some(brief) =>
          var markdown := Strip(brief.artifacts.briefMarkdown);
          if markdown == "" then Refuse(400, "Brief content is empty")
          else Accept(ArticleArtifacts(Some(brief.id), markdown, "", None),
                      id => FromBriefJob(id, brief.query, brief.id, markdown))
    else if req.mode == "from_custom_brief" then
      var custom := Strip(req.customBriefMarkdown);
      if custom == "" then Refuse(400, "custom_brief_markdown is required")
      else if Strip(req.query) == "" then Refuse(400, "query is required for custom brief mode")
      else Accept(ArticleArtifacts(None, custom, "", None),
                  id => CustomBriefJob(id, Strip(req.query), custom))
    else if req.mode == "quick_draft" then
      if Strip(req.query) == "" then Refuse(400, "query is required for quick draft mode")
      else Accept(ArticleArtifacts(None, "", "", None),
                  id => QuickDraftJob(id, Strip(req.query), req.seedUrls, req.aiCitationsText, req.aiOverviewText))
    else Refuse(400, "Unsupported article mode")
  }

  /** An article is created exactly when the mode is known and its inputs
      are present: a brief id naming a brief of this user whose markdown is
      not blank, a non-blank custom brief and query, or a non-blank query. */
  lemma PlanAcceptsExactly(req: ArticleCreateRequest, userId: Id, briefs: map<Id, BriefRecord>)
    ensures PlanArticle(req, userId, briefs).Accept? <==>
      || (req.mode == "from_brief" && !MissingBriefId(req.briefId)
          && req.briefId.value in briefs && briefs[req.briefId.value].userId == userId
          && Strip(briefs[req.briefId.value].artifacts.briefMarkdown) != "")
      || (req.mode == "from_custom_brief" && Strip(req.customBriefMarkdown) != "" && Strip(req.query) != "")
      || (req.mode == "quick_draft" && Strip(req.query) != "")
  {
  }

  lemma ModesDiffer()
    ensures "from_brief" != "from_custom_brief" && "from_brief" != "quick_draft" && "from_custom_brief" != "quick_draft"
  {
    assert "from_brief"[5] != "from_custom_brief"[5];
    assert "from_brief"[0] != "quick_draft"[0];
    assert "from_custom_brief"[0] != "quick_draft"[0];
  }

  /** Every refusal is a 400 except the missing brief, which is a 404. */
  lemma PlanRefusalCodes(req: ArticleCreateRequest, userId: Id, briefs: map<Id, BriefRecord>)
    ensures var p := PlanArticle(req, userId, briefs);
      && (p.Refuse? ==> (p.statusCode == 404 <==> p.detail == "Brief not found"))
      && (p.Refuse? ==> p.statusCode == 400 || p.statusCode == 404)
  {
  }

  /** Which refusal each missing input draws; the custom brief is checked
      before the query. */
  lemma PlanRefusals(req: ArticleCreateRequest, userId: Id, briefs: map<Id, BriefRecord>)
    ensures var p := PlanArticle(req, userId, briefs);
      && (req.mode == "from_brief" && MissingBriefId(req.briefId) ==> p == Refuse(400, "brief_id is required for from_brief mode"))
      && ((req.mode == "from_brief" && !MissingBriefId(req.briefId)
           && (req.briefId.value !in briefs || briefs[req.briefId.value].userId != userId))
          ==> p == Refuse(404, "Brief not found"))
      && (req.mode == "from_custom_brief" && Strip(req.customBriefMarkdown) == "" ==> p == Refuse(400, "custom_brief_markdown is required"))
      && (req.mode !in {"from_brief", "from_custom_brief", "quick_draft"} ==> p == Refuse(400, "Unsupported article mode"))
  {
    ModesDiffer();
  }

  /** An article from a stored brief starts with that brief's id and its
      stripped, non-blank markdown, and its job writes from that brief on
      the brief's own query rather than the request's. */
  lemma PlanFromBrief(req: ArticleCreateRequest, userId: Id, briefs: map<Id, BriefRecord>, articleId: Id)
    requires req.mode == "from_brief"
    requires PlanArticle(req, userId, briefs).Accept?
    ensures var p := PlanArticle(req, userId, briefs);
      var brief := briefs[req.briefId.value];
      && p.artifacts == ArticleArtifacts(Some(brief.id), Strip(brief.artifacts.briefMarkdown), "", None)
      && p.artifacts.sourceBriefMarkdown != ""
      && p.job(articleId) == FromBriefJob(articleId, brief.query, brief.id, Strip(brief.artifacts.briefMarkdown))
  {
  }

  /** `create_article`: the response and, when an article was created, the
      job scheduled for it. A refusal stores nothing and schedules nothing. */
  method CreateArticle(store: TaskStore, userId: Id, req: ArticleCreateRequest, articleId: Id)
    returns (resp: HttpResponse<ArticleRecord>, job: Option<ArticleJob>)
    requires store.Valid()
    requires articleId !in store.articles
    modifies store
    ensures store.Valid()
    ensures store.briefs == old(store.briefs) && store.settings == old(store.settings)
    ensures match PlanArticle(req, userId, old(store.briefs))
      case Refuse(code, detail) =>
        && resp == HttpException(code, detail) && job == None
        && store.articles == old(store.articles) && store.clock == old(store.clock)
      case Accept(artifacts, mkJob) =>
        && store.clock == old(store.clock) + 1
        && resp == Success(NewTask(articleId, userId, req.query, artifacts, store.clock))
        && store.articles == old(store.articles)[articleId := resp.body]
        && job == Some(mkJob(articleId))
  {
    if req.mode == "from_brief" {
      if MissingBriefId(req.briefId) {
        return HttpException(400, "brief_id is required for from_brief mode"), None;
      }
      var brief := store.GetBrief(userId, req.briefId.value);
      if brief.None? {
        return HttpException(404, "Brief not found"), None;
      }
      var briefMarkdown := Strip(brief.value.artifacts.briefMarkdown);
      if briefMarkdown == "" {
        return HttpException(400, "Brief content is empty"), None;
      }
      var initialArtifacts := ArticleArtifacts(Some(brief.value.id), briefMarkdown, "", None);
      var article := store.CreateArticle(userId, req.query, initialArtifacts, articleId);
      return Success(article), Some(FromBriefJob(article.id, brief.value.query, brief.value.id, briefMarkdown));
    }

    if req.mode == "from_custom_brief" {
      var customBrief := Strip(req.customBriefMarkdown);
      if customBrief == "" {
        return HttpException(400, "custom_brief_markdown is required"), None;
      }
      if Strip(req.query) == "" {
        return HttpException(400, "query is required for custom brief mode"), None;
      }
      var initialArtifacts := ArticleArtifacts(None, customBrief, "", None);
      var article := store.CreateArticle(userId, req.query, initialArtifacts, articleId);
      return Success(article), Some(CustomBriefJob(article.id, Strip(req.query), customBrief));
    }

    if req.mode == "quick_draft" {
      if Strip(req.query) == "" {
        return HttpException(400, "query is required for quick draft mode"), None;
      }
      var article := store.CreateArticle(userId, req.query, ArticleArtifacts(None, "", "", None), articleId);
      return Success(article), Some(QuickDraftJob(article.id, Strip(req.query), req.seedUrls, req.aiCitationsText, req.aiOverviewText));
    }

    return HttpException(400, "Unsupported article mode"), None;
  }

  /** `get_article`: the user's own article, or 404. */
  function GetArticle(store: TaskStore, userId: Id, articleId: Id): (resp: HttpResponse<ArticleRecord>)
    reads store
    ensures resp.Success? <==> articleId in store.articles && store.articles[articleId].userId == userId
    ensures resp.Success? ==> resp.body == store.articles[articleId]
    ensures resp.HttpException? ==> resp == HttpException(404, "Article not found")
  {
    match store.GetArticle(userId, articleId)
    case None => HttpException(404, "Article not found")
    case Some(article) => Success(article)
  }
}
