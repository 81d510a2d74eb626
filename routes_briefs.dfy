/** `app/api/routes_briefs.py`: `POST /api/briefs` stores a new brief and
    then schedules `process_brief` for it; `GET /api/briefs/{id}` answers
    404 for a brief the user does not own; `PATCH /api/briefs/{id}` replaces
    the brief markdown and marks the brief `edited_draft`. */
module RoutesBriefs {
  import opened Wrappers
  import opened Schemas
  import opened TaskStore

  /** `BriefCreateRequest`, as far as the handler reads it. */
  datatype BriefCreateRequest = BriefCreateRequest(
    query: string,
    seedUrls: seq<string>,
    aiCitationsText: string,
    aiOverviewText: string)

  /** The scheduled `process_brief(brief_id, query, ...)` call. */
  datatype BriefJob = BriefJob(
    briefId: Id,
    query: string,
    seedUrls: seq<string>,
    aiCitationsText: string,
    aiOverviewText: string)

  /** `create_brief`: the stored brief, and the job scheduled for it once
      it is stored. */
  method CreateBrief(store: TaskStore, userId: Id, req: BriefCreateRequest, briefId: Id)
    returns (brief: BriefRecord, job: BriefJob)
    requires store.Valid()
    requires briefId !in store.briefs
    modifies store
    ensures store.Valid()
    ensures brief == NewTask(briefId, userId, req.query, EmptyBriefArtifacts, store.clock)
    ensures store.briefs == old(store.briefs)[briefId := brief]
    ensures job == BriefJob(briefId, req.query, req.seedUrls, req.aiCitationsText, req.aiOverviewText)
    ensures job.briefId in store.briefs && store.briefs[job.briefId] == brief
    ensures store.articles == old(store.articles) && store.settings == old(store.settings)
  {
    brief := store.CreateBrief(userId, req.query, briefId);
    job := BriefJob(brief.id, req.query, req.seedUrls, req.aiCitationsText, req.aiOverviewText);
  }

  /** `get_brief`: the user's own brief, or 404. */
  function GetBrief(store: TaskStore, userId: Id, briefId: Id): (resp: HttpResponse<BriefRecord>)
    reads store
    ensures resp.Success? <==> briefId in store.briefs && store.briefs[briefId].userId == userId
    ensures resp.Success? ==> resp.body == store.briefs[briefId]
    ensures resp.HttpException? ==> resp == HttpException(404, "Brief not found")
  {
    match store.GetBrief(userId, briefId)
    case None => HttpException(404, "Brief not found")
    case Some(brief) => Success(brief)
  }

  /** `update_brief(brief_id, artifacts=..., stage="edited_draft")` */
  function EditPatch(artifacts: BriefArtifacts): TaskPatch<BriefArtifacts> {
    TaskPatch(None, Some("edited_draft"), None, None, Some(artifacts))
  }

  /** The brief as the PATCH stores it at time `now`. */
  function EditedBrief(b: BriefRecord, markdown: string, now: Timestamp): (e: BriefRecord)
    ensures e.artifacts.briefMarkdown == markdown
    ensures e.artifacts.sources == b.artifacts.sources
    ensures e.artifacts.extractedArticles == b.artifacts.extractedArticles
    ensures e.artifacts.summaries == b.artifacts.summaries
    ensures e.artifacts.seoAnalysis == b.artifacts.seoAnalysis
    ensures e.stage == "edited_draft" && e.updatedAt == now
    ensures e.id == b.id && e.userId == b.userId && e.query == b.query && e.status == b.status
    ensures e.progressPercent == b.progressPercent && e.error == b.error && e.createdAt == b.createdAt
  {
    MergeTask(b, EditPatch(b.artifacts.(briefMarkdown := markdown)), now)
  }

  /** Editing twice is editing once with the later text. */
  lemma EditedBriefTwice(b: BriefRecord, m1: string, m2: string, t1: Timestamp, t2: Timestamp)
    ensures EditedBrief(EditedBrief(b, m1, t1), m2, t2) == EditedBrief(b, m2, t2)
  {
  }

  /** `PATCH /api/briefs/{id}`: 404 without any write for a brief the user
      does not own; otherwise the new markdown and the `edited_draft`
      stage, every other field kept, and the stored record returned. */
  method PatchBrief(store: TaskStore, userId: Id, briefId: Id, briefMarkdown: string)
    returns (resp: HttpResponse<BriefRecord>)
    requires store.Valid()
    modifies store
    ensures store.Valid()
    ensures store.articles == old(store.articles) && store.settings == old(store.settings)
    ensures old(GetBrief(store, userId, briefId)).HttpException? ==>
      && resp == HttpException(404, "Brief not found")
      && store.briefs == old(store.briefs) && store.clock == old(store.clock)
    ensures old(GetBrief(store, userId, briefId)).Success? ==>
      && store.clock == old(store.clock) + 1
      && store.briefs == old(store.briefs)[briefId := EditedBrief(old(store.briefs)[briefId], briefMarkdown, store.clock)]
      && resp == Success(store.briefs[briefId])
  {
    var brief := store.GetBrief(userId, briefId);
    if brief.None? {
      return HttpException(404, "Brief not found");
    }
    var artifacts := brief.value.artifacts.(briefMarkdown := briefMarkdown);
    var updated := store.UpdateBrief(briefId, EditPatch(artifacts));
    // `update_brief` finds the brief just read, so the 500 answer for a
    // missing update cannot be reached here.
    assert updated.Some?;
    resp := Success(updated.value);
  }
}
