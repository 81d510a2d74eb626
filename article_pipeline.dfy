/** `app/workflows/article_pipeline.py`: writing an article from a stored
    or custom brief (progress 15, 90, 100; no fallback), and the quick draft
    that first builds an internal brief from the source analysis, falling
    back to a query-only brief on `ValueError` (progress 10, 72, 84, 95,
    100). */
module ArticlePipeline {
  import opened Wrappers
  import opened Schemas
  import opened Services
  import opened SourceAnalysis
  import opened Exporter
  import opened TaskStore
  import opened Jobs

  /** `query or fallback`: an empty query is replaced. */
  function ExportName(query: string, fallback: string): (name: string)
    ensures query != "" ==> name == query
    ensures query == "" ==> name == fallback
  {
    if query == "" then fallback else query
  }

  /** The owner's brand fields with the writer prompt override, `""` for
      each when the article or the settings are missing. */
  function WriterBranding(articles: map<Id, ArticleRecord>, settings: map<Id, UserSettings>, articleId: Id): (b: Branding)
    ensures OwnerSettings(articles, settings, articleId).None? ==> b == Branding("", "", "")
    ensures OwnerSettings(articles, settings, articleId).Some? ==>
      var s := OwnerSettings(articles, settings, articleId).value;
      b == Branding(s.brandName, s.brandUrl, s.writerPromptOverride)
  {
    match OwnerSettings(articles, settings, articleId)
    case None => Branding("", "", "")
    case Some(s) => Branding(s.brandName, s.brandUrl, s.writerPromptOverride)
  }

  /** The resolved path `export_to_local_doc` returns for this export. */
  function ExportLink(name: string, markdown: string, oracles: Oracles): string {
    ExportToLocalDoc(name, markdown, oracles.uuidHex, oracles.resolve).link
  }

  // ---------------------------------------------------------------------
  // process_article_from_brief / process_article_from_custom_brief

  /** `status="running", stage="writing_article", progress_percent=15, error=None` */
  function FromBriefStart(): TaskPatch<ArticleArtifacts> {
    StartPatch("writing_article", 15)
  }

  /** `stage="exporting_output", progress_percent=90` */
  function FromBriefExporting(): TaskPatch<ArticleArtifacts> {
    StagePatch("exporting_output", 90)
  }

  /** The outer `try` of `process_article_from_brief`. */
  function FromBriefAttempt(
    query: string, sourceBriefId: string, briefMarkdown: string, branding: Branding, oracles: Oracles
  ): Attempt<ArticleArtifacts>
  {
    match oracles.writeFromBrief(query, briefMarkdown, branding)
    case Err(e) => Attempt([], Err(e))
    case Ok(article) =>
      var link := ExportLink(ExportName(query, "content-article"), article, oracles);
      Attempt([FromBriefExporting()], Ok(ArticleArtifacts(Some(sourceBriefId), briefMarkdown, article, Some(link))))
  }

  /** Every `update_article` call `process_article_from_brief` makes. */
  function FromBriefWrites(
    query: string, sourceBriefId: string, briefMarkdown: string, branding: Branding, oracles: Oracles
  ): seq<TaskPatch<ArticleArtifacts>>
  {
    JobWrites(FromBriefStart(), FromBriefAttempt(query, sourceBriefId, briefMarkdown, branding, oracles))
  }

  /** `process_article_from_brief(article_id, query, source_brief_id, brief_markdown)` */
  method ProcessArticleFromBrief(
    store: TaskStore, articleId: Id, query: string, sourceBriefId: string, briefMarkdown: string, oracles: Oracles)
    requires store.Valid()
    modifies store
    ensures store.Valid()
    ensures var ps := FromBriefWrites(query, sourceBriefId, briefMarkdown,
                                      WriterBranding(old(store.articles), old(store.settings), articleId), oracles);
      && store.articles == Tracked(old(store.articles), articleId, ps, old(store.clock))
      && store.clock == old(store.clock) + |ps|
    ensures store.briefs == old(store.briefs) && store.settings == old(store.settings)
  {
    ghost var m0 := store.articles;
    ghost var t0 := store.clock;
    ghost var written := WriteArticle(store, articleId, FromBriefStart(), m0, t0, []);

    var record := store.GetArticleById(articleId);
    var userSettings := if record.Some? then store.GetUserSettings(record.value.userId) else None;
    var branding :=
      if userSettings.Some?
      then Branding(userSettings.value.brandName, userSettings.value.brandUrl, userSettings.value.writerPromptOverride)
      else Branding("", "", "");
    assert branding == WriterBranding(m0, store.settings, articleId);
    FromBriefRest(store, articleId, query, sourceBriefId, briefMarkdown, branding, oracles, m0, t0);
  }

  /** `process_article_from_brief` after the `running` update and the
      settings lookup: write, export, and the last update. */
  method FromBriefRest(
    store: TaskStore, articleId: Id, query: string, sourceBriefId: string, briefMarkdown: string,
    branding: Branding, oracles: Oracles, ghost m0: map<Id, ArticleRecord>, ghost t0: Timestamp)
    requires store.Valid()
    requires store.articles == Tracked(m0, articleId, [FromBriefStart()], t0) && store.clock == t0 + 1
    modifies store
    ensures store.Valid()
    ensures var ps := FromBriefWrites(query, sourceBriefId, briefMarkdown, branding, oracles);
      && store.articles == Tracked(m0, articleId, ps, t0)
      && store.clock == t0 + |ps|
    ensures store.briefs == old(store.briefs) && store.settings == old(store.settings)
  {
    ghost var written := [FromBriefStart()];
    var outcome: Result<ArticleArtifacts>;
    var article := oracles.writeFromBrief(query, briefMarkdown, branding);
    if article.Ok? {
      written := WriteArticle(store, articleId, FromBriefExporting(), m0, t0, written);
      var exportLink := ExportToLocalDoc(ExportName(query, "content-article"), article.value, oracles.uuidHex, oracles.resolve).link;
      outcome := Ok(ArticleArtifacts(Some(sourceBriefId), briefMarkdown, article.value, Some(exportLink)));
    } else {
      outcome := Err(article.error);
    }
    written := WriteArticle(store, articleId, Finish(outcome), m0, t0, written);
    assert written == FromBriefWrites(query, sourceBriefId, briefMarkdown, branding, oracles);
  }

  /** `process_article_from_custom_brief`: the same job with an empty
      `source_brief_id`. */
  method ProcessArticleFromCustomBrief(
    store: TaskStore, articleId: Id, query: string, briefMarkdown: string, oracles: Oracles)
    requires store.Valid()
    modifies store
    ensures store.Valid()
    ensures var ps := FromBriefWrites(query, "", briefMarkdown,
                                      WriterBranding(old(store.articles), old(store.settings), articleId), oracles);
      && store.articles == Tracked(old(store.articles), articleId, ps, old(store.clock))
      && store.clock == old(store.clock) + |ps|
    ensures store.briefs == old(store.briefs) && store.settings == old(store.settings)
  {
    ProcessArticleFromBrief(store, articleId, query, "", briefMarkdown, oracles);
  }

  /** Progress from a brief is 15, then 90 when the article was written,
      then 100. */
  lemma FromBriefProgress(query: string, sourceBriefId: string, briefMarkdown: string, branding: Branding, oracles: Oracles)
    ensures var vs := ProgressValues(FromBriefWrites(query, sourceBriefId, briefMarkdown, branding, oracles));
      vs == (if oracles.writeFromBrief(query, briefMarkdown, branding).Ok? then [15, 90, 100] else [15, 100])
  {
    var attempt := FromBriefAttempt(query, sourceBriefId, briefMarkdown, branding, oracles);
    assert attempt.writes == (if oracles.writeFromBrief(query, briefMarkdown, branding).Ok? then [FromBriefExporting()] else []);
    OneStageProgress(FromBriefStart(), FromBriefExporting(), attempt);
  }

  /** A job from a brief ends `completed` with the artifacts, or `failed`
      with the exception's text; no other article changes. */
  lemma FromBriefFinalRecord(
    articles: map<Id, ArticleRecord>, articleId: Id, t0: Timestamp,
    query: string, sourceBriefId: string, briefMarkdown: string, branding: Branding, oracles: Oracles)
    requires articleId in articles
    ensures var ps := FromBriefWrites(query, sourceBriefId, briefMarkdown, branding, oracles);
      var body := FromBriefAttempt(query, sourceBriefId, briefMarkdown, branding, oracles);
      && Tracked(articles, articleId, ps, t0)[articleId] == Finished(articles[articleId], body.outcome).(updatedAt := t0 + |ps|)
      && forall k :: k in articles && k != articleId ==> Tracked(articles, articleId, ps, t0)[k] == articles[k]
  {
    var body := FromBriefAttempt(query, sourceBriefId, briefMarkdown, branding, oracles);
    StoredRecord(articles, articleId, FromBriefStart(), body, t0);
  }

  /** The article written from a brief records that brief's id and text,
      the written article and the exported file's link; any exception from
      the writer, `ValueError` included, fails the job. */
  lemma FromBriefOutcome(query: string, sourceBriefId: string, briefMarkdown: string, branding: Branding, oracles: Oracles)
    ensures var outcome := FromBriefAttempt(query, sourceBriefId, briefMarkdown, branding, oracles).outcome;
      match oracles.writeFromBrief(query, briefMarkdown, branding)
      case Err(e) => outcome == Err(e)
      case Ok(article) =>
        && outcome.Ok?
        && outcome.value.sourceBriefId == Some(sourceBriefId)
        && outcome.value.sourceBriefMarkdown == briefMarkdown
        && outcome.value.articleMarkdown == article
        && outcome.value.exportLink == Some(oracles.resolve(ExportPath(ExportName(query, "content-article"), oracles.uuidHex)))
  {
  }

  // ---------------------------------------------------------------------
  // process_quick_draft

  /** `status="running", stage="collecting_sources", progress_percent=10, error=None` */
  function QuickDraftStart(): TaskPatch<ArticleArtifacts> {
    StartPatch("collecting_sources", 10)
  }

  /** `stage="building_internal_brief", progress_percent=72` */
  function BuildingInternalBrief(): TaskPatch<ArticleArtifacts> {
    StagePatch("building_internal_brief", 72)
  }

  /** `stage="writing_article", progress_percent=84` */
  function WritingArticle(): TaskPatch<ArticleArtifacts> {
    StagePatch("writing_article", 84)
  }

  /** `stage="exporting_output", progress_percent=95` */
  function QuickDraftExporting(): TaskPatch<ArticleArtifacts> {
    StagePatch("exporting_output", 95)
  }

  /** The inner `try`/`except ValueError` of `process_quick_draft`: the
      stage updates it makes and the internal brief it produces or the
      exception it lets through. */
  function InternalBrief(query: string, analysis: Result<Analysis>, branding: Branding, oracles: Oracles)
    : (seq<TaskPatch<ArticleArtifacts>>, Result<string>)
  {
    match analysis
    case Err(e) =>
      if e.ValueError? then ([BuildingInternalBrief()], oracles.buildBriefFromQuery(query, branding))
      else ([], Err(e))
    case Ok(a) =>
      match oracles.buildBrief(query, a.summaries, a.seoAnalysis, branding)
      case Ok(markdown) => ([BuildingInternalBrief()], Ok(markdown))
      case Err(e) =>
        if e.ValueError? then ([BuildingInternalBrief(), BuildingInternalBrief()], oracles.buildBriefFromQuery(query, branding))
        else ([BuildingInternalBrief()], Err(e))
  }

  /** The outer `try` of `process_quick_draft`. */
  function QuickDraftAttempt(
    query: string, analysis: Result<Analysis>, briefBranding: Branding, writerBranding: Branding, oracles: Oracles
  ): Attempt<ArticleArtifacts>
  {
    var (writes, brief) := InternalBrief(query, analysis, briefBranding, oracles);
    match brief
    case Err(e) => Attempt(writes, Err(e))
    case Ok(briefMarkdown) =>
      var rest := QuickDraftWriting(query, briefMarkdown, writerBranding, oracles);
      Attempt(writes + rest.writes, rest.outcome)
  }

  /** The outer `try` of `process_quick_draft` once the internal brief
      exists: write the article from it, then export it. */
  function QuickDraftWriting(query: string, briefMarkdown: string, writerBranding: Branding, oracles: Oracles)
    : Attempt<ArticleArtifacts>
  {
    match oracles.writeFromBrief(query, briefMarkdown, writerBranding)
    case Err(e) => Attempt([WritingArticle()], Err(e))
    case Ok(article) =>
      var link := ExportLink(ExportName(query, "quick-draft"), article, oracles);
      Attempt([WritingArticle(), QuickDraftExporting()], Ok(ArticleArtifacts(None, briefMarkdown, article, Some(link))))
  }

  /** Every `update_article` call `process_quick_draft` makes. */
  function QuickDraftWrites(
    query: string, analysis: Result<Analysis>, briefBranding: Branding, writerBranding: Branding, oracles: Oracles
  ): seq<TaskPatch<ArticleArtifacts>>
  {
    JobWrites(QuickDraftStart(), QuickDraftAttempt(query, analysis, briefBranding, writerBranding, oracles))
  }

  /** The inner `try`/`except ValueError`, run. */
  method InternalBriefStep(
    store: TaskStore, articleId: Id, query: string, analysis: Result<Analysis>, branding: Branding, oracles: Oracles,
    ghost m0: map<Id, ArticleRecord>, ghost t0: Timestamp, ghost written: seq<TaskPatch<ArticleArtifacts>>)
    returns (brief: Result<string>, ghost written': seq<TaskPatch<ArticleArtifacts>>)
    requires store.Valid()
    requires store.articles == Tracked(m0, articleId, written, t0) && store.clock == t0 + |written|
    modifies store
    ensures store.Valid()
    ensures brief == InternalBrief(query, analysis, branding, oracles).1
    ensures written' == written + InternalBrief(query, analysis, branding, oracles).0
    ensures store.articles == Tracked(m0, articleId, written', t0) && store.clock == t0 + |written'|
    ensures store.briefs == old(store.briefs) && store.settings == old(store.settings)
  {
    written' := written;
    if analysis.Ok? {
      var a := analysis.value;
      written' := WriteArticle(store, articleId, BuildingInternalBrief(), m0, t0, written');
      brief := oracles.buildBrief(query, a.summaries, a.seoAnalysis, branding);
      if brief.Err? && brief.error.ValueError? {
        brief, written' := InternalFallbackStep(store, articleId, query, branding, oracles, m0, t0, written');
      }
    } else if analysis.error.ValueError? {
      brief, written' := InternalFallbackStep(store, articleId, query, branding, oracles, m0, t0, written');
    } else {
      brief := Err(analysis.error);
    }
  }

  /** The `except ValueError` branch of the inner `try`: one stage update,
      then the query-only brief. */
  method InternalFallbackStep(
    store: TaskStore, articleId: Id, query: string, branding: Branding, oracles: Oracles,
    ghost m0: map<Id, ArticleRecord>, ghost t0: Timestamp, ghost written: seq<TaskPatch<ArticleArtifacts>>)
    returns (brief: Result<string>, ghost written': seq<TaskPatch<ArticleArtifacts>>)
    requires store.Valid()
    requires store.articles == Tracked(m0, articleId, written, t0) && store.clock == t0 + |written|
    modifies store
    ensures store.Valid()
    ensures brief == oracles.buildBriefFromQuery(query, branding)
    ensures written' == written + [BuildingInternalBrief()]
    ensures store.articles == Tracked(m0, articleId, written', t0) && store.clock == t0 + |written'|
    ensures store.briefs == old(store.briefs) && store.settings == old(store.settings)
  {
    written' := WriteArticle(store, articleId, BuildingInternalBrief(), m0, t0, written);
    brief := oracles.buildBriefFromQuery(query, branding);
  }

  /** The outer `try` of `process_quick_draft` once the source analysis has
      returned or raised. */
  method QuickDraftStep(
    store: TaskStore, articleId: Id, query: string, analysis: Result<Analysis>,
    briefBranding: Branding, writerBranding: Branding, oracles: Oracles,
    ghost m0: map<Id, ArticleRecord>, ghost t0: Timestamp, ghost written: seq<TaskPatch<ArticleArtifacts>>)
    returns (outcome: Result<ArticleArtifacts>, ghost written': seq<TaskPatch<ArticleArtifacts>>)
    requires store.Valid()
    requires store.articles == Tracked(m0, articleId, written, t0) && store.clock == t0 + |written|
    modifies store
    ensures store.Valid()
    ensures outcome == QuickDraftAttempt(query, analysis, briefBranding, writerBranding, oracles).outcome
    ensures written' == written + QuickDraftAttempt(query, analysis, briefBranding, writerBranding, oracles).writes
    ensures store.articles == Tracked(m0, articleId, written', t0) && store.clock == t0 + |written'|
    ensures store.briefs == old(store.briefs) && store.settings == old(store.settings)
  {
    QuickDraftAttemptParts(query, analysis, briefBranding, writerBranding, oracles);
    var brief;
    brief, written' := InternalBriefStep(store, articleId, query, analysis, briefBranding, oracles, m0, t0, written);
    if brief.Ok? {
      outcome, written' := QuickDraftWritingStep(store, articleId, query, brief.value, writerBranding, oracles, m0, t0, written');
      AppendAssoc(written, InternalBrief(query, analysis, briefBranding, oracles).0,
        QuickDraftWriting(query, brief.value, writerBranding, oracles).writes);
    } else {
      outcome := Err(brief.error);
    }
  }

  /** The outer `try` is the internal brief's updates, then, once the brief
      exists, those of writing and exporting. */
  lemma QuickDraftAttemptParts(
    query: string, analysis: Result<Analysis>, briefBranding: Branding, writerBranding: Branding, oracles: Oracles)
    ensures var inner := InternalBrief(query, analysis, briefBranding, oracles);
      var attempt := QuickDraftAttempt(query, analysis, briefBranding, writerBranding, oracles);
      && (inner.1.Err? ==> attempt == Attempt(inner.0, Err(inner.1.error)))
      && (inner.1.Ok? ==> attempt == Attempt(inner.0 + QuickDraftWriting(query, inner.1.value, writerBranding, oracles).writes,
                                             QuickDraftWriting(query, inner.1.value, writerBranding, oracles).outcome))
  {
  }

  /** Concatenation is associative. */
  lemma AppendAssoc<T>(a: seq<T>, b: seq<T>, c: seq<T>)
    ensures a + (b + c) == (a + b) + c
  {
  }

  /** Lines of the outer `try` after the internal brief, run. */
  method QuickDraftWritingStep(
    store: TaskStore, articleId: Id, query: string, briefMarkdown: string, writerBranding: Branding, oracles: Oracles,
    ghost m0: map<Id, ArticleRecord>, ghost t0: Timestamp, ghost written: seq<TaskPatch<ArticleArtifacts>>)
    returns (outcome: Result<ArticleArtifacts>, ghost written': seq<TaskPatch<ArticleArtifacts>>)
    requires store.Valid()
    requires store.articles == Tracked(m0, articleId, written, t0) && store.clock == t0 + |written|
    modifies store
    ensures store.Valid()
    ensures outcome == QuickDraftWriting(query, briefMarkdown, writerBranding, oracles).outcome
    ensures written' == written + QuickDraftWriting(query, briefMarkdown, writerBranding, oracles).writes
    ensures store.articles == Tracked(m0, articleId, written', t0) && store.clock == t0 + |written'|
    ensures store.briefs == old(store.briefs) && store.settings == old(store.settings)
  {
    written' := WriteArticle(store, articleId, WritingArticle(), m0, t0, written);
    var article := oracles.writeFromBrief(query, briefMarkdown, writerBranding);
    if article.Err? {
      outcome := Err(article.error);
      return;
    }
    written' := WriteArticle(store, articleId, QuickDraftExporting(), m0, t0, written');
    var exportLink := ExportToLocalDoc(ExportName(query, "quick-draft"), article.value, oracles.uuidHex, oracles.resolve).link;
    outcome := Ok(ArticleArtifacts(None, briefMarkdown, article.value, Some(exportLink)));
  }

  /** `process_quick_draft(article_id, query, ...)`, with `settings.max_urls`
      as `maxUrls`. */
  method ProcessQuickDraft(
    store: TaskStore, articleId: Id, query: string, seedUrls: seq<string>,
    aiCitationsText: string, aiOverviewText: string, maxUrls: int, oracles: Oracles)
    requires store.Valid()
    modifies store
    ensures store.Valid()
    ensures var ps := QuickDraftWrites(query, AnalyzeSources(query, seedUrls, aiCitationsText, aiOverviewText, maxUrls, oracles),
                                       BriefBranding(old(store.articles), old(store.settings), articleId),
                                       WriterBranding(old(store.articles), old(store.settings), articleId), oracles);
      && store.articles == Tracked(old(store.articles), articleId, ps, old(store.clock))
      && store.clock == old(store.clock) + |ps|
    ensures store.briefs == old(store.briefs) && store.settings == old(store.settings)
  {
    ghost var m0 := store.articles;
    ghost var t0 := store.clock;
    ghost var written := WriteArticle(store, articleId, QuickDraftStart(), m0, t0, []);

    var record := store.GetArticleById(articleId);
    var userSettings := if record.Some? then store.GetUserSettings(record.value.userId) else None;
    var brandName := if userSettings.Some? then userSettings.value.brandName else "";
    var brandUrl := if userSettings.Some? then userSettings.value.brandUrl else "";
    var briefPromptOverride := if userSettings.Some? then userSettings.value.briefPromptOverride else "";
    var writerPromptOverride := if userSettings.Some? then userSettings.value.writerPromptOverride else "";
    var briefBranding := Branding(brandName, brandUrl, briefPromptOverride);
    var writerBranding := Branding(brandName, brandUrl, writerPromptOverride);
    assert briefBranding == BriefBranding(m0, store.settings, articleId);
    assert writerBranding == WriterBranding(m0, store.settings, articleId);
    QuickDraftRest(store, articleId, query, seedUrls, aiCitationsText, aiOverviewText, maxUrls,
                   briefBranding, writerBranding, oracles, m0, t0);
  }

  /** `process_quick_draft` after the `running` update and the settings
      lookup: the source analysis, the outer `try` and the last update. */
  method QuickDraftRest(
    store: TaskStore, articleId: Id, query: string, seedUrls: seq<string>,
    aiCitationsText: string, aiOverviewText: string, maxUrls: int,
    briefBranding: Branding, writerBranding: Branding, oracles: Oracles,
    ghost m0: map<Id, ArticleRecord>, ghost t0: Timestamp)
    requires store.Valid()
    requires store.articles == Tracked(m0, articleId, [QuickDraftStart()], t0) && store.clock == t0 + 1
    modifies store
    ensures store.Valid()
    ensures var ps := QuickDraftWrites(query, AnalyzeSources(query, seedUrls, aiCitationsText, aiOverviewText, maxUrls, oracles),
                                       briefBranding, writerBranding, oracles);
      && store.articles == Tracked(m0, articleId, ps, t0)
      && store.clock == t0 + |ps|
    ensures store.briefs == old(store.briefs) && store.settings == old(store.settings)
  {
    var analysis := BuildSourceAnalysis(query, seedUrls, aiCitationsText, aiOverviewText, maxUrls, oracles);
    var outcome;
    ghost var written;
    outcome, written := QuickDraftStep(store, articleId, query, analysis, briefBranding, writerBranding, oracles, m0, t0, [QuickDraftStart()]);
    written := WriteArticle(store, articleId, Finish(outcome), m0, t0, written);
    assert written == JobWrites(QuickDraftStart(), QuickDraftAttempt(query, analysis, briefBranding, writerBranding, oracles));
  }

  /** The stage updates of a quick draft, in order: one or two at 72, then
      84 once a brief exists, then 95 once the article is written. */
  lemma QuickDraftBodyStages(
    query: string, analysis: Result<Analysis>, briefBranding: Branding, writerBranding: Branding, oracles: Oracles)
    ensures var ws := QuickDraftAttempt(query, analysis, briefBranding, writerBranding, oracles).writes;
      && (forall k :: 0 <= k < |ws| ==> IsStagePatch(ws[k]) && ws[k].progressPercent.value in {72, 84, 95})
      && (forall i, j :: 0 <= i < j < |ws| ==> ws[i].progressPercent.value <= ws[j].progressPercent.value)
  {
    var inner := InternalBrief(query, analysis, briefBranding, oracles);
    InternalBriefStages(query, analysis, briefBranding, oracles);
    var ws := QuickDraftAttempt(query, analysis, briefBranding, writerBranding, oracles).writes;
    if inner.1.Ok? {
      var rest := QuickDraftWriting(query, inner.1.value, writerBranding, oracles);
      assert ws == inner.0 + rest.writes;
      StagesInOrder(inner.0, rest.writes);
    } else {
      assert ws == inner.0;
      StagesInOrder(inner.0, []);
    }
  }

  /** The inner `try` writes only the 72 stage, at most twice. */
  lemma InternalBriefStages(query: string, analysis: Result<Analysis>, branding: Branding, oracles: Oracles)
    ensures var ws := InternalBrief(query, analysis, branding, oracles).0;
      |ws| <= 2 && forall k :: 0 <= k < |ws| ==> ws[k] == BuildingInternalBrief()
  {
  }

  /** Some 72 stages, then 84 and possibly 95: stage updates in order. */
  lemma StagesInOrder(briefing: seq<TaskPatch<ArticleArtifacts>>, writing: seq<TaskPatch<ArticleArtifacts>>)
    requires forall k :: 0 <= k < |briefing| ==> briefing[k] == BuildingInternalBrief()
    requires writing == [] || writing == [WritingArticle()] || writing == [WritingArticle(), QuickDraftExporting()]
    ensures var ws := briefing + writing;
      && (forall k :: 0 <= k < |ws| ==> IsStagePatch(ws[k]) && ws[k].progressPercent.value in {72, 84, 95})
      && (forall i, j :: 0 <= i < j < |ws| ==> ws[i].progressPercent.value <= ws[j].progressPercent.value)
  {
    var ws := briefing + writing;
    assert forall k :: 0 <= k < |briefing| ==> ws[k] == BuildingInternalBrief();
    assert forall k :: |briefing| <= k < |ws| ==> ws[k] == writing[k - |briefing|];
  }

  /** The progress a quick draft writes starts at 10, ends at 100 and never
      decreases; every value is 10, 72, 84, 95 or 100. */
  lemma QuickDraftProgress(
    query: string, analysis: Result<Analysis>, briefBranding: Branding, writerBranding: Branding, oracles: Oracles)
    ensures var vs := ProgressValues(QuickDraftWrites(query, analysis, briefBranding, writerBranding, oracles));
      && vs[0] == 10 && vs[|vs| - 1] == 100 && NonDecreasing(vs)
      && forall k :: 0 <= k < |vs| ==> vs[k] in {10, 72, 84, 95, 100}
  {
    QuickDraftBodyStages(query, analysis, briefBranding, writerBranding, oracles);
    QuickDraftJobProgress(QuickDraftAttempt(query, analysis, briefBranding, writerBranding, oracles));
  }

  /** The progress of a job that starts like a quick draft and whose stage
      updates write 72, 84 or 95 in order. */
  lemma QuickDraftJobProgress(body: Attempt<ArticleArtifacts>)
    requires forall k :: 0 <= k < |body.writes| ==>
      IsStagePatch(body.writes[k]) && body.writes[k].progressPercent.value in {72, 84, 95}
    requires forall k :: 0 <= k < |body.writes| ==> body.writes[k].progressPercent.Some?
    requires forall i, j :: 0 <= i < j < |body.writes| ==>
      body.writes[i].progressPercent.value <= body.writes[j].progressPercent.value
    ensures var vs := ProgressValues(JobWrites(QuickDraftStart(), body));
      && vs[0] == 10 && vs[|vs| - 1] == 100 && NonDecreasing(vs)
      && forall k :: 0 <= k < |vs| ==> vs[k] in {10, 72, 84, 95, 100}
  {
    JobProgress(QuickDraftStart(), body);
    var ps := JobWrites(QuickDraftStart(), body);
    assert forall k :: 1 <= k < |ps| - 1 ==> ps[k] == body.writes[k - 1];
  }

  /** A quick draft ends `completed` with the artifacts, or `failed` with
      the exception's text; no other article changes. */
  lemma QuickDraftFinalRecord(
    articles: map<Id, ArticleRecord>, articleId: Id, t0: Timestamp,
    query: string, analysis: Result<Analysis>, briefBranding: Branding, writerBranding: Branding, oracles: Oracles)
    requires articleId in articles
    ensures var ps := QuickDraftWrites(query, analysis, briefBranding, writerBranding, oracles);
      var body := QuickDraftAttempt(query, analysis, briefBranding, writerBranding, oracles);
      && Tracked(articles, articleId, ps, t0)[articleId] == Finished(articles[articleId], body.outcome).(updatedAt := t0 + |ps|)
      && forall k :: k in articles && k != articleId ==> Tracked(articles, articleId, ps, t0)[k] == articles[k]
  {
    var body := QuickDraftAttempt(query, analysis, briefBranding, writerBranding, oracles);
    QuickDraftBodyStages(query, analysis, briefBranding, writerBranding, oracles);
    StoredRecord(articles, articleId, QuickDraftStart(), body, t0);
  }

  /** A completed quick draft names no source brief, keeps the internal
      brief it was written from, and links the exported file. */
  lemma QuickDraftCompleted(
    query: string, analysis: Result<Analysis>, briefBranding: Branding, writerBranding: Branding, oracles: Oracles)
    requires QuickDraftAttempt(query, analysis, briefBranding, writerBranding, oracles).outcome.Ok?
    ensures var brief := InternalBrief(query, analysis, briefBranding, oracles).1;
      var art := QuickDraftAttempt(query, analysis, briefBranding, writerBranding, oracles).outcome.value;
      && brief.Ok?
      && art.sourceBriefId == None
      && art.sourceBriefMarkdown == brief.value
      && oracles.writeFromBrief(query, brief.value, writerBranding) == Ok(art.articleMarkdown)
      && art.exportLink == Some(oracles.resolve(ExportPath(ExportName(query, "quick-draft"), oracles.uuidHex)))
  {
  }

  /** A `ValueError` from the source analysis (no qualifying URL, nothing
      extracted) or from the brief builder switches to the query-only
      brief, and the draft still completes when that brief and the article
      are written. */
  lemma QuickDraftFallbackCompletes(
    query: string, analysis: Result<Analysis>, briefBranding: Branding, writerBranding: Branding, oracles: Oracles,
    briefMarkdown: string, article: string)
    requires
      || (analysis.Err? && analysis.error.ValueError?)
      || (analysis.Ok? && oracles.buildBrief(query, analysis.value.summaries, analysis.value.seoAnalysis, briefBranding).Err?
          && oracles.buildBrief(query, analysis.value.summaries, analysis.value.seoAnalysis, briefBranding).error.ValueError?)
    requires oracles.buildBriefFromQuery(query, briefBranding) == Ok(briefMarkdown)
    requires oracles.writeFromBrief(query, briefMarkdown, writerBranding) == Ok(article)
    ensures QuickDraftAttempt(query, analysis, briefBranding, writerBranding, oracles).outcome
      == Ok(ArticleArtifacts(None, briefMarkdown, article, Some(ExportLink(ExportName(query, "quick-draft"), article, oracles))))
  {
  }
}
