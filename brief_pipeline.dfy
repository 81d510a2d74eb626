/** `app/workflows/brief_pipeline.py`: `process_brief` builds a content
    brief from the source analysis, and falls back to a query-only brief
    when the analysis or the brief builder raises `ValueError`. Progress is
    written as 10, then 78, then 100. */
module BriefPipeline {
  import opened Wrappers
  import opened Schemas
  import opened Services
  import opened SourceAnalysis
  import opened TaskStore
  import opened Jobs

  const NoCompetitorSourcesAnalysis :=
    "No competitor sources were provided. This brief is based on the query only and should be reviewed."

  /** `update_brief(..., status="running", stage="collecting_sources", progress_percent=10, error=None)` */
  function BriefStart(): TaskPatch<BriefArtifacts> {
    StartPatch("collecting_sources", 10)
  }

  /** `update_brief(..., stage="building_brief", progress_percent=78)` */
  function BuildingBrief(): TaskPatch<BriefArtifacts> {
    StagePatch("building_brief", 78)
  }

  /** The `except ValueError` branch: a brief from the query alone, with no
      sources and the fixed analysis text. */
  function QueryOnlyBrief(query: string, branding: Branding, oracles: Oracles): Attempt<BriefArtifacts> {
    Attempt(
      [BuildingBrief()],
      match oracles.buildBriefFromQuery(query, branding)
      case Ok(markdown) => Ok(BriefArtifacts([], [], [], NoCompetitorSourcesAnalysis, markdown))
      case Err(e) => Err(e))
  }

  /** The outer `try` of `process_brief`, given what the source analysis
      returned or raised. */
  function BriefAttempt(query: string, analysis: Result<Analysis>, branding: Branding, oracles: Oracles): Attempt<BriefArtifacts> {
    match analysis
    case Err(e) =>
      if e.ValueError? then QueryOnlyBrief(query, branding, oracles) else Attempt([], Err(e))
    case Ok(a) =>
      match oracles.buildBrief(query, a.summaries, a.seoAnalysis, branding)
      case Ok(markdown) =>
        Attempt([BuildingBrief()], Ok(BriefArtifacts(a.topUrls, a.extracted, a.summaries, a.seoAnalysis, markdown)))
      case Err(e) =>
        if e.ValueError? then
          var fallback := QueryOnlyBrief(query, branding, oracles);
          Attempt([BuildingBrief()] + fallback.writes, fallback.outcome)
        else Attempt([BuildingBrief()], Err(e))
  }

  /** Every `update_brief` call `process_brief` makes, in order. */
  function BriefWrites(query: string, analysis: Result<Analysis>, branding: Branding, oracles: Oracles): seq<TaskPatch<BriefArtifacts>> {
    JobWrites(BriefStart(), BriefAttempt(query, analysis, branding, oracles))
  }

  /** The `except ValueError` branch, run: one stage update, then the
      query-only builder. */
  method QueryOnlyBriefStep(
    store: TaskStore, briefId: Id, query: string, branding: Branding, oracles: Oracles,
    ghost m0: map<Id, BriefRecord>, ghost t0: Timestamp, ghost written: seq<TaskPatch<BriefArtifacts>>)
    returns (outcome: Result<BriefArtifacts>, ghost written': seq<TaskPatch<BriefArtifacts>>)
    requires store.Valid()
    requires store.briefs == Tracked(m0, briefId, written, t0) && store.clock == t0 + |written|
    modifies store
    ensures store.Valid()
    ensures outcome == QueryOnlyBrief(query, branding, oracles).outcome
    ensures written' == written + QueryOnlyBrief(query, branding, oracles).writes
    ensures store.briefs == Tracked(m0, briefId, written', t0) && store.clock == t0 + |written'|
    ensures store.articles == old(store.articles) && store.settings == old(store.settings)
  {
    written' := WriteBrief(store, briefId, BuildingBrief(), m0, t0, written);
    var markdown := oracles.buildBriefFromQuery(query, branding);
    if markdown.Ok? {
      outcome := Ok(BriefArtifacts([], [], [], NoCompetitorSourcesAnalysis, markdown.value));
    } else {
      outcome := Err(markdown.error);
    }
  }

  /** The outer `try` of `process_brief` once the source analysis has
      returned or raised. */
  method BriefStep(
    store: TaskStore, briefId: Id, query: string, analysis: Result<Analysis>, branding: Branding, oracles: Oracles,
    ghost m0: map<Id, BriefRecord>, ghost t0: Timestamp, ghost written: seq<TaskPatch<BriefArtifacts>>)
    returns (outcome: Result<BriefArtifacts>, ghost written': seq<TaskPatch<BriefArtifacts>>)
    requires store.Valid()
    requires store.briefs == Tracked(m0, briefId, written, t0) && store.clock == t0 + |written|
    modifies store
    ensures store.Valid()
    ensures outcome == BriefAttempt(query, analysis, branding, oracles).outcome
    ensures written' == written + BriefAttempt(query, analysis, branding, oracles).writes
    ensures store.briefs == Tracked(m0, briefId, written', t0) && store.clock == t0 + |written'|
    ensures store.articles == old(store.articles) && store.settings == old(store.settings)
  {
    if analysis.Ok? {
      var a := analysis.value;
      written' := WriteBrief(store, briefId, BuildingBrief(), m0, t0, written);
      var markdown := oracles.buildBrief(query, a.summaries, a.seoAnalysis, branding);
      if markdown.Ok? {
        outcome := Ok(BriefArtifacts(a.topUrls, a.extracted, a.summaries, a.seoAnalysis, markdown.value));
      } else if markdown.error.ValueError? {
        outcome, written' := QueryOnlyBriefStep(store, briefId, query, branding, oracles, m0, t0, written');
        assert written' == written + [BuildingBrief()] + QueryOnlyBrief(query, branding, oracles).writes;
      } else {
        outcome := Err(markdown.error);
      }
    } else if analysis.error.ValueError? {
      outcome, written' := QueryOnlyBriefStep(store, briefId, query, branding, oracles, m0, t0, written);
    } else {
      outcome := Err(analysis.error);
      written' := written;
    }
  }

  /** `process_brief(brief_id, query, ...)`, with `settings.max_urls` as
      `maxUrls`. */
  method ProcessBrief(
    store: TaskStore, briefId: Id, query: string, seedUrls: seq<string>,
    aiCitationsText: string, aiOverviewText: string, maxUrls: int, oracles: Oracles)
    requires store.Valid()
    modifies store
    ensures store.Valid()
    ensures var ps := BriefWrites(query, AnalyzeSources(query, seedUrls, aiCitationsText, aiOverviewText, maxUrls, oracles),
                                  BriefBranding(old(store.briefs), old(store.settings), briefId), oracles);
      && store.briefs == Tracked(old(store.briefs), briefId, ps, old(store.clock))
      && store.clock == old(store.clock) + |ps|
    ensures store.articles == old(store.articles) && store.settings == old(store.settings)
  {
    ghost var m0 := store.briefs;
    ghost var t0 := store.clock;
    ghost var written := WriteBrief(store, briefId, BriefStart(), m0, t0, []);

    var record := store.GetBriefById(briefId);
    var userSettings := if record.Some? then store.GetUserSettings(record.value.userId) else None;
    var branding :=
      if userSettings.Some?
      then Branding(userSettings.value.brandName, userSettings.value.brandUrl, userSettings.value.briefPromptOverride)
      else Branding("", "", "");
    assert branding == BriefBranding(m0, store.settings, briefId);
    BriefJobRest(store, briefId, query, seedUrls, aiCitationsText, aiOverviewText, maxUrls, branding, oracles, m0, t0);
  }

  /** `process_brief` after the `running` update and the settings lookup:
      the source analysis, the `try` body and the last update. */
  method BriefJobRest(
    store: TaskStore, briefId: Id, query: string, seedUrls: seq<string>,
    aiCitationsText: string, aiOverviewText: string, maxUrls: int, branding: Branding, oracles: Oracles,
    ghost m0: map<Id, BriefRecord>, ghost t0: Timestamp)
    requires store.Valid()
    requires store.briefs == Tracked(m0, briefId, [BriefStart()], t0) && store.clock == t0 + 1
    modifies store
    ensures store.Valid()
    ensures var ps := BriefWrites(query, AnalyzeSources(query, seedUrls, aiCitationsText, aiOverviewText, maxUrls, oracles),
                                  branding, oracles);
      && store.briefs == Tracked(m0, briefId, ps, t0)
      && store.clock == t0 + |ps|
    ensures store.articles == old(store.articles) && store.settings == old(store.settings)
  {
    var analysis := BuildSourceAnalysis(query, seedUrls, aiCitationsText, aiOverviewText, maxUrls, oracles);
    var outcome;
    ghost var written;
    outcome, written := BriefStep(store, briefId, query, analysis, branding, oracles, m0, t0, [BriefStart()]);
    written := WriteBrief(store, briefId, Finish(outcome), m0, t0, written);
    assert written == JobWrites(BriefStart(), BriefAttempt(query, analysis, branding, oracles));
  }

  /** Everything the brief's `try` writes between the first and the last
      update is a `building_brief` stage update at 78, and there are at
      most two of them. */
  lemma BriefBodyStages(
    query: string, analysis: Result<Analysis>, branding: Branding, oracles: Oracles)
    ensures var body := BriefAttempt(query, analysis, branding, oracles);
      && |body.writes| <= 2
      && forall k :: 0 <= k < |body.writes| ==> body.writes[k] == BuildingBrief()
  {
  }

  /** The progress `process_brief` writes starts at 10, ends at 100 and
      never decreases; every value is 10, 78 or 100. */
  lemma BriefProgress(
    query: string, analysis: Result<Analysis>, branding: Branding, oracles: Oracles)
    ensures var vs := ProgressValues(BriefWrites(query, analysis, branding, oracles));
      && vs[0] == 10 && vs[|vs| - 1] == 100 && NonDecreasing(vs)
      && forall k :: 0 <= k < |vs| ==> vs[k] in {10, 78, 100}
  {
    BriefBodyStages(query, analysis, branding, oracles);
    BriefJobProgress(BriefAttempt(query, analysis, branding, oracles));
  }

  /** The progress of a job that starts like `process_brief` and whose
      stage updates all write 78. */
  lemma BriefJobProgress(body: Attempt<BriefArtifacts>)
    requires forall k :: 0 <= k < |body.writes| ==> body.writes[k] == BuildingBrief()
    ensures var vs := ProgressValues(JobWrites(BriefStart(), body));
      && vs[0] == 10 && vs[|vs| - 1] == 100 && NonDecreasing(vs)
      && forall k :: 0 <= k < |vs| ==> vs[k] in {10, 78, 100}
  {
    JobProgress(BriefStart(), body);
    var ps := JobWrites(BriefStart(), body);
    assert forall k :: 1 <= k < |ps| - 1 ==> ps[k] == body.writes[k - 1];
  }

  /** After `process_brief` the brief is `completed` with the built artifacts
      and no error, or `failed` with the exception's text and its old
      artifacts; progress is 100 either way and no other brief changes. */
  lemma BriefFinalRecord(
    briefs: map<Id, BriefRecord>, briefId: Id, t0: Timestamp,
    query: string, analysis: Result<Analysis>, branding: Branding, oracles: Oracles)
    requires briefId in briefs
    ensures var ps := BriefWrites(query, analysis, branding, oracles);
      var body := BriefAttempt(query, analysis, branding, oracles);
      && Tracked(briefs, briefId, ps, t0)[briefId] == Finished(briefs[briefId], body.outcome).(updatedAt := t0 + |ps|)
      && forall k :: k in briefs && k != briefId ==> Tracked(briefs, briefId, ps, t0)[k] == briefs[k]
  {
    var body := BriefAttempt(query, analysis, branding, oracles);
    BriefBodyStages(query, analysis, branding, oracles);
    StoredRecord(briefs, briefId, BriefStart(), body, t0);
  }

  /** With sources analysed and a brief built, the artifacts hold the
      selected URLs, the extractions, the summaries, the analysis and the
      brief. */
  lemma BriefFromSources(query: string, a: Analysis, branding: Branding, oracles: Oracles, markdown: string)
    requires oracles.buildBrief(query, a.summaries, a.seoAnalysis, branding) == Ok(markdown)
    ensures BriefAttempt(query, Ok(a), branding, oracles).outcome
      == Ok(BriefArtifacts(a.topUrls, a.extracted, a.summaries, a.seoAnalysis, markdown))
  {
  }

  /** A `ValueError` from the source analysis or from the brief builder
      switches to the query-only brief: no sources, no extractions, no
      summaries and the fixed analysis text. The brief still completes
      when the query-only builder succeeds. */
  lemma BriefFallback(query: string, analysis: Result<Analysis>, branding: Branding, oracles: Oracles)
    requires
      || (analysis.Err? && analysis.error.ValueError?)
      || (analysis.Ok? && oracles.buildBrief(query, analysis.value.summaries, analysis.value.seoAnalysis, branding).Err?
          && oracles.buildBrief(query, analysis.value.summaries, analysis.value.seoAnalysis, branding).error.ValueError?)
    ensures var outcome := BriefAttempt(query, analysis, branding, oracles).outcome;
      match oracles.buildBriefFromQuery(query, branding)
      case Ok(markdown) => outcome == Ok(BriefArtifacts([], [], [], NoCompetitorSourcesAnalysis, markdown))
      case Err(e) => outcome == Err(e)
  {
  }

  /** Any other exception from the source analysis or the brief builder
      fails the brief with that exception. */
  lemma BriefOtherErrorFails(query: string, analysis: Result<Analysis>, branding: Branding, oracles: Oracles, e: Exception)
    requires e.OtherError?
    requires
      || analysis == Err(e)
      || (analysis.Ok? && oracles.buildBrief(query, analysis.value.summaries, analysis.value.seoAnalysis, branding) == Err(e))
    ensures BriefAttempt(query, analysis, branding, oracles).outcome == Err(e)
  {
  }
}
