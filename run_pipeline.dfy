/** `app/workflows/run_pipeline.py`: `process_run` marks the run running,
    performs the source analysis, writes and exports the article, and ends
    with one more update: `completed` with the artifacts or `failed` with the
    exception's text. There is no `ValueError` fallback.

    Lines 27-50 of `process_run` repeat the body of `build_source_analysis`
    step by step (same selection, same two `ValueError` messages, same
    dropping of failed extractions), so the run shares `BuildSourceAnalysis`
    with the brief and article jobs. */
module RunPipeline {
  import opened Wrappers
  import opened Schemas
  import opened Services
  import opened SourceAnalysis
  import opened Exporter
  import opened Store

  /** `update(run_id, status="running")` */
  function RunStart(): RunPatch {
    RunPatch(Some(Running), None, None)
  }

  /** The last update: `status="completed", artifacts=...` or
      `status="failed", error=str(exc)`. */
  function RunFinish(outcome: Result<RunArtifacts>): RunPatch {
    match outcome
    case Ok(artifacts) => RunPatch(Some(Completed), None, Some(artifacts))
    case Err(e) => RunPatch(Some(Failed), Some(Some(e.Message())), None)
  }

  /** The `try` block of `process_run`, given what the source analysis
      returned or raised. */
  function RunOutcome(query: string, analysis: Result<Analysis>, oracles: Oracles): (r: Result<RunArtifacts>)
    ensures analysis.Err? ==> r == Err(analysis.error)
    ensures r.Ok? ==>
      && analysis.Ok?
      && r.value.sources == analysis.value.topUrls
      && r.value.extractedArticles == analysis.value.extracted
      && r.value.summaries == analysis.value.summaries
      && r.value.seoAnalysis == analysis.value.seoAnalysis
      && oracles.writeArticle(query, analysis.value.seoAnalysis) == Ok(r.value.articleMarkdown)
      && r.value.exportLink == Some(oracles.resolve(ExportPath(query, oracles.uuidHex)))
  {
    match analysis
    case Err(e) => Err(e)
    case Ok(a) =>
      match oracles.writeArticle(query, a.seoAnalysis)
      case Err(e) => Err(e)
      case Ok(article) =>
        var doc := ExportToLocalDoc(query, article, oracles.uuidHex, oracles.resolve);
        Ok(RunArtifacts(a.topUrls, a.extracted, a.summaries, a.seoAnalysis, article, Some(doc.link)))
  }

  /** The record after the two updates of `process_run`, the first at tick
      `t0 + 1`, the second at `t0 + 2`. */
  function RunAfter(r: RunRecord, outcome: Result<RunArtifacts>, t0: Timestamp): RunRecord {
    Merge(Merge(r, RunStart(), t0 + 1), RunFinish(outcome), t0 + 2)
  }

  /** `process_run(run_id, query, ...)`, with `settings.max_urls` as
      `maxUrls`. The run must exist: `update` on an unknown id raises
      `KeyError` before the `try`. */
  method ProcessRun(
    store: RunStore, runId: Id, query: string, seedUrls: seq<string>,
    aiCitationsText: string, aiOverviewText: string, maxUrls: int, oracles: Oracles)
    requires store.Valid()
    requires runId in store.runs
    modifies store
    ensures store.Valid()
    ensures store.clock == old(store.clock) + 2
    ensures store.runs == old(store.runs)[runId := RunAfter(old(store.runs)[runId],
      RunOutcome(query, AnalyzeSources(query, seedUrls, aiCitationsText, aiOverviewText, maxUrls, oracles), oracles), old(store.clock))]
  {
    ghost var r0 := store.runs[runId];
    ghost var t0 := store.clock;
    var running := store.Update(runId, RunStart());
    FinishRun(store, runId, query, seedUrls, aiCitationsText, aiOverviewText, maxUrls, oracles, r0, t0);
  }

  /** Lines 26-65 of `process_run`, after the `running` update at `t0 + 1`:
      the `try` block and the last update. */
  method FinishRun(
    store: RunStore, runId: Id, query: string, seedUrls: seq<string>,
    aiCitationsText: string, aiOverviewText: string, maxUrls: int, oracles: Oracles,
    ghost r0: RunRecord, ghost t0: Timestamp)
    requires store.Valid()
    requires runId in store.runs && store.runs[runId] == Merge(r0, RunStart(), t0 + 1)
    requires store.clock == t0 + 1
    modifies store
    ensures store.Valid()
    ensures store.clock == t0 + 2
    ensures store.runs == old(store.runs)[runId := RunAfter(r0,
      RunOutcome(query, AnalyzeSources(query, seedUrls, aiCitationsText, aiOverviewText, maxUrls, oracles), oracles), t0)]
  {
    var outcome := RunBody(query, seedUrls, aiCitationsText, aiOverviewText, maxUrls, oracles);
    var finished := store.Update(runId, RunFinish(outcome));
  }

  /** The `try` block of `process_run`: the source analysis, then the
      article and its export. */
  method RunBody(
    query: string, seedUrls: seq<string>, aiCitationsText: string, aiOverviewText: string,
    maxUrls: int, oracles: Oracles)
    returns (outcome: Result<RunArtifacts>)
    ensures outcome == RunOutcome(query, AnalyzeSources(query, seedUrls, aiCitationsText, aiOverviewText, maxUrls, oracles), oracles)
  {
    var analysis := BuildSourceAnalysis(query, seedUrls, aiCitationsText, aiOverviewText, maxUrls, oracles);
    outcome := RunStep(query, analysis, oracles);
  }

  /** Lines 51-61 of `process_run`: write the article, export it, assemble
      the artifacts. */
  method RunStep(query: string, analysis: Result<Analysis>, oracles: Oracles) returns (outcome: Result<RunArtifacts>)
    ensures outcome == RunOutcome(query, analysis, oracles)
  {
    if analysis.Err? {
      return Err(analysis.error);
    }
    var a := analysis.value;
    var article := oracles.writeArticle(query, a.seoAnalysis);
    if article.Err? {
      return Err(article.error);
    }
    var exportLink := ExportToLocalDoc(query, article.value, oracles.uuidHex, oracles.resolve).link;
    outcome := Ok(RunArtifacts(a.topUrls, a.extracted, a.summaries, a.seoAnalysis, article.value, Some(exportLink)));
  }

  /** What a run record holds after `process_run`: `completed` with the
      artifacts, or `failed` with the exception's text; a failure touches
      only the status and the error, a completion only the status and the
      artifacts. Nothing is left `running`. */
  lemma RunFinalRecord(r: RunRecord, outcome: Result<RunArtifacts>, t0: Timestamp)
    ensures var f := RunAfter(r, outcome, t0);
      && f.id == r.id && f.query == r.query && f.createdAt == r.createdAt && f.updatedAt == t0 + 2
      && (f.status == Completed || f.status == Failed)
      && (outcome.Ok? ==> f == r.(status := Completed, artifacts := outcome.value, updatedAt := t0 + 2))
      && (outcome.Err? ==> f == r.(status := Failed, error := Some(outcome.error.Message()), updatedAt := t0 + 2))
  {
  }

  /** With no qualifying URL the run fails with the "No qualifying URLs"
      message; unlike the brief and quick-draft jobs there is no fallback. */
  lemma RunWithoutUrlsFails(
    query: string, seedUrls: seq<string>, aiCitationsText: string, aiOverviewText: string,
    maxUrls: int, oracles: Oracles)
    requires TopUrls(seedUrls, aiCitationsText, aiOverviewText, maxUrls) == []
    ensures RunOutcome(query, AnalyzeSources(query, seedUrls, aiCitationsText, aiOverviewText, maxUrls, oracles), oracles)
      == Err(ValueError(NoQualifyingUrlsMessage))
  {
    NoUrlsRaisesBeforeFetching(query, seedUrls, aiCitationsText, aiOverviewText, maxUrls, oracles, oracles);
  }

  /** When every selected URL fails to extract, the run fails with the
      "Could not extract" message. */
  lemma RunWithoutExtractionsFails(query: string, top: seq<string>, oracles: Oracles)
    requires top != []
    requires forall u :: u in top ==> !Extractable(oracles.fetch)(u)
    ensures RunOutcome(query, AnalyzeSelected(query, top, oracles), oracles) == Err(ValueError(NothingExtractedMessage))
  {
    AllFailedRaises(query, top, oracles);
  }
}
