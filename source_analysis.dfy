/** `app/workflows/source_analysis.py`: collect and select the source URLs,
    extract each of them, drop the extractions that raised, then summarise
    and analyse what is left. Two situations raise `ValueError`: no URL
    qualifies, or no extraction succeeds.

    `asyncio.gather(..., return_exceptions=True)` becomes the list of
    per-URL outcomes in the order of the selected URLs. */
module SourceAnalysis {
  import opened Wrappers
  import opened Schemas
  import opened SourceCollector
  import opened UrlValidator
  import opened Extractor
  import opened Summarizer
  import opened Services

  const NoQualifyingUrlsMessage := "No qualifying URLs found. Provide seed URLs or citation text containing links."

  const NothingExtractedMessage := "Could not extract content from selected URLs."

  /** The tuple `(top_urls, extracted, summaries, seo_analysis)`. */
  datatype Analysis = Analysis(
    topUrls: seq<string>,
    extracted: seq<UrlContent>,
    summaries: seq<ArticleSummary>,
    seoAnalysis: string)

  /** The URLs the step works on: `select_top_urls(collect_seed_urls(...), max_urls)`. */
  function TopUrls(seedUrls: seq<string>, aiCitationsText: string, aiOverviewText: string, maxUrls: int): seq<string> {
    SelectTopUrls(CollectedUrls(seedUrls, aiCitationsText, aiOverviewText), maxUrls)
  }

  /** What `gather` returns: one outcome per URL, in order. */
  function ExtractAll(urls: seq<string>, fetch: string -> FetchResponse): (results: seq<Result<UrlContent>>)
    ensures |results| == |urls|
  {
    seq(|urls|, i requires 0 <= i < |urls| => ExtractUrlContent(urls[i], fetch(urls[i])))
  }

  /** The successful outcomes, in order. */
  function Successes(results: seq<Result<UrlContent>>): seq<UrlContent>
    decreases |results|
  {
    if results == [] then []
    else
      var last := results[|results| - 1];
      Successes(results[..|results| - 1]) + (if last.Ok? then [last.value] else [])
  }

  /** Everything after the selection: extract, keep the successes, then
      summarise and analyse. */
  function AnalyzeSelected(query: string, top: seq<string>, oracles: Oracles): Result<Analysis> {
    if top == [] then Err(ValueError(NoQualifyingUrlsMessage))
    else
      var extracted := Successes(ExtractAll(top, oracles.fetch));
      if extracted == [] then Err(ValueError(NothingExtractedMessage))
      else
        match SummarizeAll(extracted, oracles.summarize)
        case Err(e) => Err(e)
        case Ok(summaries) =>
          match oracles.analyze(query, summaries)
          case Err(e) => Err(e)
          case Ok(seoAnalysis) => Ok(Analysis(top, extracted, summaries, seoAnalysis))
  }

  /** The specification of `build_source_analysis`. */
  function AnalyzeSources(
    query: string, seedUrls: seq<string>, aiCitationsText: string, aiOverviewText: string,
    maxUrls: int, oracles: Oracles
  ): Result<Analysis>
  {
    AnalyzeSelected(query, TopUrls(seedUrls, aiCitationsText, aiOverviewText, maxUrls), oracles)
  }

  /** `build_source_analysis`: the loop keeps the outcomes that did not
      raise. */
  method BuildSourceAnalysis(
    query: string, seedUrls: seq<string>, aiCitationsText: string, aiOverviewText: string,
    maxUrls: int, oracles: Oracles
  ) returns (r: Result<Analysis>)
    ensures r == AnalyzeSources(query, seedUrls, aiCitationsText, aiOverviewText, maxUrls, oracles)
  {
    var candidates := CollectSeedUrls(query, seedUrls, aiCitationsText, aiOverviewText);
    var topUrls := SelectTopUrls(candidates, maxUrls);
    r := AnalyzeTopUrls(query, topUrls, oracles);
  }

  /** The part of `build_source_analysis` after the selection. */
  method AnalyzeTopUrls(query: string, topUrls: seq<string>, oracles: Oracles) returns (r: Result<Analysis>)
    ensures r == AnalyzeSelected(query, topUrls, oracles)
  {
    if topUrls == [] {
      return Err(ValueError(NoQualifyingUrlsMessage));
    }
    var results := ExtractAll(topUrls, oracles.fetch);
    var extracted := KeepSuccesses(results);
    if extracted == [] {
      return Err(ValueError(NothingExtractedMessage));
    }
    var summaries := SummarizeAll(extracted, oracles.summarize);
    if summaries.Err? {
      return Err(summaries.error);
    }
    var seoAnalysis := oracles.analyze(query, summaries.value);
    if seoAnalysis.Err? {
      return Err(seoAnalysis.error);
    }
    r := Ok(Analysis(topUrls, extracted, summaries.value, seoAnalysis.value));
  }

  /** The loop over the `gather` results: an outcome that raised is
      skipped, the others are kept in order. */
  method KeepSuccesses(results: seq<Result<UrlContent>>) returns (extracted: seq<UrlContent>)
    ensures extracted == Successes(results)
  {
    extracted := [];
    for i := 0 to |results|
      invariant extracted == Successes(results[..i])
    {
      assert results[..i + 1][..i] == results[..i];
      if results[i].Ok? {
        extracted := extracted + [results[i].value];
      }
    }
    assert results[..|results|] == results;
  }

  /** The URLs whose extraction succeeds. */
  function Extractable(fetch: string -> FetchResponse): string -> bool {
    u => ExtractUrlContent(u, fetch(u)).Ok?
  }

  /** The kept extractions are those of the URLs whose fetch succeeded, in
      the order of those URLs, each for its own URL. */
  lemma {:induction false} SuccessesOfExtractAll(urls: seq<string>, fetch: string -> FetchResponse)
    ensures |Successes(ExtractAll(urls, fetch))| == |Filter(urls, Extractable(fetch))|
    ensures forall k :: 0 <= k < |Successes(ExtractAll(urls, fetch))| ==>
      Successes(ExtractAll(urls, fetch))[k].url == Filter(urls, Extractable(fetch))[k]
    decreases |urls|
  {
    if urls != [] {
      var init := urls[..|urls| - 1];
      var u := urls[|urls| - 1];
      SuccessesOfExtractAll(init, fetch);
      assert ExtractAll(urls, fetch)[..|urls| - 1] == ExtractAll(init, fetch);
      assert urls == init + [u];
      FilterAppend(init, [u], Extractable(fetch));
    }
  }

  /** With no qualifying URL the step raises `ValueError` before anything is
      fetched: the outcome does not depend on the foreign calls. */
  lemma NoUrlsRaisesBeforeFetching(
    query: string, seedUrls: seq<string>, aiCitationsText: string, aiOverviewText: string,
    maxUrls: int, oracles: Oracles, others: Oracles)
    requires TopUrls(seedUrls, aiCitationsText, aiOverviewText, maxUrls) == []
    ensures AnalyzeSources(query, seedUrls, aiCitationsText, aiOverviewText, maxUrls, oracles)
      == Err(ValueError(NoQualifyingUrlsMessage))
      == AnalyzeSources(query, seedUrls, aiCitationsText, aiOverviewText, maxUrls, others)
  {
  }

  /** When every selected URL fails to extract, the step raises `ValueError`. */
  lemma AllFailedRaises(query: string, top: seq<string>, oracles: Oracles)
    requires top != []
    requires forall u :: u in top ==> !Extractable(oracles.fetch)(u)
    ensures AnalyzeSelected(query, top, oracles) == Err(ValueError(NothingExtractedMessage))
  {
    SuccessesOfExtractAll(top, oracles.fetch);
    FilterNoneKept(top, Extractable(oracles.fetch));
  }

  /** A successful analysis keeps the selected URLs, at most `max_urls` of
      them, and has between one and that many extractions. */
  lemma SuccessSelection(
    query: string, seedUrls: seq<string>, aiCitationsText: string, aiOverviewText: string,
    maxUrls: int, oracles: Oracles)
    requires AnalyzeSources(query, seedUrls, aiCitationsText, aiOverviewText, maxUrls, oracles).Ok?
    ensures var a := AnalyzeSources(query, seedUrls, aiCitationsText, aiOverviewText, maxUrls, oracles).value;
      && a.topUrls == TopUrls(seedUrls, aiCitationsText, aiOverviewText, maxUrls)
      && (maxUrls >= 0 ==> |a.topUrls| <= maxUrls)
      && 0 < |a.extracted| <= |a.topUrls|
  {
    var top := TopUrls(seedUrls, aiCitationsText, aiOverviewText, maxUrls);
    assert AnalyzeSources(query, seedUrls, aiCitationsText, aiOverviewText, maxUrls, oracles)
      == AnalyzeSelected(query, top, oracles);
    SuccessContents(query, top, oracles);
    FilterLength(top, Extractable(oracles.fetch));
  }

  /** The extractions of a successful analysis are those of the selected URLs
      that could be fetched, in order; there is one summary per extraction,
      for the same URL, and the analysis is that of those summaries. */
  lemma SuccessContents(query: string, top: seq<string>, oracles: Oracles)
    requires AnalyzeSelected(query, top, oracles).Ok?
    ensures var a := AnalyzeSelected(query, top, oracles).value;
      && a.topUrls == top
      && a.extracted != []
      && |a.extracted| == |Filter(top, Extractable(oracles.fetch))|
      && (forall k :: 0 <= k < |a.extracted| ==> a.extracted[k].url == Filter(top, Extractable(oracles.fetch))[k])
      && |a.summaries| == |a.extracted|
      && (forall k :: 0 <= k < |a.summaries| ==> a.summaries[k].url == a.extracted[k].url)
      && oracles.analyze(query, a.summaries) == Ok(a.seoAnalysis)
  {
    var a := AnalyzeSelected(query, top, oracles).value;
    assert a.extracted == Successes(ExtractAll(top, oracles.fetch));
    SuccessesOfExtractAll(top, oracles.fetch);
  }
}
