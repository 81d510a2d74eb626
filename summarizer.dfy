/** `app/services/summarizer.py`: a short article gets a fixed placeholder
    summary without a language-model call; a longer one is summarised by the
    model. Either way the summary carries the article's URL. */
module Summarizer {
  import opened Wrappers
  import opened Schemas
  import opened Text

  /** Below this many words no model call is made. */
  const MinSummaryWords := 80

  const ShortContentSummary := "Content too short for reliable SEO summary."

  /** `summarize_article(article)`, with the model call given as `summarize`. */
  function SummarizeArticle(article: UrlContent, summarize: UrlContent -> Result<string>): (r: Result<ArticleSummary>)
    ensures r.Ok? ==> r.value.url == article.url
    ensures WordCount(article.text) < MinSummaryWords ==> r == Ok(ArticleSummary(article.url, ShortContentSummary))
    ensures WordCount(article.text) >= MinSummaryWords ==>
      (r.Ok? <==> summarize(article).Ok?) &&
      (r.Ok? ==> r.value.summary == summarize(article).value) &&
      (r.Err? ==> r.error == summarize(article).error)
  {
    if WordCount(article.text) < MinSummaryWords then Ok(ArticleSummary(article.url, ShortContentSummary))
    else
      match summarize(article)
      case Ok(text) => Ok(ArticleSummary(article.url, text))
      case Err(e) => Err(e)
  }

  /** Article `k` is the first whose summary raises, and it raises `e`. */
  predicate FailsFirstAt(articles: seq<UrlContent>, summarize: UrlContent -> Result<string>, k: int, e: Exception) {
    0 <= k < |articles| && SummarizeArticle(articles[k], summarize) == Err(e)
    && forall j :: 0 <= j < k ==> SummarizeArticle(articles[j], summarize).Ok?
  }

  /** The first failure after a summarised article is the first failure of
      the whole list, one place further on. */
  lemma FailsFirstShift(articles: seq<UrlContent>, summarize: UrlContent -> Result<string>, k: int, e: Exception)
    requires articles != [] && SummarizeArticle(articles[0], summarize).Ok?
    requires FailsFirstAt(articles[1..], summarize, k, e)
    ensures FailsFirstAt(articles, summarize, k + 1, e)
  {
    assert forall j :: 1 <= j < k + 1 ==> articles[j] == articles[1..][j - 1];
  }

  /** `[summarize_article(a) for a in articles]`: the first exception raised
      ends the comprehension. */
  function SummarizeAll(articles: seq<UrlContent>, summarize: UrlContent -> Result<string>): (r: Result<seq<ArticleSummary>>)
    ensures r.Ok? ==> |r.value| == |articles|
    ensures r.Ok? ==> forall k :: 0 <= k < |articles| ==> r.value[k].url == articles[k].url
    ensures r.Ok? ==> forall k :: 0 <= k < |articles| ==> SummarizeArticle(articles[k], summarize) == Ok(r.value[k])
    ensures r.Err? ==> exists k :: FailsFirstAt(articles, summarize, k, r.error)
    decreases |articles|
  {
    if articles == [] then Ok([])
    else
      match SummarizeArticle(articles[0], summarize)
      case Err(e) =>
        assert FailsFirstAt(articles, summarize, 0, e);
        Err(e)
      case Ok(first) =>
        match SummarizeAll(articles[1..], summarize)
        case Err(e) =>
          assert exists k :: FailsFirstAt(articles, summarize, k, e) by {
            var k :| FailsFirstAt(articles[1..], summarize, k, e);
            FailsFirstShift(articles, summarize, k, e);
          }
          Err(e)
        case Ok(rest) => Ok([first] + rest)
  }

  /** Articles too short for the model are always summarised, whatever the
      model would do. */
  lemma {:induction false} ShortArticlesAlwaysSummarised(articles: seq<UrlContent>, summarize: UrlContent -> Result<string>)
    requires forall k :: 0 <= k < |articles| ==> WordCount(articles[k].text) < MinSummaryWords
    ensures SummarizeAll(articles, summarize).Ok?
    ensures forall k :: 0 <= k < |articles| ==>
      SummarizeAll(articles, summarize).value[k] == ArticleSummary(articles[k].url, ShortContentSummary)
    decreases |articles|
  {
    if articles != [] {
      ShortArticlesAlwaysSummarised(articles[1..], summarize);
    }
  }
}
