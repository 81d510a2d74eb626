/** `app/services/extractor.py`: fetch a page, extract its main text with
    the primary extractor, fall back to the HTML-tree extractor when that
    text is short, and cap the text's length.

    The HTTP client and the two HTML libraries are foreign code: a fetch is
    given as its `FetchResponse`, and what the libraries make of the page as
    a `Page`. */
module Extractor {
  import opened Wrappers
  import opened Schemas
  import opened Text

  /** Below this many words the primary text is replaced by the fallback. */
  const MinPrimaryWords := 150

  /** `text[:120000]` */
  const MaxTextLength := 120000

  const Untitled := "Untitled"

  /** What the HTML libraries report for one page.
      `primaryText`: the main text, `None` when the primary extractor finds none.
      `metadataTitle`: the page metadata's title, `None` when there is no
      metadata or no title in it.
      `htmlTitle`: `None` without a `<title>` element, `Some(None)` when that
      element has no single string, `Some(Some(t))` otherwise.
      `htmlText`: the text of the parse tree, one text node per line, after
      `script`, `style`, `noscript` and `svg` elements are removed. */
  datatype Page = Page(
    primaryText: Option<string>,
    metadataTitle: Option<string>,
    htmlTitle: Option<Option<string>>,
    htmlText: string)

  /** The outcome of the GET request: the final response after redirects,
      or a transport error such as a timeout. */
  datatype FetchResponse =
    | Response(statusCode: int, page: Page)
    | TransportError(message: string)

  /** The title and text one extractor produces. */
  datatype Extraction = Extraction(title: string, text: string)

  /** A title that is missing or empty (Python-falsy) reads `"Untitled"`. */
  function TitleOrUntitled(title: Option<string>): (t: string)
    ensures t != ""
    ensures title.Some? && title.value != "" ==> t == title.value
    ensures title.None? || title.value == "" ==> t == Untitled
  {
    if title.Some? && title.value != "" then title.value else Untitled
  }

  /** `_extract_with_trafilatura`: a missing text reads as `""`. */
  function PrimaryExtraction(page: Page): (e: Extraction)
    ensures e.title != ""
    ensures page.primaryText.None? ==> e.text == ""
  {
    Extraction(
      TitleOrUntitled(page.metadataTitle),
      if page.primaryText.Some? then page.primaryText.value else "")
  }

  /** The stripped lines that are not blank, in order. */
  function NonBlankStripped(lines: seq<string>): (out: seq<string>)
    ensures forall k :: 0 <= k < |out| ==> out[k] != "" && IsStripped(out[k])
    ensures |out| <= |lines|
    decreases |lines|
  {
    if lines == [] then []
    else
      var l := Strip(lines[0]);
      (if l != "" then [l] else []) + NonBlankStripped(lines[1..])
  }

  /** The lines of `_extract_with_bs4`'s output:
      `line.strip() for line in text.splitlines() if line.strip()`.
      Splitting at every line-break character yields the lines of
      `splitlines` plus blank pieces (after a final break, between `\r` and
      `\n`), and blank pieces are dropped either way. */
  function FlattenedLines(raw: string): seq<string> {
    NonBlankStripped(Split(raw, IsLineBreak))
  }

  /** `"\n".join(...)` of those lines. */
  function FlattenText(raw: string): string {
    Join("\n", FlattenedLines(raw))
  }

  /** If no line of either list holds a character satisfying `p`, no line
      of the two lists together does. */
  lemma AvoidsConcat(a: seq<string>, b: seq<string>, p: char -> bool)
    requires forall k :: 0 <= k < |a| ==> Avoids(a[k], p)
    requires forall k :: 0 <= k < |b| ==> Avoids(b[k], p)
    ensures forall k :: 0 <= k < |a + b| ==> Avoids((a + b)[k], p)
  {
  }

  /** A stripped line keeps no line break of a line that had none. */
  lemma {:induction false} NonBlankStrippedNoBreak(lines: seq<string>)
    requires forall k :: 0 <= k < |lines| ==> Avoids(lines[k], IsLineBreak)
    ensures forall k :: 0 <= k < |NonBlankStripped(lines)| ==> Avoids(NonBlankStripped(lines)[k], IsLineBreak)
    decreases |lines|
  {
    if lines != [] {
      var rest := NonBlankStripped(lines[1..]);
      NonBlankStrippedNoBreak(lines[1..]);
      assert forall k :: 0 <= k < |rest| ==> Avoids(rest[k], IsLineBreak);
      var l := Strip(lines[0]);
      StripKeepsAbsent(lines[0], IsLineBreak);
      var head := if l != "" then [l] else [];
      assert forall k :: 0 <= k < |head| ==> Avoids(head[k], IsLineBreak);
      AvoidsConcat(head, rest, IsLineBreak);
      assert NonBlankStripped(lines) == head + rest;
    }
  }

  /** The flattened text splits back into exactly its lines; none is blank,
      none has surrounding whitespace, none holds a line break. */
  lemma FlattenTextLines(raw: string)
    ensures var lines := FlattenedLines(raw);
      && (forall k :: 0 <= k < |lines| ==> lines[k] != "" && IsStripped(lines[k]))
      && (lines != [] ==> Split(FlattenText(raw), IsLineBreak) == lines)
  {
    var lines := FlattenedLines(raw);
    NonBlankStrippedNoBreak(Split(raw, IsLineBreak));
    if lines != [] {
      SplitJoin('\n', lines, IsLineBreak);
    }
  }

  /** Lines that are already non-blank and stripped pass unchanged. */
  lemma {:induction false} NonBlankStrippedOfClean(lines: seq<string>)
    requires forall k :: 0 <= k < |lines| ==> lines[k] != "" && IsStripped(lines[k])
    ensures NonBlankStripped(lines) == lines
    decreases |lines|
  {
    if lines != [] {
      StripStripped(lines[0]);
      NonBlankStrippedOfClean(lines[1..]);
    }
  }

  /** Flattening is idempotent: flattened text is flattened already. */
  lemma FlattenTextIdempotent(raw: string)
    ensures FlattenText(FlattenText(raw)) == FlattenText(raw)
  {
    var lines := FlattenedLines(raw);
    FlattenTextLines(raw);
    if lines != [] {
      NonBlankStrippedOfClean(lines);
    } else {
      assert FlattenText(raw) == "";
      assert Split("", IsLineBreak) == [""];
    }
  }

  /** `_extract_with_bs4`: the `<title>` string and the flattened text. */
  function FallbackExtraction(page: Page): (e: Extraction)
    ensures e.title != ""
  {
    Extraction(
      if page.htmlTitle.Some? then TitleOrUntitled(page.htmlTitle.value) else Untitled,
      FlattenText(page.htmlText))
  }

  /** The primary extraction unless its text has fewer than 150 words. */
  function ChooseExtraction(page: Page): (e: Extraction)
    ensures e == PrimaryExtraction(page) || e == FallbackExtraction(page)
    ensures WordCount(PrimaryExtraction(page).text) < MinPrimaryWords ==> e == FallbackExtraction(page)
    ensures WordCount(PrimaryExtraction(page).text) >= MinPrimaryWords ==> e == PrimaryExtraction(page)
  {
    var primary := PrimaryExtraction(page);
    if WordCount(primary.text) < MinPrimaryWords then FallbackExtraction(page) else primary
  }

  /** `text[:120000]` */
  function Truncate(text: string): (t: string)
    ensures |t| <= MaxTextLength && |t| <= |text| && t == text[..|t|]
    ensures |text| <= MaxTextLength ==> t == text
  {
    if |text| <= MaxTextLength then text else text[..MaxTextLength]
  }

  /** `raise_for_status()`: only a 2xx final response is let through. */
  predicate IsSuccess(statusCode: int) {
    200 <= statusCode < 300
  }

  /** `extract_url_content(url)` given the outcome of fetching `url`; a
      transport error or a status outside 2xx is raised to the caller. */
  function ExtractUrlContent(url: string, response: FetchResponse): (r: Result<UrlContent>)
    ensures r.Ok? <==> response.Response? && IsSuccess(response.statusCode)
    ensures r.Err? ==> r.error.OtherError?
    ensures r.Ok? ==>
      var chosen := ChooseExtraction(response.page);
      && r.value.url == url
      && r.value.title == chosen.title != ""
      && |r.value.text| <= MaxTextLength && |r.value.text| <= |chosen.text|
      && r.value.text == chosen.text[..|r.value.text|]
      && (|chosen.text| <= MaxTextLength ==> r.value.text == chosen.text)
  {
    match response
    case TransportError(message) => Err(OtherError(message))
    case Response(statusCode, page) =>
      if !IsSuccess(statusCode) then Err(OtherError("HTTP status error"))
      else
        var chosen := ChooseExtraction(page);
        Ok(UrlContent(url, chosen.title, Truncate(chosen.text)))
  }
}
