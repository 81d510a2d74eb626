/** `app/services/source_collector.py`: URLs found in free text, merged
    after the explicit seed URLs, cleaned and de-duplicated in first-seen
    order. */
module SourceCollector {
  import opened Text

  /** The characters `URL_RE` stops at: whitespace, `)`, `]`, `>`, `"`, `'`. */
  predicate IsUrlStop(c: char) {
    IsSpace(c) || c == ')' || c == ']' || c == '>' || c == '"' || c == '\''
  }

  /** The length of the `https?://` that `s` starts with, or 0. */
  function SchemeLength(s: string): nat {
    if StartsWith(s, "https://") then 8
    else if StartsWith(s, "http://") then 7
    else 0
  }

  /** A string `URL_RE` matches in full: the scheme prefix followed by at
      least one character, none of them a stop character. */
  predicate IsUrlMatch(u: string) {
    && (StartsWith(u, "http://") || StartsWith(u, "https://"))
    && SchemeLength(u) < |u|
    && forall i :: 0 <= i < |u| ==> !IsUrlStop(u[i])
  }

  /** `URL_RE.findall(s)`: scan left to right; where `https?://` is followed
      by a non-stop character, take the longest run of non-stop characters
      and resume after it, otherwise move on by one character. */
  function FindAll(s: string): (urls: seq<string>)
    ensures forall k :: 0 <= k < |urls| ==> IsUrlMatch(urls[k])
    decreases |s|
  {
    if s == [] then []
    else
      var p := SchemeLength(s);
      if 0 < p < |s| && !IsUrlStop(s[p]) then
        var n := p + IndexWhere(s[p..], IsUrlStop);
        RunIsUrlMatch(s);
        [s[..n]] + FindAll(s[n..])
      else FindAll(s[1..])
  }

  /** Where the scheme is followed by a non-stop character, the run of
      non-stop characters from the start of `s` is a full match. */
  lemma RunIsUrlMatch(s: string)
    requires 0 < SchemeLength(s) < |s| && !IsUrlStop(s[SchemeLength(s)])
    ensures var p := SchemeLength(s); var n := p + IndexWhere(s[p..], IsUrlStop);
      p < n <= |s| && IsUrlMatch(s[..n])
  {
    var p := SchemeLength(s);
    var n := p + IndexWhere(s[p..], IsUrlStop);
    var u := s[..n];
    assert u[..p] == s[..p];
    assert StartsWith(u, "http://") || StartsWith(u, "https://");
    assert SchemeLength(u) == p;
    assert forall i :: 0 <= i < p ==> !IsUrlStop(s[i]);
    assert forall i :: p <= i < n ==> s[i] == s[p..][i - p];
  }

  /** `extract_urls_from_text` */
  function ExtractUrlsFromText(text: string): (urls: seq<string>)
    ensures text == "" ==> urls == []
    ensures forall k :: 0 <= k < |urls| ==> IsUrlMatch(urls[k])
  {
    if text == "" then [] else FindAll(text)
  }

  /** A URL followed by a stop character (or by nothing) is found whole. */
  lemma FindAllFrom(u: string, rest: string)
    requires IsUrlMatch(u)
    requires rest == [] || IsUrlStop(rest[0])
    ensures FindAll(u + rest) == [u] + FindAll(rest)
  {
    var s := u + rest;
    var p := SchemeLength(s);
    assert s[..|u|] == u;
    assert p == SchemeLength(u);
    assert IndexWhere(s[p..], IsUrlStop) == |u| - p by {
      assert forall i :: 0 <= i < |u| - p ==> s[p..][i] == u[p + i];
    }
    assert s[|u|..] == rest;
  }

  lemma FindAllSkipsSpace(rest: string)
    ensures FindAll(" " + rest) == FindAll(rest)
  {
    var s := " " + rest;
    assert SchemeLength(s) == 0 by {
      assert s[0] == ' ';
    }
    assert s[1..] == rest;
  }

  /** URLs written out separated by single spaces are found again, in order:
      what `URL_RE` extracts is exactly what such a text holds. */
  lemma {:induction false} ExtractSpaceSeparated(urls: seq<string>)
    requires forall k :: 0 <= k < |urls| ==> IsUrlMatch(urls[k])
    ensures ExtractUrlsFromText(Join(" ", urls)) == urls
    decreases |urls|
  {
    if |urls| == 1 {
      FindAllFrom(urls[0], []);
      assert urls[0] + [] == urls[0];
    } else if |urls| > 1 {
      var u := urls[0];
      var rest := Join(" ", urls[1..]);
      ExtractSpaceSeparated(urls[1..]);
      assert rest != "" by {
        assert IsUrlMatch(urls[1]);
        JoinKeepsFirst(" ", urls[1..]);
      }
      assert Join(" ", urls) == u + (" " + rest) by {
        assert Join(" ", urls) == u + " " + rest;
      }
      calc {
        FindAll(u + (" " + rest));
        { FindAllFrom(u, " " + rest); }
        [u] + FindAll(" " + rest);
        { FindAllSkipsSpace(rest); }
        [u] + FindAll(rest);
      }
      assert urls == [u] + urls[1..];
    }
  }

  predicate IsSlashOrSpace(c: char) {
    c == '/' || c == ' '
  }

  /** Neither leading whitespace nor a trailing `/` or space. */
  predicate IsCleaned(u: string) {
    u == [] || (!IsSpace(u[0]) && !IsSlashOrSpace(u[|u| - 1]))
  }

  /** `url.strip().rstrip("/ ")` */
  function CleanUrl(url: string): (cleaned: string)
    ensures IsCleaned(cleaned)
  {
    TrimEnd(Strip(url), IsSlashOrSpace)
  }

  /** `[clean(u) for u in urls]` */
  function MapUrls(urls: seq<string>, clean: string -> string): (r: seq<string>)
    ensures |r| == |urls|
  {
    seq(|urls|, k requires 0 <= k < |urls| => clean(urls[k]))
  }

  lemma MapUrlsAppend(a: seq<string>, b: seq<string>, clean: string -> string)
    ensures MapUrls(a + b, clean) == MapUrls(a, clean) + MapUrls(b, clean)
  {
  }

  /** Every URL cleaned, in order. */
  function CleanAll(urls: seq<string>): (cleaned: seq<string>)
    ensures |cleaned| == |urls|
  {
    MapUrls(urls, CleanUrl)
  }

  lemma CleanAllIndex(urls: seq<string>, k: nat)
    requires k < |urls|
    ensures CleanAll(urls)[k] == CleanUrl(urls[k])
  {
  }

  /** Cleaning distributes over concatenation. */
  lemma CleanAllAppend(a: seq<string>, b: seq<string>)
    ensures CleanAll(a + b) == CleanAll(a) + CleanAll(b)
  {
    MapUrlsAppend(a, b, CleanUrl);
  }

  predicate NoDuplicates(xs: seq<string>) {
    forall i, j :: 0 <= i < j < |xs| ==> xs[i] != xs[j]
  }

  /** The non-empty entries of `xs`, each kept at its first occurrence. */
  function Dedup(xs: seq<string>): seq<string>
    decreases |xs|
  {
    if xs == [] then []
    else
      var d := Dedup(xs[..|xs| - 1]);
      var x := xs[|xs| - 1];
      if x == "" || x in d then d else d + [x]
  }

  /** `Dedup` keeps every non-empty entry of its input exactly once, and
      nothing else. */
  lemma {:induction false} DedupShape(xs: seq<string>)
    ensures NoDuplicates(Dedup(xs))
    ensures forall x :: x in Dedup(xs) <==> x in xs && x != ""
    decreases |xs|
  {
    if xs != [] {
      var xs' := xs[..|xs| - 1];
      DedupShape(xs');
      assert xs == xs' + [xs[|xs| - 1]];
    }
  }

  /** One more entry: kept when it is non-empty and new. */
  lemma DedupSnoc(xs: seq<string>, x: string)
    ensures Dedup(xs + [x]) == if x == "" || x in Dedup(xs) then Dedup(xs) else Dedup(xs) + [x]
  {
    assert (xs + [x])[..|xs|] == xs;
  }

  /** What the URLs of a prefix of the input keep is a prefix of the output:
      URLs from the seeds come before URLs from the citation text, and those
      before URLs from the overview text. */
  lemma {:induction false} DedupPrefix(a: seq<string>, b: seq<string>)
    ensures |Dedup(a)| <= |Dedup(a + b)|
    ensures Dedup(a + b)[..|Dedup(a)|] == Dedup(a)
    decreases |b|
  {
    if b == [] {
      assert a + b == a;
    } else {
      var b' := b[..|b| - 1];
      DedupPrefix(a, b');
      assert (a + b)[..|a + b| - 1] == a + b';
    }
  }

  /** First-occurrence order: of two kept URLs, the earlier one occurs in the
      input before the later one occurs at all. */
  lemma {:induction false} DedupOrder(xs: seq<string>, i: nat, j: nat)
    requires i < j < |Dedup(xs)|
    ensures exists p :: 0 <= p < |xs| && xs[p] == Dedup(xs)[i] && Dedup(xs)[j] !in xs[..p + 1]
    decreases |xs|
  {
    var xs' := xs[..|xs| - 1];
    var d' := Dedup(xs');
    assert xs == xs' + [xs[|xs| - 1]];
    if j < |d'| {
      DedupOrder(xs', i, j);
      var p :| 0 <= p < |xs'| && xs'[p] == d'[i] && d'[j] !in xs'[..p + 1];
      assert xs[..p + 1] == xs'[..p + 1];
    } else {
      DedupShape(xs');
      var x := xs[|xs| - 1];
      assert Dedup(xs)[j] == x && x !in d' && x != "";
      assert x !in xs';
      assert d'[i] in xs';
      var p :| 0 <= p < |xs'| && xs'[p] == d'[i];
      assert xs[..p + 1] == xs'[..p + 1];
    }
  }

  /** The specification of `collect_seed_urls`: the query plays no part. */
  function CollectedUrls(seedUrls: seq<string>, aiCitationsText: string, aiOverviewText: string): seq<string> {
    Dedup(CleanAll(seedUrls + ExtractUrlsFromText(aiCitationsText) + ExtractUrlsFromText(aiOverviewText)))
  }

  /** Cleaning then de-duplicating yields distinct, non-empty, cleaned URLs,
      one for every input URL that does not clean to nothing. */
  lemma CleanedDedupShape(xs: seq<string>)
    ensures var out := Dedup(CleanAll(xs));
      && NoDuplicates(out)
      && (forall k :: 0 <= k < |out| ==> out[k] != "" && IsCleaned(out[k]))
      && (forall u :: u in xs && CleanUrl(u) != "" ==> CleanUrl(u) in out)
  {
    var cleaned := CleanAll(xs);
    var out := Dedup(cleaned);
    DedupShape(cleaned);
    forall k | 0 <= k < |out|
      ensures out[k] != "" && IsCleaned(out[k])
    {
      assert out[k] in cleaned;
      var i :| 0 <= i < |cleaned| && cleaned[i] == out[k];
      CleanAllIndex(xs, i);
    }
    forall u | u in xs && CleanUrl(u) != ""
      ensures CleanUrl(u) in out
    {
      var i :| 0 <= i < |xs| && xs[i] == u;
      CleanAllIndex(xs, i);
      assert cleaned[i] == CleanUrl(u);
    }
  }

  /** The output of `collect_seed_urls` is duplicate-free, holds only
      non-empty cleaned URLs, and misses no seed URL. */
  lemma CollectedUrlsShape(seedUrls: seq<string>, aiCitationsText: string, aiOverviewText: string)
    ensures var out := CollectedUrls(seedUrls, aiCitationsText, aiOverviewText);
      && NoDuplicates(out)
      && (forall k :: 0 <= k < |out| ==> out[k] != "" && IsCleaned(out[k]))
      && (forall u :: u in seedUrls && CleanUrl(u) != "" ==> CleanUrl(u) in out)
  {
    var all := seedUrls + ExtractUrlsFromText(aiCitationsText) + ExtractUrlsFromText(aiOverviewText);
    CleanedDedupShape(all);
    forall u | u in seedUrls
      ensures u in all
    {
    }
  }

  /** Seeds first, then citation-text URLs, then overview-text URLs. */
  lemma CollectedUrlsOrder(seedUrls: seq<string>, aiCitationsText: string, aiOverviewText: string)
    ensures var out := CollectedUrls(seedUrls, aiCitationsText, aiOverviewText);
      var fromSeeds := Dedup(CleanAll(seedUrls));
      var fromSeedsAndCitations := Dedup(CleanAll(seedUrls + ExtractUrlsFromText(aiCitationsText)));
      && |fromSeeds| <= |fromSeedsAndCitations| <= |out|
      && fromSeedsAndCitations[..|fromSeeds|] == fromSeeds
      && out[..|fromSeedsAndCitations|] == fromSeedsAndCitations
  {
    var s := seedUrls;
    var c := ExtractUrlsFromText(aiCitationsText);
    var o := ExtractUrlsFromText(aiOverviewText);
    CleanAllAppend(s, c);
    CleanAllAppend(s + c, o);
    DedupPrefix(CleanAll(s), CleanAll(c));
    DedupPrefix(CleanAll(s + c), CleanAll(o));
  }

  /** One more URL cleans and is kept unless it is empty or already there. */
  lemma CleanDedupStep(xs: seq<string>, i: nat)
    requires i < |xs|
    ensures var d := Dedup(CleanAll(xs[..i])); var c := CleanUrl(xs[i]);
      Dedup(CleanAll(xs[..i + 1])) == if c == "" || c in d then d else d + [c]
  {
    assert xs[..i + 1] == xs[..i] + [xs[i]];
    CleanAllAppend(xs[..i], [xs[i]]);
    DedupSnoc(CleanAll(xs[..i]), CleanUrl(xs[i]));
  }

  /** The loop of `collect_seed_urls`: clean each collected URL and keep it
      the first time it is seen, skipping empty ones; `seen` mirrors `unique`. */
  method CleanAndDedup(collected: seq<string>) returns (unique: seq<string>)
    ensures unique == Dedup(CleanAll(collected))
  {
    var seen: set<string> := {};
    unique := [];
    for i := 0 to |collected|
      invariant unique == Dedup(CleanAll(collected[..i]))
      invariant forall u :: u in seen <==> u in unique
    {
      var cleaned := CleanUrl(collected[i]);
      CleanDedupStep(collected, i);
      if cleaned != "" && cleaned !in seen {
        seen := seen + {cleaned};
        unique := unique + [cleaned];
      }
    }
    assert collected[..|collected|] == collected;
  }

  /** `collect_seed_urls`: extend the seeds with the URLs of both texts, then
      clean and de-duplicate them. */
  method CollectSeedUrls(query: string, seedUrls: seq<string>, aiCitationsText: string, aiOverviewText: string)
    returns (unique: seq<string>)
    ensures unique == CollectedUrls(seedUrls, aiCitationsText, aiOverviewText)
  {
    var collected := seedUrls;
    collected := collected + ExtractUrlsFromText(aiCitationsText);
    collected := collected + ExtractUrlsFromText(aiOverviewText);
    unique := CleanAndDedup(collected);
  }
}
