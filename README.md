# SEO content agent — a Dafny model of its core

The application turns a search query into SEO content in three kinds of
background job:

- A **run** collects candidate URLs and keeps the acceptable ones. It fetches
  and extracts each page, summarises and analyses them, writes an article and
  exports it to a local markdown file.
- A **brief** job does the same source analysis, then builds a content brief.
  When no sources can be analysed, it falls back to a brief built from the
  query alone.
- An **article** job writes an article from a stored brief or a custom brief,
  or, as a quick draft, builds an internal brief first.

Each job records its status, stage and progress in an in-memory store, and
HTTP routes create and inspect the records.

This project models the parts that do not depend on a language model, the
network or an HTML library:

- URL intake: extracting, cleaning, de-duplicating, filtering and selecting
  URLs.
- The extractor's choice between the primary and the fallback text, line
  flattening and truncation.
- The shared source-analysis step.
- The run store and the brief and article store it is used through.
- The three job orchestrators, as the exact sequence of store updates they
  make.
- Request handling for articles and briefs.
- The export file path, joined the way POSIX `pathlib` joins a directory and a
  file name.

The foreign calls are given as functions in `Services.Oracles`: the page fetch
with what the HTML libraries make of it, each language-model step (which
returns its text or raises), the `uuid4` hex of the export and `Path.resolve`.
Timestamps are ticks of a store clock that advances by one on every write.

Modules, one per source file (plus `Wrappers`, `Text`, `Services` and `Jobs`,
which hold what several of them share):

| module | source |
|---|---|
| `SourceCollector` | `app/services/source_collector.py` |
| `UrlValidator` | `app/services/url_validator.py` |
| `Extractor` | `app/services/extractor.py` |
| `Summarizer` | `app/services/summarizer.py` (only the short-text rule) |
| `Exporter` | `app/services/exporter_google.py` |
| `SourceAnalysis` | `app/workflows/source_analysis.py` |
| `Schemas` | `app/models/schemas.py` |
| `Store` | `app/models/store.py` |
| `TaskStore` | the brief/article part of the store, which `app/models/store.py` does not show |
| `RunPipeline` | `app/workflows/run_pipeline.py` |
| `BriefPipeline` | `app/workflows/brief_pipeline.py` |
| `ArticlePipeline` | `app/workflows/article_pipeline.py` |
| `RoutesArticles` | `app/api/routes_articles.py` |
| `RoutesBriefs` | `app/api/routes_briefs.py` |

### How the jobs are modelled

Each orchestrator is a `method` that makes the same store updates, in the same
order, as the Python coroutine. Its contract ties the final store to a
specification function:

- A function such as `BriefWrites` gives the list of updates (patches) the job
  makes for a given source-analysis outcome, user branding and set of oracle
  answers.
- `TaskStore.Tracked` applies that list to the store, one clock tick per
  update.

Lemmas then prove about that list:

- Its progress values and the order they come in.
- That the record ends either `completed` or `failed`.
- Which artifacts it ends with.
- That no other record changes.

The store's `update_brief` and `update_article` are given the same merge
semantics as `InMemoryRunStore.update`:

- Only the supplied fields are replaced.
- `updated_at` is refreshed.

## Model

| member | source | states |
|---|---|---|
| `SourceCollector.FindAll` | app/services/source_collector.py:5 | every match starts with `http://` or `https://` and has a non-empty body free of whitespace, `)`, `]`, `>`, `"` and `'` |
| `SourceCollector.RunIsUrlMatch` | app/services/source_collector.py:5 | the run of non-stop characters after a scheme is a full match of the URL pattern |
| `SourceCollector.ExtractUrlsFromText` | app/services/source_collector.py:8-11 | empty text gives no URL; every URL found has the `URL_RE` shape |
| `SourceCollector.FindAllFrom` | app/services/source_collector.py:5 | a maximal URL match followed by a stop character is found, then matching continues after it |
| `SourceCollector.FindAllSkipsSpace` | app/services/source_collector.py:5 | a space is never part of a match |
| `SourceCollector.ExtractSpaceSeparated` | app/services/source_collector.py:8-11 | space-separated URLs are found back exactly, in order |
| `SourceCollector.CleanUrl` | app/services/source_collector.py:29 | the cleaned URL does not begin with whitespace and does not end in `/` or a space (other trailing whitespace, such as a tab before a `/`, can remain) |
| `SourceCollector.CleanAll` | app/services/source_collector.py:28-29 | one cleaned URL per collected URL |
| `SourceCollector.CleanAllIndex` | app/services/source_collector.py:28-29 | position k holds the cleaning of input k |
| `SourceCollector.CleanAllAppend` | app/services/source_collector.py:22-24 | cleaning distributes over the concatenation of seed, citation and overview URLs |
| `SourceCollector.Dedup` | app/services/source_collector.py:26-32 | the non-empty URLs of the list, each at its first occurrence, in input order: what the `seen`/`unique` loop leaves in `unique` |
| `SourceCollector.DedupShape` | app/services/source_collector.py:26-32 | the kept URLs are distinct, and exactly the non-empty input URLs |
| `SourceCollector.DedupSnoc` | app/services/source_collector.py:30-32 | one loop step: a URL is appended iff it is non-empty and not yet seen |
| `SourceCollector.DedupPrefix` | app/services/source_collector.py:28-32 | de-duplicating a longer list extends the result for its prefix |
| `SourceCollector.DedupOrder` | app/services/source_collector.py:28-32 | first-seen order: an earlier output URL first occurs before any occurrence of a later one |
| `SourceCollector.CleanedDedupShape` | app/services/source_collector.py:28-32 | the output is duplicate-free and cleaned, and holds every input URL that does not clean to nothing |
| `SourceCollector.CollectedUrls` | app/services/source_collector.py:21-33 | the seed URLs, then the URLs found in the citation text, then those in the overview text, each cleaned, with empty and repeated ones dropped; the query is not used |
| `SourceCollector.CollectedUrlsShape` | app/services/source_collector.py:21-33 | same for `collect_seed_urls`: no duplicates, no empty or uncleaned URL, no seed URL missing |
| `SourceCollector.CollectedUrlsOrder` | app/services/source_collector.py:22-24 | seed URLs come first, then citation-text URLs, then overview-text URLs |
| `SourceCollector.CleanDedupStep` | app/services/source_collector.py:28-33 | one more URL is cleaned and kept unless empty or already kept |
| `SourceCollector.CleanAndDedup` | app/services/source_collector.py:26-33 | the loop, with `seen` mirroring `unique`, computes the clean-then-dedup specification |
| `SourceCollector.CollectSeedUrls` | app/services/source_collector.py:14-33 | the result is the specification's, which does not depend on `query` |
| `UrlValidator.UrlParse` | app/services/url_validator.py:30 | `urlparse(url)` reduced to its scheme (lower-cased), netloc and path, with `;params` cut from the path's last segment for the schemes in `uses_params` |
| `UrlValidator.IsAcceptableUrl` | app/services/url_validator.py:29-42 | false when the scheme is not `http` or `https`, when the lower-cased netloc is a blocked domain, or when the lower-cased path contains a blocked hint; true otherwise, with the checks in that order |
| `UrlValidator.LastIndexWhere` | app/services/url_validator.py:30 | the last position satisfying a test, or the length when none does (used for `;params`) |
| `UrlValidator.StripParams` | app/services/url_validator.py:30 | the path without `;params` is a prefix of it, and is the whole path when it has no `;` |
| `UrlValidator.SplitSchemeBuilt` | app/services/url_validator.py:30-31 | a letter-led scheme before `:` is split off and lower-cased |
| `UrlValidator.SplitNetlocBuilt` | app/services/url_validator.py:30-34 | the host after `//` runs up to the first `/`, `?` or `#` |
| `UrlValidator.BeforeQueryBuilt` | app/services/url_validator.py:30-38 | the path stops before the query or fragment |
| `UrlValidator.ParseBuiltUrl` | app/services/url_validator.py:30 | `scheme://host/path?…` parses to the lower-cased scheme, the host and the path |
| `UrlValidator.AcceptableBuiltUrl` | app/services/url_validator.py:29-42 | such a URL is accepted iff its scheme is http(s), its lower-cased host is not a blocked domain and its lower-cased path holds no hint |
| `UrlValidator.AcceptedIsHttp` | app/services/url_validator.py:31-32 | every accepted URL begins `http:` or `https:`, in any case |
| `UrlValidator.ContainsTooLong` | app/services/url_validator.py:39 | a string never contains a longer one |
| `UrlValidator.RootHasNoHint` | app/services/url_validator.py:19-39 | the root path `/` matches no blocked hint |
| `UrlValidator.SubdomainIsKept` | app/services/url_validator.py:5-36 | `https://en.wikipedia.org/` is accepted: only exact domains are blocked |
| `UrlValidator.PortIsKept` | app/services/url_validator.py:34-36 | `https://reddit.com:443/` is accepted: the netloc with its port is compared |
| `UrlValidator.HostCaseIsFolded` | app/services/url_validator.py:31-36 | `HTTPS://WWW.Reddit.com/` is rejected |
| `UrlValidator.HintIsSubstring` | app/services/url_validator.py:19-40 | `https://example.com/tags` is rejected by the `/tag` hint |
| `UrlValidator.Filter` | app/services/url_validator.py:46 | `[u for u in urls if keep(u)]`: the URLs `keep` accepts, in input order |
| `UrlValidator.FilterMembership` | app/services/url_validator.py:46 | the comprehension keeps exactly the input URLs that pass |
| `UrlValidator.FilterAppend` | app/services/url_validator.py:46 | the comprehension preserves order |
| `UrlValidator.FilterOfKept` | app/services/url_validator.py:46 | nothing is dropped when every URL passes |
| `UrlValidator.FilterNoneKept` | app/services/url_validator.py:46 | nothing is kept when no URL passes |
| `UrlValidator.FilterLength` | app/services/url_validator.py:46 | filtering never lengthens the list |
| `UrlValidator.PySliceTo` | app/services/url_validator.py:47 | Python's `s[:n]`: a prefix of length `min(n, len)`; for negative `n`, `len + n` elements or none |
| `UrlValidator.SelectTopUrls` | app/services/url_validator.py:45-47 | a prefix of the filtered list, of length `min(max_urls, …)` (or the negative-slice length) |
| `UrlValidator.SelectedAreAcceptable` | app/services/url_validator.py:45-47 | every selected URL is an acceptable input URL |
| `UrlValidator.SelectIdempotent` | app/services/url_validator.py:45-47 | selecting twice with a non-negative `max_urls` is selecting once |
| `Extractor.TitleOrUntitled` | app/services/extractor.py:20-26 | a missing or empty title reads `"Untitled"`; a present one is kept; the result is never empty |
| `Extractor.PrimaryExtraction` | app/services/extractor.py:17-21 | the primary title is never empty; missing text reads as `""` |
| `Extractor.NonBlankStripped` | app/services/extractor.py:31 | the kept lines are non-empty and stripped, and no more than the input lines |
| `Extractor.NonBlankStrippedNoBreak` | app/services/extractor.py:31 | lines split at line breaks keep no line break after stripping |
| `Extractor.FlattenText` | app/services/extractor.py:31 | the stripped non-blank lines of the text, joined by a line break |
| `Extractor.FlattenTextLines` | app/services/extractor.py:31 | the fallback text splits back into its lines: each is non-empty, stripped and free of line breaks |
| `Extractor.NonBlankStrippedOfClean` | app/services/extractor.py:31 | already clean lines are kept unchanged |
| `Extractor.FlattenTextIdempotent` | app/services/extractor.py:31 | flattening flattened text changes nothing |
| `Extractor.FallbackExtraction` | app/services/extractor.py:24-32 | the fallback title is never empty |
| `Extractor.ChooseExtraction` | app/services/extractor.py:37-40 | the fallback is used exactly when the primary text has fewer than 150 words |
| `Extractor.Truncate` | app/services/extractor.py:42 | `text[:120000]`: a prefix of at most 120000 characters, the whole text when shorter |
| `Extractor.ExtractUrlContent` | app/services/extractor.py:13-42 | succeeds iff the fetch gives a 2xx response; then the URL is the input, the title is the chosen one and the text a prefix of the chosen text of at most 120000 characters |
| `Summarizer.SummarizeArticle` | app/services/summarizer.py:14-23 | under 80 words gives the fixed "too short" summary without a model call; otherwise the model's text; the URL is kept |
| `Summarizer.SummarizeAll` | app/workflows/source_analysis.py:45 | one summary per article, in order, for the same URL; otherwise the error of the first article whose summary raises, every article before it having been summarised (`FailsFirstAt`) |
| `Summarizer.ShortArticlesAlwaysSummarised` | app/services/summarizer.py:15-16 | short articles are summarised even when every model call fails |
| `Exporter.Slug` | app/services/exporter_google.py:8 | the lower-cased words joined by `-`, cut to at most 60 characters |
| `Exporter.SlugIsClean` | app/services/exporter_google.py:8 | a slug holds no whitespace and no upper-case letter |
| `Exporter.SlugIdempotent` | app/services/exporter_google.py:8 | slugging a slug changes nothing |
| `Exporter.WordsOfJoin` | app/services/exporter_google.py:8 | splitting space-joined words gives the words back |
| `Exporter.SlugOfShortQuery` | app/services/exporter_google.py:8 | a short query of lower-case words gives those words joined by `-` |
| `Exporter.ExportPath` | app/services/exporter_google.py:9-11 | the path starts with `exports/` exactly when the slug does not begin with `/`, and is absolute otherwise; it ends with `-`, six hexadecimal digits and `.md` |
| `Exporter.KeepPartsOfParts` | app/services/exporter_google.py:11 | `pathlib` keeps every piece that is already a part |
| `Exporter.KeepPartsSnoc` | app/services/exporter_google.py:11 | one more piece is kept at the end exactly when it is a part (not empty, not `.`) |
| `Exporter.PathParts` | app/services/exporter_google.py:11 | the parts of a path string are non-empty, not `.`, and hold no `/` |
| `Exporter.PosixRoot` | app/services/exporter_google.py:11 | a path string has a root exactly when it begins with `/`, and the root is made of `/` |
| `Exporter.BareRootParts` | app/services/exporter_google.py:11 | `/` and `//` read back as that root with no parts |
| `Exporter.RootedPathParts` | app/services/exporter_google.py:11 | a rooted path string made of a root and parts reads back as that root and those parts |
| `Exporter.JoinPathParts` | app/services/exporter_google.py:11 | `Path(str(Path(dir) / name))` is `Path(dir) / name`: the directory's part then the name's parts, or the name's root and parts alone when the name is absolute |
| `Exporter.JoinPathPlain` | app/services/exporter_google.py:11 | a name without `/` that is a part is joined as `dir/name` |
| `Exporter.JoinPathEndsWith` | app/services/exporter_google.py:11 | the joined path ends with whatever the name's last part ends with |
| `Exporter.JoinPathUnderDir` | app/services/exporter_google.py:11 | the joined path lies under the directory exactly when the name has no root |
| `Exporter.FileName` | app/services/exporter_google.py:11 | the file name is absolute exactly when the slug is, and ends with `-<hex[:6]>.md` |
| `Exporter.FileNameParts` | app/services/exporter_google.py:11 | the file name always has a last part, and it ends with `-<hex[:6]>.md` |
| `Exporter.ExportPathParts` | app/services/exporter_google.py:9-11 | the path's parts are `exports` and the file name's parts, or the file name's parts alone under a root when the slug begins with `/` |
| `Exporter.ExportPathOfAbsoluteSlug` | app/services/exporter_google.py:9-11 | a slug `/<a>/<b>` is written as `/<a>/<b>-<hex[:6]>.md`, outside `exports` |
| `Exporter.ExportPathOfAbsoluteQuery` | app/services/exporter_google.py:8-11 | the query `/tmp/notes` is exported to `/tmp/notes-<hex[:6]>.md` |
| `Exporter.ExportPathDirectlyInExports` | app/services/exporter_google.py:9-11 | a query without `/` gives exactly `exports/<slug>-<hex[:6]>.md`, with no `/` after the directory name |
| `Exporter.ExportToLocalDoc` | app/services/exporter_google.py:7-13 | the file at that path holds the markdown; the link is the resolved path |
| `SourceAnalysis.ExtractAll` | app/workflows/source_analysis.py:31-34 | one outcome per selected URL |
| `SourceAnalysis.SuccessesOfExtractAll` | app/workflows/source_analysis.py:36-40 | failed extractions are dropped and the others keep the URL order |
| `SourceAnalysis.AnalyzeSelected` | app/workflows/source_analysis.py:28-47 | `ValueError` "No qualifying URLs" for an empty selection; otherwise the successful extractions, `ValueError` "Could not extract" when there are none; otherwise the first summary or analysis error, or the selection, extractions, summaries and SEO analysis |
| `SourceAnalysis.AnalyzeSources` | app/workflows/source_analysis.py:15-47 | the analysis of the top URLs that collecting and selecting give |
| `SourceAnalysis.BuildSourceAnalysis` | app/workflows/source_analysis.py:15-47 | collecting, selecting and analysing compute `AnalyzeSources`, the selection's analysis |
| `SourceAnalysis.AnalyzeTopUrls` | app/workflows/source_analysis.py:28-47 | after the selection: the two `ValueError`s, then summaries and SEO analysis, as `AnalyzeSelected` states |
| `SourceAnalysis.KeepSuccesses` | app/workflows/source_analysis.py:36-40 | the loop keeps exactly the outcomes that did not raise, in order |
| `SourceAnalysis.NoUrlsRaisesBeforeFetching` | app/workflows/source_analysis.py:27-29 | with no qualifying URL, `ValueError("No qualifying URLs …")` whatever the fetches would do |
| `SourceAnalysis.AllFailedRaises` | app/workflows/source_analysis.py:42-43 | when every extraction fails, `ValueError("Could not extract …")` |
| `SourceAnalysis.SuccessSelection` | app/workflows/source_analysis.py:27-47 | on success, the top URLs are the selection (at most `max_urls`), and between one and that many extractions |
| `SourceAnalysis.SuccessContents` | app/workflows/source_analysis.py:36-47 | on success, the extractions are non-empty and are the fetchable selected URLs in order, with one summary each for the same URL |
| `Schemas.NewRunCreateRequest` | app/models/schemas.py:10-14 | a run request exists iff the query has at least 3 characters; the fields are kept |
| `Store.ApplyRun` | app/models/store.py:40-41 | the record with status, error and artifacts replaced where the update supplies them, every other field kept |
| `Store.Merge` | app/models/store.py:40-43 | only the supplied fields change; `updated_at` is the new time; id, query and `created_at` are kept |
| `Store.MergeThen` | app/models/store.py:37-45 | two updates are one update with the later values winning |
| `Store.InsertNewestFirst` | app/models/store.py:35 | inserting into a newest-first list keeps it newest-first, with the same elements plus the new one |
| `Store.RunStore.constructor` | app/models/store.py:12-14 | the store starts empty |
| `Store.RunStore.Create` | app/models/store.py:16-27 | a `queued` record with the query, no error, default artifacts and `created_at == updated_at`, under the fresh id; nothing else changes |
| `Store.RunStore.Get` | app/models/store.py:29-31 | the stored record for a present id, `None` for an absent one |
| `Store.RunStore.List` | app/models/store.py:33-35 | exactly the stored records, newest `created_at` first |
| `Store.RunStore.Update` | app/models/store.py:37-45 | the record is merged with the supplied fields at a later time; no other record changes; the new record is returned |
| `TaskStore.Apply` | app/models/store.py:40-41 | a brief or article record with status, stage, progress, error and artifacts replaced where the update supplies them, every other field kept |
| `TaskStore.MergeTask` | app/models/store.py:37-45 | brief and article updates merge like run updates: only supplied fields change, `updated_at` is refreshed |
| `TaskStore.Tracked` | app/models/store.py:37-45 | a sequence of updates to one record leaves the set of ids unchanged |
| `TaskStore.TrackedSnoc` | app/models/store.py:37-45 | one more update is one more merge at the next tick |
| `TaskStore.TrackedEffect` | app/models/store.py:37-45 | the updated record is all the patches merged in order, stamped with the last tick; other records are unchanged |
| `TaskStore.Owned` | app/api/routes_briefs.py:40-42 | `get_brief(user_id, id)`: the record iff it exists and belongs to the user |
| `TaskStore.Lookup` | app/workflows/brief_pipeline.py:22 | `get_*_by_id`: the record iff it exists |
| `TaskStore.TaskStore.constructor` | app/models/store.py:12-14 | the store starts empty |
| `TaskStore.TaskStore.CreateBrief` | app/api/routes_briefs.py:21 | a `queued` brief with empty artifacts under a fresh id; nothing else changes |
| `TaskStore.TaskStore.CreateArticle` | app/api/routes_articles.py:43 | (also lines 62 and 76) a `queued` article with the given initial artifacts under a fresh id; nothing else changes |
| `TaskStore.TaskStore.GetBrief` | app/api/routes_articles.py:32 | the brief iff it exists and belongs to the user |
| `TaskStore.TaskStore.GetBriefById` | app/workflows/brief_pipeline.py:22 | the brief iff it exists |
| `TaskStore.TaskStore.GetArticle` | app/api/routes_articles.py:93 | the article iff it exists and belongs to the user |
| `TaskStore.TaskStore.GetArticleById` | app/workflows/article_pipeline.py:17 | the article iff it exists |
| `TaskStore.TaskStore.GetUserSettings` | app/workflows/brief_pipeline.py:23 | the user's settings iff stored |
| `TaskStore.TaskStore.UpdateBrief` | app/workflows/brief_pipeline.py:19 | the brief is merged with the patch at the next tick; returns the record iff it existed |
| `TaskStore.TaskStore.UpdateArticle` | app/workflows/article_pipeline.py:15 | the article is merged with the patch at the next tick; returns the record iff it existed |
| `Jobs.Finish` | app/workflows/brief_pipeline.py:62-76 | the last update: `completed`/`completed`/100 with the artifacts, or `failed`/`failed`/100 with the error text |
| `Jobs.JobWrites` | app/workflows/brief_pipeline.py:19-76 | the start update, the body's stage updates, then the last update |
| `Jobs.ProgressValues` | app/workflows/brief_pipeline.py:19-66 | one progress value per update that sets one |
| `Jobs.ApplyAllCons` | app/models/store.py:40-43 | applying updates one after the other |
| `Jobs.StagesKeep` | app/workflows/brief_pipeline.py:35 | stage updates change neither status, error, artifacts nor identity |
| `Jobs.FinalRecord` | app/workflows/brief_pipeline.py:19-76 | a job's updates leave its record `completed` with the artifacts and no error, or `failed` with the error text |
| `Jobs.StoredRecord` | app/workflows/brief_pipeline.py:19-76 | the same for the stored record, and every other record is unchanged |
| `Jobs.OneStageProgress` | app/workflows/article_pipeline.py:15-43 | a job with at most one stage update reports the start's progress, that stage's progress if it was made, then 100 |
| `Jobs.JobProgress` | app/workflows/article_pipeline.py:57-115 | starting at `p <= 100` with non-decreasing stages in between, progress never decreases and ends at 100 |
| `Jobs.OwnerSettings` | app/workflows/brief_pipeline.py:22-23 | the record owner's settings, `None` when the record or the settings are missing |
| `Jobs.BriefBranding` | app/workflows/brief_pipeline.py:22-26 | brand name, brand URL and brief prompt override from the owner's settings, `""` each when the record or the settings are missing; the quick draft reads the same fields |
| `Jobs.WriteBrief` | app/workflows/brief_pipeline.py:19 | one `update_brief` extends the tracked list of updates |
| `Jobs.WriteArticle` | app/workflows/article_pipeline.py:15 | one `update_article` extends the tracked list of updates |
| `RunPipeline.RunStart` | app/workflows/run_pipeline.py:24 | the first update: `status="running"` and nothing else |
| `RunPipeline.RunFinish` | app/workflows/run_pipeline.py:63-65 | the last update: `completed` with the artifacts, or `failed` with `str(exc)` as the error |
| `RunPipeline.RunOutcome` | app/workflows/run_pipeline.py:26-61 | an analysis error fails the run; on success the artifacts are the analysis's sources, extractions, summaries and analysis, the written article and the resolved export path |
| `RunPipeline.RunStep` | app/workflows/run_pipeline.py:51-61 | writing, exporting and assembling the artifacts compute `RunOutcome` |
| `RunPipeline.RunBody` | app/workflows/run_pipeline.py:26-61 | the `try` block computes `RunOutcome` of the source analysis |
| `RunPipeline.FinishRun` | app/workflows/run_pipeline.py:26-65 | after the `running` update, one more update: `completed` with the artifacts or `failed` with the error text |
| `RunPipeline.ProcessRun` | app/workflows/run_pipeline.py:17-65 | two updates to the run, `running` then the outcome; no other run changes |
| `RunPipeline.RunFinalRecord` | app/workflows/run_pipeline.py:24-65 | the run ends `completed` with the artifacts, or `failed` with the error text and its artifacts untouched; never left `running` |
| `RunPipeline.RunWithoutUrlsFails` | app/workflows/run_pipeline.py:33-65 | no qualifying URL fails the run with the "No qualifying URLs" message: there is no fallback |
| `RunPipeline.RunWithoutExtractionsFails` | app/workflows/run_pipeline.py:38-65 | all extractions failing fails the run with the "Could not extract" message |
| `BriefPipeline.QueryOnlyBrief` | app/workflows/brief_pipeline.py:44-53 | the `except ValueError` branch: one 78 update, then the query-only brief with no sources and the fixed analysis text, or the builder's error |
| `BriefPipeline.BriefAttempt` | app/workflows/brief_pipeline.py:28-61 | the outer `try`: a `ValueError` from the analysis or the builder leads to the query-only brief, any other error ends the job, else the artifacts from the analysis and the brief |
| `BriefPipeline.BriefWrites` | app/workflows/brief_pipeline.py:19-76 | every `update_brief` call of `process_brief`: the start update, the body's updates, then `completed` or `failed` |
| `BriefPipeline.QueryOnlyBriefStep` | app/workflows/brief_pipeline.py:44-53 | the fallback writes 78 and builds the query-only brief with no sources and the fixed analysis |
| `BriefPipeline.BriefStep` | app/workflows/brief_pipeline.py:28-61 | the inner `try` computes its specification |
| `BriefPipeline.BriefJobRest` | app/workflows/brief_pipeline.py:28-76 | after the `running` update: the analysis, the `try` body and one final update, as `BriefWrites` lists them |
| `BriefPipeline.ProcessBrief` | app/workflows/brief_pipeline.py:12-76 | the brief store after the job is the job's update sequence applied to the brief; articles and settings are unchanged |
| `BriefPipeline.BriefBodyStages` | app/workflows/brief_pipeline.py:35-47 | between the first and the last update there are at most two `building_brief`/78 updates |
| `BriefPipeline.BriefProgress` | app/workflows/brief_pipeline.py:19-76 | progress starts at 10, ends at 100, never decreases and is one of 10, 78, 100 |
| `BriefPipeline.BriefJobProgress` | app/workflows/brief_pipeline.py:19-76 | a job starting at 10 whose stage updates all write 78 writes 10, then 78s, then 100 |
| `BriefPipeline.BriefFinalRecord` | app/workflows/brief_pipeline.py:62-76 | the brief ends `completed` with its artifacts or `failed` with the error text; no other brief changes |
| `BriefPipeline.BriefFromSources` | app/workflows/brief_pipeline.py:29-61 | with an analysis and a built brief, all five artifact fields come from them |
| `BriefPipeline.BriefFallback` | app/workflows/brief_pipeline.py:44-53 | a `ValueError` from the analysis or the builder gives empty sources, extractions and summaries, the fixed analysis and the query-only brief |
| `BriefPipeline.BriefOtherErrorFails` | app/workflows/brief_pipeline.py:69-76 | any other exception fails the brief with it |
| `ArticlePipeline.ExportName` | app/workflows/article_pipeline.py:28 | `query or fallback`: the export name is the query unless it is empty (`"content-article"` here, `"quick-draft"` at line 100) |
| `ArticlePipeline.WriterBranding` | app/workflows/article_pipeline.py:17-26 | brand fields and writer prompt override from the owner's settings, `""` each when missing |
| `ArticlePipeline.FromBriefAttempt` | app/workflows/article_pipeline.py:20-34 | the writer's error, or a 90 update and the artifacts with the brief id, the brief, the article and the export link |
| `ArticlePipeline.FromBriefWrites` | app/workflows/article_pipeline.py:14-43 | every `update_article` call of `process_article_from_brief`: 15, the body's updates, then `completed` or `failed` |
| `ArticlePipeline.FromBriefRest` | app/workflows/article_pipeline.py:20-43 | after the `running` update: the article, the export at 90 and one final update, as `FromBriefWrites` lists them |
| `ArticlePipeline.ProcessArticleFromBrief` | app/workflows/article_pipeline.py:14-43 | the article store after the job is the from-brief update sequence applied to the article |
| `ArticlePipeline.ProcessArticleFromCustomBrief` | app/workflows/article_pipeline.py:46-47 | the from-brief job with `source_brief_id = ""` |
| `ArticlePipeline.FromBriefProgress` | app/workflows/article_pipeline.py:15-43 | progress is 15, 90, 100 when the article is written, else 15, 100 |
| `ArticlePipeline.FromBriefFinalRecord` | app/workflows/article_pipeline.py:35-43 | the article ends `completed` or `failed`; no other article changes |
| `ArticlePipeline.FromBriefOutcome` | app/workflows/article_pipeline.py:20-43 | the artifacts carry the given brief id and markdown, the article and the export link; any writer exception, `ValueError` included, fails the job |
| `ArticlePipeline.InternalBrief` | app/workflows/article_pipeline.py:66-89 | the inner `try`: after a successful analysis, a 72 update and then the builder's brief or non-`ValueError` error, or a second 72 update and the query-only brief when the builder raises `ValueError`; after an analysis `ValueError`, one 72 update and the query-only brief; after another analysis error, no update and that error |
| `ArticlePipeline.QuickDraftAttempt` | app/workflows/article_pipeline.py:66-106 | the outer `try`: the internal brief's updates, then, once there is a brief, writing and exporting |
| `ArticlePipeline.QuickDraftWriting` | app/workflows/article_pipeline.py:90-106 | an 84 update, then the writer's error, or a 95 update and the artifacts with no source brief id, the brief, the article and the export link |
| `ArticlePipeline.QuickDraftWrites` | app/workflows/article_pipeline.py:57-115 | every `update_article` call of `process_quick_draft`: 10, the body's updates, then `completed` or `failed` |
| `ArticlePipeline.InternalBriefStep` | app/workflows/article_pipeline.py:66-89 | the inner `try` and its `ValueError` fallback compute their specification |
| `ArticlePipeline.InternalFallbackStep` | app/workflows/article_pipeline.py:82-89 | the `except ValueError` branch: one update at 72, then the query-only brief |
| `ArticlePipeline.QuickDraftStep` | app/workflows/article_pipeline.py:66-106 | the outer `try` computes its specification |
| `ArticlePipeline.QuickDraftAttemptParts` | app/workflows/article_pipeline.py:66-106 | the outer `try` makes the internal brief's updates and stops with its error, or goes on with writing and exporting from the brief |
| `ArticlePipeline.QuickDraftWritingStep` | app/workflows/article_pipeline.py:90-106 | writing at 84, exporting at 95, and the artifacts with no source brief, as `QuickDraftWriting` states |
| `ArticlePipeline.QuickDraftRest` | app/workflows/article_pipeline.py:66-115 | after the `running` update: the analysis, the outer `try` and one final update, as `QuickDraftWrites` lists them |
| `ArticlePipeline.ProcessQuickDraft` | app/workflows/article_pipeline.py:50-115 | the article store after the job is the quick-draft update sequence applied to the article |
| `ArticlePipeline.QuickDraftBodyStages` | app/workflows/article_pipeline.py:73-99 | the body's updates are stage updates at 72, 84 or 95, in non-decreasing order |
| `ArticlePipeline.InternalBriefStages` | app/workflows/article_pipeline.py:66-89 | the inner `try` writes only the 72 stage, at most twice |
| `ArticlePipeline.StagesInOrder` | app/workflows/article_pipeline.py:73-99 | 72 stages followed by 84 and possibly 95 are stage updates in non-decreasing order |
| `ArticlePipeline.QuickDraftProgress` | app/workflows/article_pipeline.py:57-115 | progress starts at 10, ends at 100, never decreases and is one of 10, 72, 84, 95, 100 |
| `ArticlePipeline.QuickDraftJobProgress` | app/workflows/article_pipeline.py:57-115 | a job starting at 10 whose stage updates write 72, 84 or 95 in order writes values from 10, 72, 84, 95, 100, in order, ending at 100 |
| `ArticlePipeline.QuickDraftFinalRecord` | app/workflows/article_pipeline.py:107-115 | the draft ends `completed` or `failed`; no other article changes |
| `ArticlePipeline.QuickDraftCompleted` | app/workflows/article_pipeline.py:101-106 | a completed draft has no source brief id, the internal brief as its markdown, the written article and the export link |
| `ArticlePipeline.QuickDraftFallbackCompletes` | app/workflows/article_pipeline.py:82-89 | after a `ValueError` the draft still completes from the query-only brief |
| `RoutesArticles.PlanArticle` | app/api/routes_articles.py:29-88 | the handler's checks, in order, with their status codes and messages, and the initial artifacts and job of each mode |
| `RoutesArticles.PlanAcceptsExactly` | app/api/routes_articles.py:29-88 | an article is created iff the mode is known and its inputs are present and non-blank |
| `RoutesArticles.PlanRefusalCodes` | app/api/routes_articles.py:30-88 | every refusal is 400 except the 404 for a missing brief |
| `RoutesArticles.PlanRefusals` | app/api/routes_articles.py:30-88 | a missing brief id, a brief not owned, a blank custom brief and an unknown mode each draw their own refusal; the custom brief is checked before the query |
| `RoutesArticles.PlanFromBrief` | app/api/routes_articles.py:35-51 | initial artifacts are the brief's id and stripped markdown; the job runs on the brief's own query |
| `RoutesArticles.CreateArticle` | app/api/routes_articles.py:24-88 | a refusal stores and schedules nothing; otherwise the article is created, then its job is scheduled |
| `RoutesArticles.GetArticle` | app/api/routes_articles.py:91-96 | the user's own article, else 404 "Article not found" |
| `RoutesBriefs.CreateBrief` | app/api/routes_briefs.py:20-35 | the brief is stored, then a job naming the stored brief is scheduled |
| `RoutesBriefs.GetBrief` | app/api/routes_briefs.py:38-43 | the user's own brief, else 404 "Brief not found" |
| `RoutesBriefs.EditedBrief` | app/api/routes_briefs.py:56-57 | only `brief_markdown` changes among the artifacts; the stage becomes `edited_draft`; status, progress, error and identity are kept |
| `RoutesBriefs.EditedBriefTwice` | app/api/routes_briefs.py:56-57 | editing twice is editing once with the later text |
| `RoutesBriefs.PatchBrief` | app/api/routes_briefs.py:46-60 | 404 with no write for a brief the user does not own; otherwise the edited brief is stored and returned |

## Left out

- Language-model steps (`summarizer`, `seo_analyzer`, `writer`, `brief_builder`, `llm_client`) are given functions in `Services.Oracles` that return text or raise. Their prompts are not modelled.
- The HTTP fetch and the `trafilatura` and BeautifulSoup internals are foreign code. The model takes a fetch as a `FetchResponse` and what the libraries report as a `Page`. This includes the `decompose` loop of `_extract_with_bs4` (app/services/extractor.py:28-29), whose output arrives as `Page.htmlText`.
- Concurrency is not modelled: `asyncio.create_task`, the `asyncio.gather` of the extractions, the store's `threading.Lock` and the scheduler. Extraction outcomes are processed in URL order, and a scheduled job is returned as a value beside the response.
- Authentication, sessions, the settings routes, `main.py` and `config.py` are not part of this model. `settings.max_urls` is the parameter `maxUrls`.
- The run routes and the listing endpoints `list_briefs` and `list_articles` are not part of this model, because their store methods are not shown.
- `uuid4` ids and `datetime.now` are not modelled. Ids are fresh parameters, and time is a store clock that ticks once per write.
- File-system effects of the export (`mkdir`, `write_text` and their failures) are not modelled beyond the written content and the resolved path.
- `Exporter.JoinPath` follows POSIX `pathlib` only; Windows path rules are not modelled. A `..` piece stays a part, as in `pathlib`; resolving it, and symbolic links, is left to `Path.resolve`, which is an oracle.
- Text handling covers characters below U+0080 only. Whitespace is what Python's `str.split` and `str.strip` treat as whitespace there: space, U+0009–U+000D and U+001C–U+001F. Lower-casing covers `A`–`Z`. `splitlines` breaks at U+000A–U+000D and U+001C–U+001E. Unicode whitespace, case folding and line boundaries above U+007F are not modelled.
- `UrlValidator.IsAcceptableUrl` follows `urlparse` for the scheme, the netloc, the path before `?`/`#` and the `;params`. It does not model:
  - the stripping of leading C0 characters;
  - the removal of tabs and newlines;
  - the `ValueError` on a malformed IPv6 netloc.
- Library exceptions are not modelled. An exception is a `ValueError` or another error carrying its `str(exc)` text.
- The brief and article store methods (`create_brief`, `create_article`, `get_brief`, `get_brief_by_id`, `get_article`, `get_article_by_id`, `get_user_settings`, `update_brief`, `update_article`) and the brief, article and settings records are not in `app/models/store.py` or `app/models/schemas.py`. `TaskStore` therefore assumes the following:
  - Updates merge exactly like `InMemoryRunStore.update`.
  - A new record is `queued`, at stage `"queued"`, with progress 0 and no error.
  - The record's query is the request's query.
  - An update of an absent id returns `None`.
  - A missing `ArticleArtifacts` field defaults to `None` or `""`.
- The article request's `mode` is not stored on the record.
- `TaskStore.TaskPatch` and `Store.RunPatch` carry only the fields the orchestrators and routes pass as keyword arguments.
- `Store.RunStore.Update` makes the `KeyError` of an absent run id a precondition, and so does `RunPipeline.ProcessRun`.
- `RoutesBriefs.PatchBrief` has no 500 branch (app/api/routes_briefs.py:58-59). The brief was found just before the update, so in this single-threaded model `update_brief` always returns it. The branch is only reachable through a concurrent delete, which is not modelled.
- `RunPipeline.ProcessRun` shares `SourceAnalysis.BuildSourceAnalysis` with the other jobs. Lines 27-50 of `process_run` repeat that function step by step, with the same selection, the same dropping of failed extractions and the same two `ValueError` messages.
- `Summarizer.SummarizeAll` models the list comprehension of app/workflows/source_analysis.py:45 as stopping at the first raised error. The model call itself is an oracle.
