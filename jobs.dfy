/** What the brief and article orchestrators have in common: a first
    `update_*` that marks the record running, then the stage updates of the
    `try` block, then exactly one final update, `completed` with the
    artifacts or `failed` with `str(exc)` from the `except Exception`
    handler. No exception leaves an orchestrator. */
module Jobs {
  import opened Wrappers
  import opened Schemas
  import opened TaskStore
  import opened Services

  /** The body of an orchestrator's outer `try`: the stage updates it makes
      and how it ends, with the artifacts or with the exception it raised. */
  datatype Attempt<A> = Attempt(writes: seq<TaskPatch<A>>, outcome: Result<A>)

  /** The update that closes a job. */
  function Finish<A>(outcome: Result<A>): (p: TaskPatch<A>)
    ensures p.progressPercent == Some(100)
    ensures outcome.Ok? ==> p == CompletedPatch(outcome.value)
    ensures outcome.Err? ==> p == FailedPatch(outcome.error)
  {
    match outcome
    case Ok(artifacts) => CompletedPatch(artifacts)
    case Err(e) => FailedPatch(e)
  }

  /** Every update a job makes, in order. */
  function JobWrites<A>(start: TaskPatch<A>, body: Attempt<A>): (ps: seq<TaskPatch<A>>)
    ensures |ps| == |body.writes| + 2
    ensures ps[0] == start && ps[|ps| - 1] == Finish(body.outcome)
    ensures ps[1..|ps| - 1] == body.writes
  {
    [start] + body.writes + [Finish(body.outcome)]
  }

  /** An update that moves only the stage and the progress. */
  predicate IsStagePatch<A>(p: TaskPatch<A>) {
    p.status.None? && p.stage.Some? && p.progressPercent.Some? && p.error.None? && p.artifacts.None?
  }

  /** The progress values the updates write, in order. */
  function ProgressValues<A>(ps: seq<TaskPatch<A>>): (vs: seq<int>)
    ensures |vs| <= |ps|
    ensures (forall k :: 0 <= k < |ps| ==> ps[k].progressPercent.Some?) ==>
      |vs| == |ps| && forall k :: 0 <= k < |ps| ==> vs[k] == ps[k].progressPercent.value
    decreases |ps|
  {
    if ps == [] then []
    else
      var p := ps[|ps| - 1];
      ProgressValues(ps[..|ps| - 1]) + (if p.progressPercent.Some? then [p.progressPercent.value] else [])
  }

  predicate NonDecreasing(vs: seq<int>) {
    forall i, j :: 0 <= i < j < |vs| ==> vs[i] <= vs[j]
  }

  lemma {:induction false} ApplyAllCons<A>(r: TaskRecord<A>, p: TaskPatch<A>, ps: seq<TaskPatch<A>>)
    ensures ApplyAll(r, [p] + ps) == ApplyAll(Apply(r, p), ps)
    decreases |ps|
  {
    if ps != [] {
      var init := ps[..|ps| - 1];
      ApplyAllCons(r, p, init);
      assert ([p] + ps)[..|ps|] == [p] + init;
    }
  }

  /** Stage updates leave status, error, artifacts and the fixed fields as
      they were. */
  lemma {:induction false} StagesKeep<A>(r: TaskRecord<A>, ps: seq<TaskPatch<A>>)
    requires forall k :: 0 <= k < |ps| ==> IsStagePatch(ps[k])
    ensures ApplyAll(r, ps).status == r.status && ApplyAll(r, ps).error == r.error
    ensures ApplyAll(r, ps).artifacts == r.artifacts
    ensures ApplyAll(r, ps).id == r.id && ApplyAll(r, ps).userId == r.userId && ApplyAll(r, ps).query == r.query
    ensures ApplyAll(r, ps).createdAt == r.createdAt && ApplyAll(r, ps).updatedAt == r.updatedAt
    decreases |ps|
  {
    if ps != [] {
      StagesKeep(r, ps[..|ps| - 1]);
    }
  }

  /** The record a job leaves behind, whatever it held before: `completed`
      with the artifacts and no error, or `failed` with the exception's text
      and the artifacts it had, progress 100 either way. */
  function Finished<A>(r: TaskRecord<A>, outcome: Result<A>): TaskRecord<A> {
    match outcome
    case Ok(artifacts) => r.(status := Completed, stage := "completed", progressPercent := 100, error := None, artifacts := artifacts)
    case Err(e) => r.(status := Failed, stage := "failed", progressPercent := 100, error := Some(e.Message()))
  }

  /** A job that starts by clearing the error and marking the record running,
      and whose body makes only stage updates, ends in `Finished`. */
  lemma FinalRecord<A>(r: TaskRecord<A>, start: TaskPatch<A>, body: Attempt<A>)
    requires start.status == Some(Running) && start.error == Some(None) && start.artifacts.None?
    requires forall k :: 0 <= k < |body.writes| ==> IsStagePatch(body.writes[k])
    ensures ApplyAll(r, JobWrites(start, body)) == Finished(r, body.outcome)
  {
    var ps := JobWrites(start, body);
    assert ps[..|ps| - 1] == [start] + body.writes;
    ApplyAllCons(r, start, body.writes);
    StagesKeep(Apply(r, start), body.writes);
  }

  /** The record under `id` after a job's updates on a map of records:
      `Finished`, stamped at the job's last update; no other record changes. */
  lemma StoredRecord<A>(m: map<Id, TaskRecord<A>>, id: Id, start: TaskPatch<A>, body: Attempt<A>, t0: Timestamp)
    requires start.status == Some(Running) && start.error == Some(None) && start.artifacts.None?
    requires forall k :: 0 <= k < |body.writes| ==> IsStagePatch(body.writes[k])
    ensures forall k :: k in m && k != id ==> Tracked(m, id, JobWrites(start, body), t0)[k] == m[k]
    ensures id in m ==>
      Tracked(m, id, JobWrites(start, body), t0)[id] == Finished(m[id], body.outcome).(updatedAt := t0 + |body.writes| + 2)
  {
    TrackedEffect(m, id, JobWrites(start, body), t0);
    if id in m {
      FinalRecord(m[id], start, body);
    }
  }

  /** A job whose body makes at most the one stage update `stage`. */
  lemma OneStageProgress<A>(start: TaskPatch<A>, stage: TaskPatch<A>, body: Attempt<A>)
    requires start.progressPercent.Some? && stage.progressPercent.Some?
    requires body.writes == [] || body.writes == [stage]
    ensures ProgressValues(JobWrites(start, body))
      == [start.progressPercent.value] + (if body.writes == [] then [] else [stage.progressPercent.value]) + [100]
  {
    var ps := JobWrites(start, body);
    assert forall k :: 0 <= k < |ps| ==> ps[k].progressPercent.Some?;
  }

  /** When the progress values of the body never decrease and lie between
      the starting progress and 100, the whole job's progress never
      decreases: it starts at the starting value and ends at 100. */
  lemma JobProgress<A>(start: TaskPatch<A>, body: Attempt<A>)
    requires start.progressPercent.Some? && start.progressPercent.value <= 100
    requires forall k :: 0 <= k < |body.writes| ==> body.writes[k].progressPercent.Some?
    requires forall k :: 0 <= k < |body.writes| ==>
      start.progressPercent.value <= body.writes[k].progressPercent.value <= 100
    requires forall i, j :: 0 <= i < j < |body.writes| ==>
      body.writes[i].progressPercent.value <= body.writes[j].progressPercent.value
    ensures var vs := ProgressValues(JobWrites(start, body));
      && |vs| == |body.writes| + 2
      && vs[0] == start.progressPercent.value && vs[|vs| - 1] == 100
      && NonDecreasing(vs)
  {
    var ps := JobWrites(start, body);
    var vs := ProgressValues(ps);
    assert forall k :: 1 <= k < |ps| - 1 ==> ps[k] == body.writes[k - 1];
    assert forall k :: 0 <= k < |ps| ==> ps[k].progressPercent.Some?;
    var first := start.progressPercent.value;
    assert vs[0] == first;
    assert vs[|vs| - 1] == 100;
    assert forall k :: 1 <= k < |vs| - 1 ==> vs[k] == body.writes[k - 1].progressPercent.value;
    forall i, j | 0 <= i < j < |vs|
      ensures vs[i] <= vs[j]
    {
      if i == 0 {
        if j < |vs| - 1 {
          assert first <= body.writes[j - 1].progressPercent.value;
        }
      } else if j < |vs| - 1 {
        assert body.writes[i - 1].progressPercent.value <= body.writes[j - 1].progressPercent.value;
      } else {
        assert body.writes[i - 1].progressPercent.value <= 100;
      }
    }
  }

  /** The settings of the owner of record `id`, if both exist. */
  function OwnerSettings<A>(m: map<Id, TaskRecord<A>>, settings: map<Id, UserSettings>, id: Id): (s: Option<UserSettings>)
    ensures s.Some? <==> id in m && m[id].userId in settings
    ensures s.Some? ==> s.value == settings[m[id].userId]
  {
    if id in m && m[id].userId in settings then Some(settings[m[id].userId]) else None
  }

  /** The brand fields and the brief prompt override of the settings of
      the owner of record `id`, `""` for each when the record or the
      settings are missing. */
  function BriefBranding<A>(m: map<Id, TaskRecord<A>>, settings: map<Id, UserSettings>, id: Id): (b: Branding)
    ensures OwnerSettings(m, settings, id).None? ==> b == Branding("", "", "")
    ensures OwnerSettings(m, settings, id).Some? ==>
      var s := OwnerSettings(m, settings, id).value;
      b == Branding(s.brandName, s.brandUrl, s.briefPromptOverride)
  {
    match OwnerSettings(m, settings, id)
    case None => Branding("", "", "")
    case Some(s) => Branding(s.brandName, s.brandUrl, s.briefPromptOverride)
  }

  /** `update_brief` inside a job: one more update on the brief, recorded. */
  method WriteBrief(store: TaskStore, id: Id, p: TaskPatch<BriefArtifacts>,
                    ghost m0: map<Id, BriefRecord>, ghost t0: Timestamp, ghost written: seq<TaskPatch<BriefArtifacts>>)
    returns (ghost written': seq<TaskPatch<BriefArtifacts>>)
    requires store.Valid()
    requires store.briefs == Tracked(m0, id, written, t0) && store.clock == t0 + |written|
    modifies store
    ensures store.Valid()
    ensures written' == written + [p]
    ensures store.briefs == Tracked(m0, id, written', t0) && store.clock == t0 + |written'|
    ensures store.articles == old(store.articles) && store.settings == old(store.settings)
  {
    var _ := store.UpdateBrief(id, p);
    TrackedSnoc(m0, id, written, p, t0);
    written' := written + [p];
  }

  /** `update_article` inside a job: one more update on the article, recorded. */
  method WriteArticle(store: TaskStore, id: Id, p: TaskPatch<ArticleArtifacts>,
                      ghost m0: map<Id, ArticleRecord>, ghost t0: Timestamp, ghost written: seq<TaskPatch<ArticleArtifacts>>)
    returns (ghost written': seq<TaskPatch<ArticleArtifacts>>)
    requires store.Valid()
    requires store.articles == Tracked(m0, id, written, t0) && store.clock == t0 + |written|
    modifies store
    ensures store.Valid()
    ensures written' == written + [p]
    ensures store.articles == Tracked(m0, id, written', t0) && store.clock == t0 + |written'|
    ensures store.briefs == old(store.briefs) && store.settings == old(store.settings)
  {
    var _ := store.UpdateArticle(id, p);
    TrackedSnoc(m0, id, written, p, t0);
    written' := written + [p];
  }
}
