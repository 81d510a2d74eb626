/** The brief, article and user-settings part of the application's store:
    the routes and orchestrators call `create_brief`, `create_article`,
    `get_brief`, `get_brief_by_id`, `get_article`, `get_article_by_id`,
    `get_user_settings`, `update_brief` and `update_article` on the same
    store object as the run methods of `app/models/store.py`, which does not
    define them. They are given here with the semantics of
    `InMemoryRunStore`: `update_*` merges the supplied fields and stamps
    `updated_at`, and the `get_*` lookups scoped to a user see only that
    user's records. `update_*` returns nothing for an unknown id, which is
    the case the brief PATCH route tests for. */
module TaskStore {
  import opened Wrappers
  import opened Schemas
  import Store

  /** The keyword arguments of one `update_brief` / `update_article` call,
      `None` for a field that is not supplied. */
  datatype TaskPatch<A> = TaskPatch(
    status: Option<Status>,
    stage: Option<string>,
    progressPercent: Option<int>,
    error: Option<Option<string>>,
    artifacts: Option<A>)

  /** The supplied fields overwritten, every other field kept. */
  function Apply<A>(r: TaskRecord<A>, p: TaskPatch<A>): TaskRecord<A> {
    r.(status := Store.Pick(p.status, r.status),
       stage := Store.Pick(p.stage, r.stage),
       progressPercent := Store.Pick(p.progressPercent, r.progressPercent),
       error := Store.Pick(p.error, r.error),
       artifacts := Store.Pick(p.artifacts, r.artifacts))
  }

  /** The record an update stores at time `now`. */
  function MergeTask<A>(r: TaskRecord<A>, p: TaskPatch<A>, now: Timestamp): (m: TaskRecord<A>)
    ensures m.id == r.id && m.userId == r.userId && m.query == r.query && m.createdAt == r.createdAt
    ensures m.updatedAt == now
    ensures p.status.None? ==> m.status == r.status
    ensures p.stage.None? ==> m.stage == r.stage
    ensures p.progressPercent.None? ==> m.progressPercent == r.progressPercent
    ensures p.error.None? ==> m.error == r.error
    ensures p.artifacts.None? ==> m.artifacts == r.artifacts
  {
    Apply(r, p).(updatedAt := now)
  }

  /** The patches `ps` applied in order, `updated_at` aside. */
  function ApplyAll<A>(r: TaskRecord<A>, ps: seq<TaskPatch<A>>): TaskRecord<A>
    decreases |ps|
  {
    if ps == [] then r else Apply(ApplyAll(r, ps[..|ps| - 1]), ps[|ps| - 1])
  }

  /** One `update_*` call on a map of records: the record under `id`, if
      any, merged and stamped; nothing else changes. */
  function Step<A>(m: map<Id, TaskRecord<A>>, id: Id, p: TaskPatch<A>, now: Timestamp): map<Id, TaskRecord<A>> {
    if id in m then m[id := MergeTask(m[id], p, now)] else m
  }

  /** The updates `ps` on `id`, the i-th of them stamped `t0 + i + 1`. */
  function Tracked<A>(m: map<Id, TaskRecord<A>>, id: Id, ps: seq<TaskPatch<A>>, t0: Timestamp): (out: map<Id, TaskRecord<A>>)
    ensures out.Keys == m.Keys
    decreases |ps|
  {
    if ps == [] then m
    else Step(Tracked(m, id, ps[..|ps| - 1], t0), id, ps[|ps| - 1], t0 + |ps|)
  }

  lemma TrackedSnoc<A>(m: map<Id, TaskRecord<A>>, id: Id, ps: seq<TaskPatch<A>>, p: TaskPatch<A>, t0: Timestamp)
    ensures Tracked(m, id, ps + [p], t0) == Step(Tracked(m, id, ps, t0), id, p, t0 + |ps| + 1)
  {
    assert (ps + [p])[..|ps|] == ps;
  }

  /** A sequence of updates changes only the record under `id`, and that
      record only as the patches say, stamped with the last update's time. */
  lemma {:induction false} TrackedEffect<A>(m: map<Id, TaskRecord<A>>, id: Id, ps: seq<TaskPatch<A>>, t0: Timestamp)
    ensures forall k :: k in m && k != id ==> Tracked(m, id, ps, t0)[k] == m[k]
    ensures id in m && ps != [] ==> Tracked(m, id, ps, t0)[id] == ApplyAll(m[id], ps).(updatedAt := t0 + |ps|)
    decreases |ps|
  {
    if ps != [] {
      var init := ps[..|ps| - 1];
      TrackedEffect(m, id, init, t0);
      if id in m && init != [] {
        var r := Tracked(m, id, init, t0)[id];
        assert Apply(r, ps[|ps| - 1]).(updatedAt := t0 + |ps|) == Apply(ApplyAll(m[id], init), ps[|ps| - 1]).(updatedAt := t0 + |ps|);
      }
    }
  }

  /** `status="running", stage=..., progress_percent=..., error=None` */
  function StartPatch<A>(stage: string, progress: int): TaskPatch<A> {
    TaskPatch(Some(Running), Some(stage), Some(progress), Some(None), None)
  }

  /** `stage=..., progress_percent=...` */
  function StagePatch<A>(stage: string, progress: int): TaskPatch<A> {
    TaskPatch(None, Some(stage), Some(progress), None, None)
  }

  /** `status="completed", stage="completed", progress_percent=100, artifacts=...` */
  function CompletedPatch<A>(artifacts: A): TaskPatch<A> {
    TaskPatch(Some(Completed), Some("completed"), Some(100), None, Some(artifacts))
  }

  /** `status="failed", stage="failed", progress_percent=100, error=str(exc)` */
  function FailedPatch<A>(e: Exception): TaskPatch<A> {
    TaskPatch(Some(Failed), Some("failed"), Some(100), Some(Some(e.Message())), None)
  }

  /** The record `id` if it exists and belongs to `userId`. */
  function Owned<A>(m: map<Id, TaskRecord<A>>, userId: Id, id: Id): (r: Option<TaskRecord<A>>)
    ensures r.Some? <==> id in m && m[id].userId == userId
    ensures r.Some? ==> r.value == m[id]
  {
    if id in m && m[id].userId == userId then Some(m[id]) else None
  }

  /** Lookup by id alone. */
  function Lookup<A>(m: map<Id, TaskRecord<A>>, id: Id): (r: Option<TaskRecord<A>>)
    ensures r.Some? <==> id in m
    ensures r.Some? ==> r.value == m[id]
  {
    if id in m then Some(m[id]) else None
  }

  /** A brief or article as created: queued, with no progress and no error. */
  function NewTask<A>(id: Id, userId: Id, query: string, artifacts: A, now: Timestamp): TaskRecord<A> {
    TaskRecord(id, userId, query, Queued, "queued", 0, None, artifacts, now, now)
  }

  class TaskStore {
    var briefs: map<Id, BriefRecord>
    var articles: map<Id, ArticleRecord>
    var settings: map<Id, UserSettings>
    var clock: Timestamp

    /** Every record is stored under its own id and was last written no
        later than now. */
    ghost predicate Valid()
      reads this
    {
      && (forall id :: id in briefs ==> briefs[id].id == id && briefs[id].createdAt <= briefs[id].updatedAt <= clock)
      && (forall id :: id in articles ==> articles[id].id == id && articles[id].createdAt <= articles[id].updatedAt <= clock)
    }

    constructor ()
      ensures Valid() && briefs == map[] && articles == map[] && settings == map[] && clock == 0
    {
      briefs := map[];
      articles := map[];
      settings := map[];
      clock := 0;
    }

    /** `create_brief(user_id, payload)`: a new queued brief under a fresh id. */
    method CreateBrief(userId: Id, query: string, id: Id) returns (brief: BriefRecord)
      requires Valid()
      requires id !in briefs
      modifies this
      ensures Valid()
      ensures clock == old(clock) + 1
      ensures brief == NewTask(id, userId, query, EmptyBriefArtifacts, clock)
      ensures briefs == old(briefs)[id := brief]
      ensures articles == old(articles) && settings == old(settings)
    {
      clock := clock + 1;
      brief := NewTask(id, userId, query, EmptyBriefArtifacts, clock);
      briefs := briefs[id := brief];
    }

    /** `create_article(user_id, payload, artifacts)`: a new queued article
        under a fresh id. */
    method CreateArticle(userId: Id, query: string, artifacts: ArticleArtifacts, id: Id) returns (article: ArticleRecord)
      requires Valid()
      requires id !in articles
      modifies this
      ensures Valid()
      ensures clock == old(clock) + 1
      ensures article == NewTask(id, userId, query, artifacts, clock)
      ensures articles == old(articles)[id := article]
      ensures briefs == old(briefs) && settings == old(settings)
    {
      clock := clock + 1;
      article := NewTask(id, userId, query, artifacts, clock);
      articles := articles[id := article];
    }

    /** `get_brief(user_id, brief_id)` */
    function GetBrief(userId: Id, briefId: Id): (r: Option<BriefRecord>)
      reads this
      ensures r.Some? <==> briefId in briefs && briefs[briefId].userId == userId
      ensures r.Some? ==> r.value == briefs[briefId]
    {
      Owned(briefs, userId, briefId)
    }

    /** `get_brief_by_id(brief_id)` */
    function GetBriefById(briefId: Id): (r: Option<BriefRecord>)
      reads this
      ensures r.Some? <==> briefId in briefs
      ensures r.Some? ==> r.value == briefs[briefId]
    {
      Lookup(briefs, briefId)
    }

    /** `get_article(user_id, article_id)` */
    function GetArticle(userId: Id, articleId: Id): (r: Option<ArticleRecord>)
      reads this
      ensures r.Some? <==> articleId in articles && articles[articleId].userId == userId
      ensures r.Some? ==> r.value == articles[articleId]
    {
      Owned(articles, userId, articleId)
    }

    /** `get_article_by_id(article_id)` */
    function GetArticleById(articleId: Id): (r: Option<ArticleRecord>)
      reads this
      ensures r.Some? <==> articleId in articles
      ensures r.Some? ==> r.value == articles[articleId]
    {
      Lookup(articles, articleId)
    }

    /** `get_user_settings(user_id)` */
    function GetUserSettings(userId: Id): (r: Option<UserSettings>)
      reads this
      ensures r.Some? <==> userId in settings
      ensures r.Some? ==> r.value == settings[userId]
    {
      if userId in settings then Some(settings[userId]) else None
    }

    /** `update_brief(brief_id, **fields)`: the merged record, or nothing for
        an unknown id. */
    method UpdateBrief(briefId: Id, patch: TaskPatch<BriefArtifacts>) returns (updated: Option<BriefRecord>)
      requires Valid()
      modifies this
      ensures Valid()
      ensures clock == old(clock) + 1
      ensures briefs == Step(old(briefs), briefId, patch, clock)
      ensures updated.Some? <==> briefId in old(briefs)
      ensures updated.Some? ==> updated.value == briefs[briefId]
      ensures articles == old(articles) && settings == old(settings)
    {
      clock := clock + 1;
      if briefId in briefs {
        var merged := MergeTask(briefs[briefId], patch, clock);
        briefs := briefs[briefId := merged];
        updated := Some(merged);
      } else {
        updated := None;
      }
    }

    /** `update_article(article_id, **fields)`: the merged record, or nothing
        for an unknown id. */
    method UpdateArticle(articleId: Id, patch: TaskPatch<ArticleArtifacts>) returns (updated: Option<ArticleRecord>)
      requires Valid()
      modifies this
      ensures Valid()
      ensures clock == old(clock) + 1
      ensures articles == Step(old(articles), articleId, patch, clock)
      ensures updated.Some? <==> articleId in old(articles)
      ensures updated.Some? ==> updated.value == articles[articleId]
      ensures briefs == old(briefs) && settings == old(settings)
    {
      clock := clock + 1;
      if articleId in articles {
        var merged := MergeTask(articles[articleId], patch, clock);
        articles := articles[articleId := merged];
        updated := Some(merged);
      } else {
        updated := None;
      }
    }
  }
}
