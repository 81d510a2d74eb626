/** `InMemoryRunStore` of `app/models/store.py`: a dictionary from run id to
    run record behind a lock. `uuid4` becomes a fresh id the caller supplies
    and `datetime.now` a counter that ticks once per `create` or `update`. */
module Store {
  import opened Wrappers
  import opened Schemas

  /** The keyword arguments of one `update` call, `None` for a field that is
      not supplied. These are the fields the orchestrators pass. */
  datatype RunPatch = RunPatch(
    status: Option<Status>,
    error: Option<Option<string>>,
    artifacts: Option<RunArtifacts>)

  function Pick<T>(supplied: Option<T>, current: T): T {
    match supplied
    case Some(v) => v
    case None => current
  }

  /** `run.model_dump()` updated with the supplied fields; `updated_at` is
      left to `Merge`. */
  function ApplyRun(r: RunRecord, p: RunPatch): RunRecord {
    r.(status := Pick(p.status, r.status),
       error := Pick(p.error, r.error),
       artifacts := Pick(p.artifacts, r.artifacts))
  }

  /** The record `update` stores: the supplied fields overwritten, every
      other field kept, `updated_at` set to the clock. */
  function Merge(r: RunRecord, p: RunPatch, now: Timestamp): (m: RunRecord)
    ensures m.id == r.id && m.query == r.query && m.createdAt == r.createdAt
    ensures m.updatedAt == now
    ensures p.status.None? ==> m.status == r.status
    ensures p.error.None? ==> m.error == r.error
    ensures p.artifacts.None? ==> m.artifacts == r.artifacts
  {
    ApplyRun(r, p).(updatedAt := now)
  }

  /** Two successive patches, as one: the later one wins on every field it
      supplies. */
  function Then(p1: RunPatch, p2: RunPatch): RunPatch {
    RunPatch(
      if p2.status.Some? then p2.status else p1.status,
      if p2.error.Some? then p2.error else p1.error,
      if p2.artifacts.Some? then p2.artifacts else p1.artifacts)
  }

  /** Two updates in a row store what one update with the combined keyword
      arguments stores at the later time. */
  lemma MergeThen(r: RunRecord, p1: RunPatch, p2: RunPatch, t1: Timestamp, t2: Timestamp)
    ensures Merge(Merge(r, p1, t1), p2, t2) == Merge(r, Then(p1, p2), t2)
  {
  }

  /** Records newest first: strictly decreasing `created_at`. */
  predicate NewestFirst(rs: seq<RunRecord>) {
    forall i, j :: 0 <= i < j < |rs| ==> rs[i].createdAt > rs[j].createdAt
  }

  /** One step of `sorted(..., key=created_at, reverse=True)`: `r` put in
      its place among records sorted newest first. */
  function InsertNewestFirst(rs: seq<RunRecord>, r: RunRecord): (out: seq<RunRecord>)
    requires NewestFirst(rs)
    requires forall i :: 0 <= i < |rs| ==> rs[i].createdAt != r.createdAt
    ensures NewestFirst(out)
    ensures forall x :: x in out <==> x in rs || x == r
    decreases |rs|
  {
    if rs == [] || r.createdAt > rs[0].createdAt then [r] + rs
    else
      var tail := InsertNewestFirst(rs[1..], r);
      assert forall i :: 1 <= i < |rs| ==> rs[i].createdAt < rs[0].createdAt;
      assert forall j :: 0 <= j < |tail| ==> tail[j].createdAt < rs[0].createdAt by {
        forall j | 0 <= j < |tail|
          ensures tail[j].createdAt < rs[0].createdAt
        {
          assert tail[j] in tail;
          if tail[j] != r {
            var i :| 0 <= i < |rs[1..]| && rs[1..][i] == tail[j];
            assert rs[i + 1] == tail[j];
          }
        }
      }
      [rs[0]] + tail
  }

  class RunStore {
    var runs: map<Id, RunRecord>
    var clock: Timestamp

    /** Every record is stored under its own id, was last written no later
        than now, and no two records were created at the same tick. */
    ghost predicate Valid()
      reads this
    {
      && (forall id :: id in runs ==> runs[id].id == id)
      && (forall id :: id in runs ==> runs[id].createdAt <= runs[id].updatedAt <= clock)
      && (forall a, b :: a in runs && b in runs && a != b ==> runs[a].createdAt != runs[b].createdAt)
    }

    constructor ()
      ensures Valid() && runs == map[] && clock == 0
    {
      runs := map[];
      clock := 0;
    }

    /** `create`: a queued record with default error and artifacts, created
        and updated at the same instant, stored under a fresh id. */
    method Create(query: string, id: Id) returns (run: RunRecord)
      requires Valid()
      requires id !in runs
      modifies this
      ensures Valid()
      ensures clock == old(clock) + 1
      ensures run.id == id && run.query == query && run.status == Queued
      ensures run.createdAt == run.updatedAt == clock
      ensures run.error == None && run.artifacts == EmptyRunArtifacts
      ensures runs == old(runs)[id := run]
    {
      clock := clock + 1;
      run := RunRecord(id, query, Queued, clock, clock, None, EmptyRunArtifacts);
      runs := runs[id := run];
    }

    /** `get`: the stored record, or `None` for an unknown id. */
    function Get(id: Id): (r: Option<RunRecord>)
      requires Valid()
      reads this
      ensures r.Some? <==> id in runs
      ensures r.Some? ==> r.value == runs[id] && r.value.id == id
    {
      if id in runs then Some(runs[id]) else None
    }

    /** `list`: exactly the stored records, newest first. */
    method List() returns (rs: seq<RunRecord>)
      requires Valid()
      ensures NewestFirst(rs)
      ensures forall r :: r in rs <==> r in runs.Values
    {
      var rest := runs.Keys;
      rs := [];
      while rest != {}
        invariant rest <= runs.Keys
        invariant NewestFirst(rs)
        invariant forall r :: r in rs <==> exists k :: k in runs.Keys - rest && runs[k] == r
        decreases rest
      {
        var k :| k in rest;
        forall i | 0 <= i < |rs|
          ensures rs[i].createdAt != runs[k].createdAt
        {
          assert rs[i] in rs;
          var k' :| k' in runs.Keys - rest && runs[k'] == rs[i];
        }
        rs := InsertNewestFirst(rs, runs[k]);
        rest := rest - {k};
      }
    }

    /** `update`: merge the supplied fields into the record and stamp it;
        other records stay as they are. An unknown id raises `KeyError`,
        which no caller expects. */
    method Update(id: Id, patch: RunPatch) returns (updated: RunRecord)
      requires Valid()
      requires id in runs
      modifies this
      ensures Valid()
      ensures clock == old(clock) + 1
      ensures updated == Merge(old(runs)[id], patch, clock)
      ensures updated.updatedAt > old(runs)[id].updatedAt
      ensures runs == old(runs)[id := updated]
    {
      clock := clock + 1;
      updated := Merge(runs[id], patch, clock);
      runs := runs[id := updated];
    }
  }
}
