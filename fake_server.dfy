/**
 * The in-memory backend the tests run against: a task table `db` seeded with two
 * tasks, and the handlers for listing, creating, updating and deleting tasks.
 */
module FakeServer {
  import opened Wrappers
  import opened TaskRecord
  import Dashboard

  /** The seed data: two tasks with ids 1 and 2, created on 2024-01-01 and 2024-01-02. */
  const Initial: seq<Task> := [
    Task(1, Some("第一個任務"), "demo", Some("todo"), "", "2024-01-01"),
    Task(2, Some("已完成任務"), "bar", Some("done"), "", "2024-01-02")
  ]

  /** `Math.max(0, ...ids)`: the largest id, or 0 for an empty table or one with only non-positive ids. */
  function MaxId(s: seq<Task>): (m: int)
    ensures m >= 0
    ensures forall i :: 0 <= i < |s| ==> s[i].id <= m
    ensures m == 0 || exists i :: 0 <= i < |s| && s[i].id == m
  {
    if s == [] then 0
    else
      var rest := MaxId(s[1..]);
      assert forall i :: 1 <= i < |s| ==> s[i] == s[1..][i - 1];
      if s[0].id > rest then s[0].id else rest
  }

  /** `db.find(t => t.id === id)`: the first task with that id. */
  function FindById(s: seq<Task>, id: int): (r: Option<Task>)
    ensures r.None? <==> !HasId(s, id)
    ensures r.Some? ==> r.value in s && r.value.id == id
    ensures r.Some? ==> exists k :: 0 <= k < |s| && s[k] == r.value && forall j :: 0 <= j < k ==> s[j].id != id
  {
    if s == [] then None
    else if s[0].id == id then Some(s[0])
    else
      var r := FindById(s[1..], id);
      assert forall i :: 1 <= i < |s| ==> s[i] == s[1..][i - 1];
      if r.Some? then
        var k :| 0 <= k < |s[1..]| && s[1..][k] == r.value && forall j :: 0 <= j < k ==> s[1..][j].id != id;
        assert s[k + 1] == r.value && forall j :: 0 <= j < k + 1 ==> s[j].id != id;
        r
      else r
  }

  /** With unique ids the task found is the one task carrying that id. */
  lemma {:induction false} FindUnique(s: seq<Task>, k: nat)
    requires UniqueIds(s) && k < |s|
    ensures FindById(s, s[k].id) == Some(s[k])
  {
    if k > 0 {
      assert s[0].id != s[k].id;
      assert s[1..][k - 1] == s[k];
      FindUnique(s[1..], k - 1);
    }
  }

  /** The body of a POST: `None` for a key that is absent or `null`. */
  datatype PostBody = PostBody(title: Option<string>, description: Option<string>, status: Option<string>)

  /** The record a POST creates: the next id, `??` defaults for missing fields, and the creation time. */
  function NewTask(db: seq<Task>, body: PostBody, createdAt: string): (t: Task)
    ensures t.id == MaxId(db) + 1 && !HasId(db, t.id)
    ensures t.title == Some(body.title.GetOr("")) && t.description == body.description.GetOr("")
    ensures t.status == Some(body.status.GetOr("todo"))
    ensures t.created_at == "" && t.createdAt == createdAt
  {
    Task(MaxId(db) + 1, Some(body.title.GetOr("")), body.description.GetOr(""), Some(body.status.GetOr("todo")), "", createdAt)
  }

  /** `db.map(t => t.id === id ? { ...t, ...body } : t)` for the id parsed from the path; a path that is not a number (`None`) matches nothing. */
  function Updated(db: seq<Task>, id: Option<int>, body: Patch): (r: seq<Task>)
    ensures |r| == |db|
    ensures id.None? ==> r == db
    ensures id.Some? ==> r == ReplaceById(db, id.value, body)
  {
    if id.Some? then ReplaceById(db, id.value, body) else db
  }

  /** `db.filter(t => t.id !== id)` for the id parsed from the path; `NaN` (`None`) differs from every id, so nothing is removed. */
  function Removed(db: seq<Task>, id: Option<int>): (r: seq<Task>)
    ensures id.None? ==> r == db
    ensures id.Some? ==> r == RemoveById(db, id.value)
  {
    if id.Some? then RemoveById(db, id.value) else db
  }

  /** The record a PUT answers: `db.find(t => t.id === id)`; `NaN` (`None`) finds nothing. */
  function FindByPath(db: seq<Task>, id: Option<int>): (r: Option<Task>)
    ensures id.None? ==> r.None?
    ensures id.Some? ==> r == FindById(db, id.value)
  {
    if id.Some? then FindById(db, id.value) else None
  }

  /** The mutable table behind the handlers. */
  class Server {
    var db: seq<Task>

    constructor ()
      ensures db == Initial && UniqueIds(db)
    {
      InitialTable();
      db := Initial;
    }

    /** `resetDb`: back to a copy of the seed data. */
    method Reset()
      modifies this
      ensures db == Initial && UniqueIds(db)
    {
      InitialTable();
      db := Initial;
    }

    /** `GET /tasks`: the table as it is. */
    method List() returns (r: seq<Task>)
      ensures r == db
    {
      r := db;
    }

    /**
     * `POST /tasks`: appends one new record with an id above every id in the table and
     * answers with it; the records already there are untouched and ids stay unique.
     */
    method Post(body: PostBody, createdAt: string) returns (created: Task)
      modifies this
      ensures created == NewTask(old(db), body, createdAt)
      ensures db == old(db) + [created]
      ensures forall i :: 0 <= i < |old(db)| ==> old(db)[i].id < created.id
      ensures UniqueIds(old(db)) ==> UniqueIds(db)
    {
      created := NewTask(db, body, createdAt);
      db := db + [created];
    }

    /**
     * `PUT /tasks/:id`: spreads the body over the records with that id, keeps the
     * length, and answers with the first record that has the id afterwards.
     */
    method Put(id: Option<int>, body: Patch) returns (updated: Option<Task>)
      modifies this
      ensures db == Updated(old(db), id, body)
      ensures updated == FindByPath(db, id)
      ensures UniqueIds(old(db)) && (body.id.None? || body.id == id) ==> UniqueIds(db)
    {
      if id.Some? {
        ReplaceKeepsIdsWhenSafe(db, id.value, body);
      }
      db := Updated(db, id, body);
      updated := FindByPath(db, id);
    }

    /**
     * `DELETE /tasks/:id`: removes the records with the id parsed from the path and keeps
     * the rest in order; a path that is not a number removes nothing.
     */
    method Delete(id: Option<int>)
      modifies this
      ensures db == Removed(old(db), id)
      ensures id.Some? ==> forall t :: t in db <==> t in old(db) && t.id != id.value
      ensures UniqueIds(old(db)) ==> UniqueIds(db)
    {
      if id.Some? {
        RemoveByIdSpec(db, id.value);
      }
      db := Removed(db, id);
    }
  }

  lemma ReplaceKeepsIdsWhenSafe(db: seq<Task>, id: int, body: Patch)
    ensures (body.id.None? || body.id == Some(id)) && UniqueIds(db) ==> UniqueIds(ReplaceById(db, id, body))
  {
    if body.id.None? || body.id == Some(id) {
      ReplaceKeepsIds(db, id, body);
    }
  }

  /** The seed data has unique ids, the largest being 2, so the first POST gets id 3. */
  lemma InitialTable()
    ensures UniqueIds(Initial) && MaxId(Initial) == 2
    ensures NewTask(Initial, PostBody(None, None, None), "").id == 3
  {
    assert Initial[1..] == [Initial[1]];
    assert Initial[1..][1..] == [];
  }

  /**
   * When the body keeps the path id, PUT on an existing task answers with that task
   * merged with the body, at its place in the table.
   */
  lemma PutAnswersMerged(db: seq<Task>, k: nat, body: Patch)
    requires UniqueIds(db) && k < |db|
    requires body.id.None? || body.id == Some(db[k].id)
    ensures FindByPath(Updated(db, Some(db[k].id), body), Some(db[k].id)) == Some(Merge(db[k], body))
  {
    var after := ReplaceById(db, db[k].id, body);
    ReplaceKeepsIds(db, db[k].id, body);
    FindUnique(after, k);
  }

  /** PUT on an id that is not in the table changes nothing and answers with nothing. */
  lemma PutMissing(db: seq<Task>, id: int, body: Patch)
    requires !HasId(db, id)
    ensures Updated(db, Some(id), body) == db
    ensures FindByPath(Updated(db, Some(id), body), Some(id)).None?
  {
    ReplaceMissing(db, id, body);
  }

  /**
   * The body the dashboard's `saveEdit` sends never carries an id, and its path is the
   * id of the opened task (`null`, parsed as `NaN`, before one is opened), so a PUT from
   * the client keeps the ids of the table unique.
   */
  lemma ClientPutKeepsIdsUnique(db: seq<Task>, request: Dashboard.PutRequest)
    requires UniqueIds(db)
    ensures UniqueIds(Updated(db, request.id, Dashboard.PatchOf(request.body)))
    ensures |Updated(db, request.id, Dashboard.PatchOf(request.body))| == |db|
  {
    if request.id.Some? {
      ReplaceKeepsIds(db, request.id.value, Dashboard.PatchOf(request.body));
    }
  }

  /** A body carrying another task's id makes two records share that id. */
  lemma PutCanDuplicateIds()
    ensures !UniqueIds(Updated(Initial, Some(1), Patch(Some(2), None, None, None, None, None)))
  {
    var after := Updated(Initial, Some(1), Patch(Some(2), None, None, None, None, None));
    assert after[0].id == 2 && after[1].id == 2;
  }

  /** Deleting the task with the largest id frees that id for the next POST. */
  lemma DeleteThenPostReusesId()
    ensures NewTask(Removed(Initial, Some(2)), PostBody(None, None, None), "").id == 2
  {
    var rest := RemoveById(Initial, 2);
    assert Initial[1..][1..] == [];
    assert rest == [Initial[0]];
    assert rest[1..] == [];
  }
}
