/**
 * Task records as JSON objects, the object spread `{ ...t, ...patch }`, and the two
 * collection updates that both the dashboard and the fake server perform by id:
 * `tasks.map(t => t.id === id ? { ...t, ...patch } : t)` and `tasks.filter(t => t.id !== id)`.
 */
module TaskRecord {
  import opened Wrappers
  import Seqs

  /**
   * A task record with the keys the code reads.
   *
   * `title` is `None` when the key is absent or `null`: the search reads it as
   * `t.title || ""`, but the edit dialog copies it as it is and then calls `trim()`
   * on it. `status` is `None` when the key is absent: `t.status === statusKey`
   * tells `undefined` apart from every string. For `description`, `created_at` and
   * `createdAt` an absent, `null` or empty value is "", because every reader of
   * those keys falls back with `||`.
   */
  datatype Task = Task(
    id: int,
    title: Option<string>,
    description: string,
    status: Option<string>,
    created_at: string,
    createdAt: string)

  /** A partial record, as in a PUT body or a PUT response: `None` is a key that is not present. */
  datatype Patch = Patch(
    id: Option<int>,
    title: Option<string>,
    description: Option<string>,
    status: Option<string>,
    created_at: Option<string>,
    createdAt: Option<string>)

  /** `{ ...t, ...p }`: every key present in `p` takes `p`'s value, every other key keeps `t`'s. */
  function Merge(t: Task, p: Patch): (r: Task)
    ensures p.id.None? ==> r.id == t.id
    ensures p.id.Some? ==> r.id == p.id.value
    ensures p.title.None? ==> r.title == t.title
    ensures p.title.Some? ==> r.title == p.title
    ensures p.description.None? ==> r.description == t.description
    ensures p.description.Some? ==> r.description == p.description.value
    ensures p.status.None? ==> r.status == t.status
    ensures p.status.Some? ==> r.status == p.status
    ensures p.created_at.None? ==> r.created_at == t.created_at
    ensures p.created_at.Some? ==> r.created_at == p.created_at.value
    ensures p.createdAt.None? ==> r.createdAt == t.createdAt
    ensures p.createdAt.Some? ==> r.createdAt == p.createdAt.value
  {
    Task(
      p.id.GetOr(t.id),
      if p.title.Some? then p.title else t.title,
      p.description.GetOr(t.description),
      if p.status.Some? then p.status else t.status,
      p.created_at.GetOr(t.created_at),
      p.createdAt.GetOr(t.createdAt))
  }

  /** Spreading the same patch twice changes nothing more. */
  lemma MergeIdempotent(t: Task, p: Patch)
    ensures Merge(Merge(t, p), p) == Merge(t, p)
  {
  }

  /** No two records share an id. */
  predicate UniqueIds(s: seq<Task>) {
    forall i, j :: 0 <= i < j < |s| ==> s[i].id != s[j].id
  }

  predicate HasId(s: seq<Task>, id: int) {
    exists i :: 0 <= i < |s| && s[i].id == id
  }

  /** `s.map(t => t.id === id ? { ...t, ...p } : t)`. */
  function ReplaceById(s: seq<Task>, id: int, p: Patch): (r: seq<Task>)
    ensures |r| == |s|
    ensures forall i :: 0 <= i < |s| && s[i].id != id ==> r[i] == s[i]
    ensures forall i :: 0 <= i < |s| && s[i].id == id ==> r[i] == Merge(s[i], p)
  {
    seq(|s|, i requires 0 <= i < |s| => if s[i].id == id then Merge(s[i], p) else s[i])
  }

  /** A patch that carries no id, or the same id, leaves every id where it was. */
  lemma ReplaceKeepsIds(s: seq<Task>, id: int, p: Patch)
    requires p.id.None? || p.id == Some(id)
    ensures forall i :: 0 <= i < |s| ==> ReplaceById(s, id, p)[i].id == s[i].id
    ensures UniqueIds(s) ==> UniqueIds(ReplaceById(s, id, p))
  {
  }

  /** Replacing an id that no record has returns the collection unchanged. */
  lemma ReplaceMissing(s: seq<Task>, id: int, p: Patch)
    requires !HasId(s, id)
    ensures ReplaceById(s, id, p) == s
  {
  }

  function IdIsNot(id: int): Task -> bool {
    (t: Task) => t.id != id
  }

  /** `s.filter(t => t.id !== id)`. */
  function RemoveById(s: seq<Task>, id: int): (r: seq<Task>)
    ensures |r| <= |s|
    ensures !HasId(r, id)
  {
    var r := Seqs.Filter(s, IdIsNot(id));
    assert forall i :: 0 <= i < |r| ==> r[i] in r;
    r
  }

  /**
   * Removal keeps exactly the records with another id, in their original order,
   * and keeps the ids unique.
   */
  lemma RemoveByIdSpec(s: seq<Task>, id: int)
    ensures forall t :: t in RemoveById(s, id) <==> t in s && t.id != id
    ensures Seqs.IsSubsequence(RemoveById(s, id), s)
    ensures UniqueIds(s) ==> UniqueIds(RemoveById(s, id))
  {
    forall t ensures t in RemoveById(s, id) <==> t in s && t.id != id {
      Seqs.FilterMembership(s, IdIsNot(id), t);
    }
    Seqs.FilterIsSubsequence(s, IdIsNot(id));
    if UniqueIds(s) {
      RemoveKeepsUnique(s, id);
    }
  }

  lemma {:induction false} RemoveKeepsUnique(s: seq<Task>, id: int)
    requires UniqueIds(s)
    ensures UniqueIds(RemoveById(s, id))
  {
    if s != [] {
      var rest := Seqs.Filter(s[1..], IdIsNot(id));
      RemoveKeepsUnique(s[1..], id);
      forall x | x in rest ensures x.id != s[0].id {
        Seqs.FilterMembership(s[1..], IdIsNot(id), x);
        var k :| 0 <= k < |s[1..]| && s[1..][k] == x;
        assert s[k + 1] == x;
      }
      var r := RemoveById(s, id);
      if s[0].id != id {
        assert r == [s[0]] + rest;
        forall i, j | 0 <= i < j < |r| ensures r[i].id != r[j].id {
          if i == 0 {
            assert r[j] == rest[j - 1] && r[j] in rest;
          } else {
            assert r[i] == rest[i - 1] && r[j] == rest[j - 1];
          }
        }
      } else {
        assert r == rest;
      }
    }
  }

  /** With unique ids, removing a present id shortens the collection by exactly one, an absent one not at all. */
  lemma {:induction false} RemoveLength(s: seq<Task>, id: int)
    requires UniqueIds(s)
    ensures |RemoveById(s, id)| == if HasId(s, id) then |s| - 1 else |s|
  {
    if s != [] {
      assert UniqueIds(s[1..]) by {
        forall i, j | 0 <= i < j < |s[1..]| ensures s[1..][i].id != s[1..][j].id {
          assert s[1..][i] == s[i + 1] && s[1..][j] == s[j + 1];
        }
      }
      RemoveLength(s[1..], id);
      if s[0].id == id {
        forall i | 0 <= i < |s[1..]| ensures IdIsNot(id)(s[1..][i]) {
          assert s[1..][i] == s[i + 1];
        }
        Seqs.FilterAll(s[1..], IdIsNot(id));
      } else {
        assert HasId(s, id) ==> HasId(s[1..], id) by {
          if HasId(s, id) {
            var k :| 0 <= k < |s| && s[k].id == id;
            assert s[1..][k - 1] == s[k];
          }
        }
        assert HasId(s[1..], id) ==> HasId(s, id) by {
          if HasId(s[1..], id) {
            var k :| 0 <= k < |s[1..]| && s[1..][k].id == id;
            assert s[k + 1] == s[1..][k];
          }
        }
      }
    }
  }
}
