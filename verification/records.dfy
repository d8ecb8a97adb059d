/**
 The list algorithms the operations apply to one in-memory list: the
 `filter` by id that deletion uses, the `find` by id that toggling uses, and
 the in-place flip of one record's `completed` flag.
 */
module Records {
  import opened Outcomes
  import opened Tasks

  /** Some record in `s` carries `id`. */
  predicate HasId(s: seq<Task>, id: DocId) {
    exists k | 0 <= k < |s| :: s[k].id == id
  }

  /** No two records of `s` share an id. */
  predicate UniqueIds(s: seq<Task>) {
    forall i, j | 0 <= i < j < |s| :: s[i].id != s[j].id
  }

  /** `r` and `s` carry the same ids at the same positions. */
  predicate SameIds(r: seq<Task>, s: seq<Task>) {
    |r| == |s| && forall k | 0 <= k < |s| :: r[k].id == s[k].id
  }

  // ---------------------------------------------------------------------------
  // Deleting: `list.filter(task => task.id !== id)`
  // ---------------------------------------------------------------------------

  /** The records of `s` whose id differs from `id`, in their order. */
  function Without(s: seq<Task>, id: DocId): (r: seq<Task>)
    ensures |r| <= |s|
    ensures forall k | 0 <= k < |r| :: r[k].id != id
    decreases |s|
  {
    if s == [] then []
    else if s[0].id == id then Without(s[1..], id)
    else [s[0]] + Without(s[1..], id)
  }

  /** A list without the id is left exactly as it was. */
  lemma {:induction false} WithoutAbsent(s: seq<Task>, id: DocId)
    requires !HasId(s, id)
    ensures Without(s, id) == s
    decreases |s|
  {
    if s != [] {
      assert s[0].id != id;
      assert !HasId(s[1..], id) by {
        forall k | 0 <= k < |s| - 1 ensures s[1..][k].id != id {
          assert s[1..][k] == s[k + 1];
        }
      }
      WithoutAbsent(s[1..], id);
    }
  }

  /** A list with the id strictly shrinks. */
  lemma {:induction false} WithoutShrinks(s: seq<Task>, id: DocId)
    requires HasId(s, id)
    ensures |Without(s, id)| < |s|
    decreases |s|
  {
    if s[0].id != id {
      var k :| 0 <= k < |s| && s[k].id == id;
      assert s[1..][k - 1] == s[k];
      WithoutShrinks(s[1..], id);
    }
  }

  /** The filter leaves a list as it was exactly when no record carries the id. */
  lemma {:induction false} WithoutUnchangedIff(s: seq<Task>, id: DocId)
    ensures Without(s, id) == s <==> !HasId(s, id)
  {
    if HasId(s, id) {
      WithoutShrinks(s, id);
    } else {
      WithoutAbsent(s, id);
    }
  }

  /** The filter keeps exactly the records whose id differs: whatever it
      returns came from `s`, and every record of `s` with another id is kept. */
  lemma {:induction false} WithoutKeepsOthers(s: seq<Task>, id: DocId)
    ensures forall t | t in Without(s, id) :: t in s && t.id != id
    ensures forall t | t in s && t.id != id :: t in Without(s, id)
    decreases |s|
  {
    if s != [] {
      WithoutKeepsOthers(s[1..], id);
      assert s == [s[0]] + s[1..];
    }
  }

  /** The filter works record by record, so it keeps the relative order of
      what it keeps: filtering a concatenation filters each part. */
  lemma {:induction false} WithoutConcat(a: seq<Task>, b: seq<Task>, id: DocId)
    ensures Without(a + b, id) == Without(a, id) + Without(b, id)
    decreases |a|
  {
    if a == [] {
      assert a + b == b;
    } else {
      assert (a + b)[0] == a[0];
      assert (a + b)[1..] == a[1..] + b;
      WithoutConcat(a[1..], b, id);
    }
  }

  /** A one-record list loses its record to a filter on that record's id. */
  lemma WithoutOwnId(t: Task)
    ensures Without([t], t.id) == []
  {
  }

  /** Filtering out the id of a record that the records around it do not
      carry removes just that record. */
  lemma {:induction false} WithoutAround(pre: seq<Task>, t: Task, post: seq<Task>)
    requires !HasId(pre, t.id) && !HasId(post, t.id)
    ensures Without(pre + [t] + post, t.id) == pre + post
  {
    WithoutAbsent(pre, t.id);
    WithoutAbsent(post, t.id);
    WithoutConcat(pre + [t], post, t.id);
    WithoutConcat(pre, [t], t.id);
    WithoutOwnId(t);
  }

  /** When ids are unique, deleting the id of the record at `k` removes that
      record and nothing else: the records before and after it stay, in order. */
  lemma {:induction false} WithoutUniqueRemovesOne(s: seq<Task>, k: nat)
    requires UniqueIds(s)
    requires k < |s|
    ensures Without(s, s[k].id) == s[..k] + s[k + 1..]
  {
    var id := s[k].id;
    var pre, post := s[..k], s[k + 1..];
    assert !HasId(pre, id) by {
      forall j | 0 <= j < |pre| ensures pre[j].id != id {
        assert pre[j] == s[j];
      }
    }
    assert !HasId(post, id) by {
      forall j | 0 <= j < |post| ensures post[j].id != id {
        assert post[j] == s[k + 1 + j];
      }
    }
    assert s == pre + [s[k]] + post;
    WithoutAround(pre, s[k], post);
  }

  /** A list with unique ids stays so when a record with a new id joins at the front. */
  lemma {:induction false} PrependKeepsUnique(t: Task, s: seq<Task>)
    requires UniqueIds(s)
    requires !HasId(s, t.id)
    ensures UniqueIds([t] + s)
  {
  }

  /** Filtering keeps ids unique. */
  lemma {:induction false} WithoutKeepsUnique(s: seq<Task>, id: DocId)
    requires UniqueIds(s)
    ensures UniqueIds(Without(s, id))
    decreases |s|
  {
    if s != [] {
      var tail := s[1..];
      assert UniqueIds(tail) by {
        forall i, j | 0 <= i < j < |tail| ensures tail[i].id != tail[j].id {
          assert tail[i] == s[i + 1] && tail[j] == s[j + 1];
        }
      }
      WithoutKeepsUnique(tail, id);
      if s[0].id != id {
        var rest := Without(tail, id);
        assert !HasId(rest, s[0].id) by {
          WithoutKeepsOthers(tail, id);
          forall j | 0 <= j < |rest| ensures rest[j].id != s[0].id {
            assert rest[j] in tail;
            var m :| 0 <= m < |tail| && tail[m] == rest[j];
            assert tail[m] == s[m + 1];
          }
        }
        PrependKeepsUnique(s[0], rest);
      }
    }
  }

  // ---------------------------------------------------------------------------
  // Toggling: `list.find(t => t.id === id)`, then `task.completed = !completed`
  // ---------------------------------------------------------------------------

  /** The index of the first record with the id, or NotFound when no record has it. */
  function FirstIndex(s: seq<Task>, id: DocId): (r: Lookup<nat>)
    ensures r.NotFound? <==> !HasId(s, id)
    ensures r.Found? ==> r.value < |s| && s[r.value].id == id
    ensures r.Found? ==> forall k | 0 <= k < r.value :: s[k].id != id
    decreases |s|
  {
    if s == [] then NotFound
    else if s[0].id == id then Found(0)
    else
      match FirstIndex(s[1..], id)
      case NotFound =>
        assert forall k | 1 <= k < |s| :: s[k] == s[1..][k - 1];
        NotFound
      case Found(i) => Found(i + 1)
  }

  /** `find` stops at the first match: an index holding the id with no
      match before it is the one FirstIndex returns. */
  lemma {:induction false} FirstIndexIsFirst(s: seq<Task>, id: DocId, j: nat)
    requires j < |s| && s[j].id == id
    requires forall k | 0 <= k < j :: s[k].id != id
    ensures FirstIndex(s, id) == Found(j)
  {
  }

  /** Where the first record with an id sits depends on the ids alone. */
  lemma {:induction false} FirstIndexFollowsIds(r: seq<Task>, s: seq<Task>, id: DocId)
    requires SameIds(r, s)
    ensures FirstIndex(r, id) == FirstIndex(s, id)
  {
  }

  /** The record at `i` with `completed` negated; every other record as it was. */
  function Flip(s: seq<Task>, i: nat): (r: seq<Task>)
    requires i < |s|
    ensures |r| == |s|
    ensures r[i].completed == !s[i].completed
    ensures r[i].id == s[i].id && r[i].text == s[i].text && r[i].createdAt == s[i].createdAt
    ensures forall k | 0 <= k < |s| && k != i :: r[k] == s[k]
  {
    s[i := s[i].(completed := !s[i].completed)]
  }

  /** Flipping does not move or rename records, so the first record with a
      given id is the same before and after a flip. */
  lemma {:induction false} FlipKeepsFirstIndex(s: seq<Task>, i: nat, id: DocId)
    requires i < |s|
    ensures FirstIndex(Flip(s, i), id) == FirstIndex(s, id)
  {
  }

  /** Flipping the same record twice restores the list. */
  lemma {:induction false} FlipTwice(s: seq<Task>, i: nat)
    requires i < |s|
    ensures Flip(Flip(s, i), i) == s
  {
  }

  /** Flipping keeps ids unique. */
  lemma {:induction false} FlipKeepsUnique(s: seq<Task>, i: nat)
    requires i < |s|
    requires UniqueIds(s)
    ensures UniqueIds(Flip(s, i))
  {
  }

}
