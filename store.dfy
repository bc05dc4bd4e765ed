/**
 * A Mongoose collection as the controllers and the login callback see it:
 * documents in natural (insertion) order, each under a store-assigned id.
 * `findById`, `findByIdAndUpdate` and `findByIdAndDelete` are the functions
 * below; `save` of a new document appends it.
 */
module Store {
  import opened Wrappers
  import opened Http

  /** A saved document and its `_id`. */
  datatype Stored<+T> = Stored(id: Id, doc: T)

  /** What `save()` throws when the new document's `_id` is already taken. */
  const DuplicateKey: Error := Error(None, Some("E11000 duplicate key error"))

  predicate HasId<T>(s: seq<Stored<T>>, id: Id)
  {
    exists k :: 0 <= k < |s| && s[k].id == id
  }

  /** The `_id` index: no two documents share an id. */
  predicate IdsUnique<T>(s: seq<Stored<T>>)
  {
    forall i, j :: 0 <= i < j < |s| ==> s[i].id != s[j].id
  }

  /** `Model.findById(id)`: the document with that id, or `null`. */
  function FindById<T>(s: seq<Stored<T>>, id: Id): (r: Option<Stored<T>>)
    ensures r.Some? <==> HasId(s, id)
    ensures r.Some? ==> r.value.id == id && r.value in s
  {
    if s == [] then None
    else if s[0].id == id then Some(s[0])
    else
      var r := FindById(s[1..], id);
      assert HasId(s[1..], id) ==> HasId(s, id);
      assert HasId(s, id) ==> HasId(s[1..], id) by {
        if HasId(s, id) {
          var k :| 0 <= k < |s| && s[k].id == id;
          assert s[1..][k - 1].id == id;
        }
      }
      r
  }

  /** With unique ids, the document found by an id is the one stored under it. */
  lemma {:induction false} FindStored<T>(s: seq<Stored<T>>, x: Stored<T>)
    requires IdsUnique(s) && x in s
    ensures FindById(s, x.id) == Some(x)
  {
    if s[0] != x {
      assert s[0].id != x.id by {
        var k :| 0 <= k < |s| && s[k] == x;
        assert k != 0;
      }
      assert x in s[1..];
      assert IdsUnique(s[1..]) by {
        forall i, j | 0 <= i < j < |s| - 1 ensures s[1..][i].id != s[1..][j].id {
          assert s[1..][i] == s[i + 1] && s[1..][j] == s[j + 1];
        }
      }
      FindStored(s[1..], x);
    }
  }

  /** Saving a document under a fresh id keeps the ids unique and makes the
      document findable by that id without disturbing the others. */
  lemma AppendFresh<T>(s: seq<Stored<T>>, id: Id, doc: T)
    requires IdsUnique(s) && !HasId(s, id)
    ensures IdsUnique(s + [Stored(id, doc)])
    ensures FindById(s + [Stored(id, doc)], id) == Some(Stored(id, doc))
  {
    var t := s + [Stored(id, doc)];
    assert forall i :: 0 <= i < |s| ==> t[i] == s[i];
    FindStored(t, Stored(id, doc));
  }

  /** `findByIdAndUpdate(id, …, {new: true})`: the document under `id`
      becomes `doc`; every other document and the order are kept. */
  function ReplaceById<T>(s: seq<Stored<T>>, id: Id, doc: T): (r: seq<Stored<T>>)
    ensures |r| == |s|
    ensures forall k :: 0 <= k < |s| ==> r[k].id == s[k].id
    ensures forall k :: 0 <= k < |s| && s[k].id != id ==> r[k] == s[k]
    ensures forall k :: 0 <= k < |s| && s[k].id == id ==> r[k] == Stored(id, doc)
  {
    if s == [] then []
    else
      var rest := ReplaceById(s[1..], id, doc);
      assert forall k :: 1 <= k < |s| ==> s[k] == s[1..][k - 1];
      [if s[0].id == id then Stored(id, doc) else s[0]] + rest
  }

  /** After a replacement the id finds the new document and ids stay unique. */
  lemma ReplaceFinds<T>(s: seq<Stored<T>>, id: Id, doc: T)
    requires IdsUnique(s) && HasId(s, id)
    ensures IdsUnique(ReplaceById(s, id, doc))
    ensures FindById(ReplaceById(s, id, doc), id) == Some(Stored(id, doc))
  {
    var r := ReplaceById(s, id, doc);
    var k :| 0 <= k < |s| && s[k].id == id;
    assert r[k] == Stored(id, doc);
    FindStored(r, Stored(id, doc));
  }

  /** A suffix of a store with unique ids has unique ids, and the first
      document's id does not occur in it. */
  lemma TailUnique<T>(s: seq<Stored<T>>)
    requires IdsUnique(s) && s != []
    ensures IdsUnique(s[1..]) && !HasId(s[1..], s[0].id)
  {
    forall i, j | 0 <= i < j < |s| - 1 ensures s[1..][i].id != s[1..][j].id {
      assert s[1..][i] == s[i + 1] && s[1..][j] == s[j + 1];
    }
    forall k | 0 <= k < |s| - 1 ensures s[1..][k].id != s[0].id {
      assert s[1..][k] == s[k + 1];
    }
  }

  /** `findByIdAndDelete(id)`: the documents other than the one under `id`.
      The definition keeps them in their order; the contract states which
      documents remain, not their order. */
  function RemoveById<T>(s: seq<Stored<T>>, id: Id): (r: seq<Stored<T>>)
    ensures |r| <= |s|
    ensures forall k :: 0 <= k < |r| ==> r[k] in s && r[k].id != id
    ensures forall k :: 0 <= k < |s| && s[k].id != id ==> s[k] in r
  {
    if s == [] then []
    else
      var rest := RemoveById(s[1..], id);
      assert forall k :: 1 <= k < |s| ==> s[k] == s[1..][k - 1];
      if s[0].id == id then rest else [s[0]] + rest
  }

  /** Putting a document in front of others keeps ids unique when its id is new. */
  lemma ConsUnique<T>(x: Stored<T>, rest: seq<Stored<T>>)
    requires IdsUnique(rest) && forall k :: 0 <= k < |rest| ==> rest[k].id != x.id
    ensures IdsUnique([x] + rest)
  {
    var r := [x] + rest;
    forall i, j | 0 <= i < j < |r| ensures r[i].id != r[j].id {
      assert r[j] == rest[j - 1];
      if i > 0 {
        assert r[i] == rest[i - 1];
      }
    }
  }

  /** Deleting keeps the ids unique. */
  lemma {:induction false} RemoveKeepsUnique<T>(s: seq<Stored<T>>, id: Id)
    requires IdsUnique(s)
    ensures IdsUnique(RemoveById(s, id))
  {
    if s != [] {
      TailUnique(s);
      RemoveKeepsUnique(s[1..], id);
      if s[0].id != id {
        var rest := RemoveById(s[1..], id);
        forall k | 0 <= k < |rest| ensures rest[k].id != s[0].id {
          var m :| 0 <= m < |s[1..]| && s[1..][m] == rest[k];
        }
        ConsUnique(s[0], rest);
      }
    }
  }

  /** Deleting an id that is present removes exactly one document. */
  lemma {:induction false} RemoveCount<T>(s: seq<Stored<T>>, id: Id)
    requires IdsUnique(s) && HasId(s, id)
    ensures |RemoveById(s, id)| == |s| - 1
  {
    TailUnique(s);
    if s[0].id == id {
      RemoveAbsent(s[1..], id);
    } else {
      var k :| 0 <= k < |s| && s[k].id == id;
      assert s[1..][k - 1].id == id;
      RemoveCount(s[1..], id);
    }
  }

  /** Deleting an id that is absent changes nothing. */
  lemma {:induction false} RemoveAbsent<T>(s: seq<Stored<T>>, id: Id)
    requires !HasId(s, id)
    ensures RemoveById(s, id) == s
  {
    if s != [] {
      assert s[0].id != id;
      assert !HasId(s[1..], id) by {
        forall k | 0 <= k < |s| - 1 ensures s[1..][k].id != id {
          assert s[1..][k] == s[k + 1];
        }
      }
      RemoveAbsent(s[1..], id);
      assert s == [s[0]] + s[1..];
    }
  }

  /** After deleting, nothing is left under the id. */
  lemma RemoveExcludes<T>(s: seq<Stored<T>>, id: Id)
    ensures !HasId(RemoveById(s, id), id)
  {
    var r := RemoveById(s, id);
    assert forall k :: 0 <= k < |r| ==> r[k].id != id;
  }
}
