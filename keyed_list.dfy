/** A list of products keyed by `id`, and the operations both the store and
    the backend perform on it: `findIndex`/`find` by id, overwrite at an
    index, `splice` of one index and `filter` on the id. Ids are not assumed
    to be unique; the lemmas that need uniqueness say so. */
module KeyedList {
  import opened Wrappers
  import opened ProductTypes

  /** No two elements share an id. */
  predicate UniqueIds(ps: seq<Product>) {
    forall i, j :: 0 <= i < j < |ps| ==> ps[i].id != ps[j].id
  }

  predicate HasId(ps: seq<Product>, id: string) {
    exists i :: 0 <= i < |ps| && ps[i].id == id
  }

  /** `ps.findIndex(p => p.id === id)`: the first position holding `id`, or
      -1 when there is none. */
  function IndexOfId(ps: seq<Product>, id: string): (r: int)
    ensures -1 <= r < |ps|
    ensures r == -1 <==> !HasId(ps, id)
    ensures 0 <= r ==> ps[r].id == id && forall i :: 0 <= i < r ==> ps[i].id != id
  {
    if ps == [] then -1
    else if ps[0].id == id then 0
    else
      var k := IndexOfId(ps[1..], id);
      assert forall i :: 1 <= i < |ps| ==> ps[i] == ps[1..][i - 1];
      if k == -1 then -1 else k + 1
  }

  /** The linear search of `findIndex`, as a loop. */
  method FindIndex(ps: seq<Product>, id: string) returns (index: int)
    ensures index == IndexOfId(ps, id)
  {
    var i := 0;
    while i < |ps|
      invariant 0 <= i <= |ps|
      invariant forall j :: 0 <= j < i ==> ps[j].id != id
    {
      if ps[i].id == id {
        FirstMatchIsIndexOf(ps, id, i);
        return i;
      }
      i := i + 1;
    }
    return -1;
  }

  /** The linear search of `find`, as a loop: the first product holding `id`. */
  method Find(ps: seq<Product>, id: string) returns (found: Option<Product>)
    ensures found.None? <==> !HasId(ps, id)
    ensures found.Some? ==> found.value.id == id && found.value == ps[IndexOfId(ps, id)]
  {
    var i := 0;
    while i < |ps|
      invariant 0 <= i <= |ps|
      invariant forall j :: 0 <= j < i ==> ps[j].id != id
    {
      if ps[i].id == id {
        FirstMatchIsIndexOf(ps, id, i);
        return Some(ps[i]);
      }
      i := i + 1;
    }
    return None;
  }

  /** A match preceded by no match is the one `IndexOfId` reports. */
  lemma FirstMatchIsIndexOf(ps: seq<Product>, id: string, k: int)
    requires 0 <= k < |ps| && ps[k].id == id
    requires forall j :: 0 <= j < k ==> ps[j].id != id
    ensures IndexOfId(ps, id) == k
  {
  }

  /** `ps.filter(p => p.id !== id)`. */
  function RemoveId(ps: seq<Product>, id: string): (r: seq<Product>)
    ensures |r| <= |ps|
  {
    if ps == [] then []
    else (if ps[0].id == id then [] else [ps[0]]) + RemoveId(ps[1..], id)
  }

  /** The filter keeps exactly the elements whose id differs. */
  lemma {:induction false} RemoveIdMembers(ps: seq<Product>, id: string)
    ensures forall p :: p in RemoveId(ps, id) <==> p in ps && p.id != id
  {
    if ps != [] {
      RemoveIdMembers(ps[1..], id);
      assert ps == [ps[0]] + ps[1..];
    }
  }

  /** The filter distributes over concatenation, so it keeps the surviving
      elements in their original order. */
  lemma {:induction false} RemoveIdAppend(a: seq<Product>, b: seq<Product>, id: string)
    ensures RemoveId(a + b, id) == RemoveId(a, id) + RemoveId(b, id)
  {
    if a == [] {
      assert a + b == b;
    } else {
      assert (a + b)[1..] == a[1..] + b;
      RemoveIdAppend(a[1..], b, id);
    }
  }

  /** Filtering a list that does not contain `id` changes nothing. */
  lemma {:induction false} RemoveIdAbsent(ps: seq<Product>, id: string)
    requires !HasId(ps, id)
    ensures RemoveId(ps, id) == ps
  {
    if ps != [] {
      assert !HasId(ps[1..], id) by {
        forall i | 0 <= i < |ps[1..]| ensures ps[1..][i].id != id {
          assert ps[1..][i] == ps[i + 1];
        }
      }
      RemoveIdAbsent(ps[1..], id);
    }
  }

  /** After the filter no element holds `id`, and a second filter is a no-op. */
  lemma RemoveIdIdempotent(ps: seq<Product>, id: string)
    ensures !HasId(RemoveId(ps, id), id)
    ensures RemoveId(RemoveId(ps, id), id) == RemoveId(ps, id)
  {
    var r := RemoveId(ps, id);
    RemoveIdMembers(ps, id);
    forall i | 0 <= i < |r| ensures r[i].id != id {
      assert r[i] in r;
    }
    RemoveIdAbsent(r, id);
  }

  /** The filter is a subsequence of a unique list, so it stays unique. */
  lemma {:induction false} RemoveIdKeepsUnique(ps: seq<Product>, id: string)
    requires UniqueIds(ps)
    ensures UniqueIds(RemoveId(ps, id))
  {
    if ps != [] {
      var tail := ps[1..];
      assert UniqueIds(tail) by {
        forall i, j | 0 <= i < j < |tail| ensures tail[i].id != tail[j].id {
          assert tail[i] == ps[i + 1] && tail[j] == ps[j + 1];
        }
      }
      RemoveIdKeepsUnique(tail, id);
      RemoveIdMembers(tail, id);
      var rt := RemoveId(tail, id);
      if ps[0].id != id {
        forall j | 0 <= j < |rt| ensures rt[j].id != ps[0].id {
          assert rt[j] in tail;
          var k :| 0 <= k < |tail| && tail[k] == rt[j];
          assert tail[k] == ps[k + 1];
        }
        assert RemoveId(ps, id) == [ps[0]] + rt;
      }
    }
  }

  /** `ps.splice(k, 1)`: the list without position `k`. */
  function RemoveAt(ps: seq<Product>, k: int): (r: seq<Product>)
    requires 0 <= k < |ps|
    ensures |r| == |ps| - 1
    ensures forall i :: 0 <= i < k ==> r[i] == ps[i]
    ensures forall i :: k <= i < |r| ==> r[i] == ps[i + 1]
  {
    ps[..k] + ps[k + 1..]
  }

  /** With unique ids, the backend's splice of the first match and the
      store's filter on the id remove the same single element. */
  lemma {:induction false} SpliceAgreesWithFilter(ps: seq<Product>, id: string)
    requires UniqueIds(ps) && HasId(ps, id)
    ensures RemoveAt(ps, IndexOfId(ps, id)) == RemoveId(ps, id)
  {
    var k := IndexOfId(ps, id);
    NoMatchAroundUniqueMatch(ps, id, k);
    SpliceOfOnlyMatch(ps, id, k);
  }

  /** Removing the only position that holds `id` is filtering `id` out. */
  lemma {:induction false} SpliceOfOnlyMatch(ps: seq<Product>, id: string, k: int)
    requires 0 <= k < |ps| && ps[k].id == id
    requires !HasId(ps[..k], id) && !HasId(ps[k + 1..], id)
    ensures RemoveAt(ps, k) == RemoveId(ps, id)
  {
    var before, after := ps[..k], ps[k + 1..];
    RemoveIdAbsent(before, id);
    RemoveIdAbsent(after, id);
    assert RemoveId([ps[k]], id) == [];
    assert ps[k..] == [ps[k]] + after;
    assert ps == before + ps[k..];
    RemoveIdAppend([ps[k]], after, id);
    RemoveIdAppend(before, [ps[k]] + after, id);
  }

  /** In a unique list, the positions before and after the first match
      hold other ids. */
  lemma {:induction false} NoMatchAroundUniqueMatch(ps: seq<Product>, id: string, k: int)
    requires UniqueIds(ps) && k == IndexOfId(ps, id) && 0 <= k
    ensures !HasId(ps[..k], id) && !HasId(ps[k + 1..], id)
  {
  }

  /** Without unique ids the two deletions differ: the filter drops every
      duplicate, the splice only the first. */
  lemma SpliceDiffersFromFilterOnDuplicates(p: Product)
    ensures |RemoveAt([p, p], IndexOfId([p, p], p.id))| == 1
    ensures RemoveId([p, p], p.id) == []
  {
  }

  /** Overwriting position `k` with a product carrying the same id as the old
      occupant keeps the ids unique. */
  lemma ReplaceKeepsUnique(ps: seq<Product>, k: int, p: Product)
    requires UniqueIds(ps) && 0 <= k < |ps| && p.id == ps[k].id
    ensures UniqueIds(ps[k := p])
  {
  }

  /** Appending a product whose id is new keeps the ids unique. */
  lemma AppendFreshKeepsUnique(ps: seq<Product>, p: Product)
    requires UniqueIds(ps) && !HasId(ps, p.id)
    ensures UniqueIds(ps + [p])
  {
  }

  /** Removing one position keeps the ids unique. */
  lemma RemoveAtKeepsUnique(ps: seq<Product>, k: int)
    requires UniqueIds(ps) && 0 <= k < |ps|
    ensures UniqueIds(RemoveAt(ps, k))
  {
  }
}
