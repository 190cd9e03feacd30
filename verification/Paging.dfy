/** Keyset paging: the `size` least keys above a cursor, as an ORDER BY key LIMIT size query returns them. */
module Paging {
  import opened Options

  predicate Ascending(s: seq<int>) {
    forall i, k :: 0 <= i < k < |s| ==> s[i] < s[k]
  }

  predicate Above(after: Option<int>, key: int) {
    after.Some? ==> after.value < key
  }

  /** `page` is the ascending list of the least keys above the cursor; it is short only if they run out. */
  ghost predicate IsPage(keys: set<int>, after: Option<int>, size: nat, page: seq<int>) {
    && Ascending(page) && |page| <= size
    && (forall k :: k in page ==> k in keys && Above(after, k))
    && (forall k :: k in keys && Above(after, k) && k !in page ==> |page| == size && forall p :: p in page ==> p < k)
  }

  lemma {:induction false} LeastKey(keys: set<int>)
    ensures keys == {} || exists m :: m in keys && forall k :: k in keys ==> m <= k
    decreases |keys|
  {
    if x :| x in keys {
      LeastKey(keys - {x});
      assert forall k :: k in keys ==> k == x || k in keys - {x};
      if m :| m in keys - {x} && forall k :: k in keys - {x} ==> m <= k {
        var least := if x < m then x else m;
        assert least in keys && forall k :: k in keys ==> least <= k;
      } else {
        assert forall k :: k in keys ==> x <= k;
      }
    } else {
      assert forall x :: x in keys <==> x in {};
    }
  }

  method TakePage(keys: set<int>, after: Option<int>, size: nat) returns (page: seq<int>)
    ensures IsPage(keys, after, size, page)
  {
    page := [];
    var rest := set k | k in keys && Above(after, k);
    while rest != {} && |page| < size
      invariant Ascending(page) && |page| <= size
      invariant forall k :: k in keys && Above(after, k) <==> k in page || k in rest
      invariant forall p, k :: p in page && k in rest ==> p < k
      decreases |rest|
    {
      LeastKey(rest);
      var m :| m in rest && forall k :: k in rest ==> m <= k;
      assert forall i :: 0 <= i < |page| ==> page[i] in page;
      page := page + [m];
      rest := rest - {m};
    }
  }

  /** Keys up to the cursor, in order and once each: all those of `low`, none outside `high`. */
  ghost predicate Swept(low: set<int>, high: set<int>, after: Option<int>, visited: seq<int>) {
    && Ascending(visited)
    && (forall k :: k in low && !Above(after, k) ==> k in visited)
    && (forall k :: k in visited ==> k in high && !Above(after, k))
    && (after.None? ==> visited == []) && (after.Some? ==> visited != [] && visited[|visited| - 1] == after.value)
  }

  /** A page taken from keys between `low` and `high` moves the cursor past exactly its own keys, and is the
      last one if it is short. */
  lemma PageAdvances(low: set<int>, keys: set<int>, high: set<int>, after: Option<int>, size: nat,
                     visited: seq<int>, page: seq<int>)
    requires Swept(low, high, after, visited) && low <= keys <= high && IsPage(keys, after, size, page) && page != []
    ensures Swept(low, high, Some(page[|page| - 1]), visited + page)
    ensures page[0] in high && page[0] !in visited
    ensures |page| < size ==> forall k :: k in low ==> k in visited + page
  {
    var last := page[|page| - 1];
    var visited' := visited + page;
    assert page[0] in page && last in page;
    assert forall p :: p in page ==> p <= last;
    assert forall v :: v in visited ==> !Above(after, v);
    forall i, k | 0 <= i < k < |visited'|
      ensures visited'[i] < visited'[k]
    {
      if i < |visited| <= k {
        assert visited[i] in visited && page[k - |visited|] in page;
      }
    }
    assert forall k :: k in low && |page| < size && Above(after, k) ==> k in page;
  }

  /** A page depends only on the keys above its cursor. */
  lemma SamePage(keys: set<int>, keys': set<int>, after: Option<int>, size: nat, page: seq<int>)
    requires IsPage(keys, after, size, page)
    requires forall k :: Above(after, k) ==> (k in keys <==> k in keys')
    ensures IsPage(keys', after, size, page)
  {
  }

  /** A short page is the last one. */
  lemma ShortPageIsLast(keys: set<int>, after: Option<int>, size: nat, page: seq<int>)
    requires IsPage(keys, after, size, page) && |page| < size
    ensures forall k :: k in keys && Above(after, k) ==> k in page
  {
  }
}
