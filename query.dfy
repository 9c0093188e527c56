/**
 * The part of the document store the handlers rely on: a collection is a map from
 * document id to document, a listing is `find(filter).sort("createdAt", -1)`
 * followed by `to_list(length=limit)`, and a count is `count_documents(filter)`.
 *
 * A listing is specified by `IsCursor`: the matching documents, each once, newest
 * first, at most `limit` of them, and no matching document left out unless the limit
 * was reached with documents at least as new. The order among documents with equal
 * creation times is the store's choice and is left open.
 */
module Query {
  import opened Models

  /** Distinct ids hold distinct documents (every stored document carries its own id). */
  ghost predicate Injective<T>(docs: map<Id, T>)
  {
    forall k1, k2 :: k1 in docs && k2 in docs && k1 != k2 ==> docs[k1] != docs[k2]
  }

  ghost predicate IsCursor<T>(r: seq<T>, docs: map<Id, T>, keep: T -> bool, created: T -> Timestamp, limit: nat)
  {
    && |r| <= limit
    && (forall i, j :: 0 <= i < j < |r| ==> r[i] != r[j])
    && (forall i :: 0 <= i < |r| ==> r[i] in docs.Values && keep(r[i]))
    && (forall i, j :: 0 <= i < j < |r| ==> created(r[j]) <= created(r[i]))
    && (forall k :: k in docs && keep(docs[k]) && docs[k] !in r ==>
          0 < limit == |r| && created(docs[k]) <= created(r[limit - 1]))
  }

  /**
   * `count_documents(filter)`: how many documents of the collection pass `keep`. It is
   * at most the collection size, and equal to it exactly when every document passes.
   */
  function Count<T>(docs: map<Id, T>, keep: T -> bool): (r: nat)
    ensures r <= |docs|
    ensures r == |docs| <==> forall k :: k in docs ==> keep(docs[k])
  {
    var ks := set k | k in docs && keep(docs[k]);
    assert |docs.Keys| == |docs|;
    SubsetCard(ks, docs.Keys);
    if |ks| == |docs| then
      SubsetSameCard(ks, docs.Keys);
      assert forall k :: k in docs ==> k in ks;
      |ks|
    else
      assert (forall k :: k in docs ==> k in ks) ==> ks == docs.Keys;
      |ks|
  }

  function Min(a: nat, b: nat): nat { if a <= b then a else b }

  // ---------------------------------------------------------------- the cursor

  ghost predicate Distinct(ks: seq<Id>)
  {
    forall i, j :: 0 <= i < j < |ks| ==> ks[i] != ks[j]
  }

  ghost predicate NewestFirst<T>(ks: seq<Id>, docs: map<Id, T>, created: T -> Timestamp)
    requires forall i :: 0 <= i < |ks| ==> ks[i] in docs
  {
    forall i, j :: 0 <= i < j < |ks| ==> created(docs[ks[j]]) <= created(docs[ks[i]])
  }

  /** Puts `k` into the newest-first list `ks` ahead of every document older than it. */
  function InsertNewest<T>(ks: seq<Id>, k: Id, docs: map<Id, T>, created: T -> Timestamp): (r: seq<Id>)
    requires k in docs && forall i :: 0 <= i < |ks| ==> ks[i] in docs
    ensures multiset(r) == multiset(ks) + multiset{k}
    ensures |r| == |ks| + 1
    ensures forall x :: x in r <==> x == k || x in ks
  {
    if ks == [] || created(docs[ks[0]]) <= created(docs[k]) then
      [k] + ks
    else
      var rest := InsertNewest(ks[1..], k, docs, created);
      assert forall x :: x in ks[1..] ==> x in ks;
      assert ks == [ks[0]] + ks[1..];
      [ks[0]] + rest
  }

  lemma {:induction false} InsertNewestSorted<T>(ks: seq<Id>, k: Id, docs: map<Id, T>, created: T -> Timestamp)
    requires k in docs && forall i :: 0 <= i < |ks| ==> ks[i] in docs
    requires NewestFirst(ks, docs, created)
    ensures forall i :: 0 <= i < |ks| + 1 ==> InsertNewest(ks, k, docs, created)[i] in docs
    ensures NewestFirst(InsertNewest(ks, k, docs, created), docs, created)
  {
    var r := InsertNewest(ks, k, docs, created);
    forall i | 0 <= i < |r| ensures r[i] in docs {
      assert r[i] in r;
      if r[i] != k {
        var m :| 0 <= m < |ks| && ks[m] == r[i];
      }
    }
    if !(ks == [] || created(docs[ks[0]]) <= created(docs[k])) {
      var tail := ks[1..];
      var rest := InsertNewest(tail, k, docs, created);
      InsertNewestSorted(tail, k, docs, created);
      assert r == [ks[0]] + rest;
      forall j | 0 <= j < |rest| ensures created(docs[rest[j]]) <= created(docs[ks[0]]) {
        assert rest[j] in rest;
        if rest[j] != k {
          var m :| 0 <= m < |tail| && tail[m] == rest[j];
          assert ks[m + 1] == rest[j];
        }
      }
      assert forall i :: 0 < i < |r| ==> r[i] == rest[i - 1];
    }
  }

  lemma {:induction false} InsertNewestDistinct<T>(ks: seq<Id>, k: Id, docs: map<Id, T>, created: T -> Timestamp)
    requires k in docs && forall i :: 0 <= i < |ks| ==> ks[i] in docs
    requires Distinct(ks) && k !in ks
    ensures Distinct(InsertNewest(ks, k, docs, created))
  {
    var r := InsertNewest(ks, k, docs, created);
    if !(ks == [] || created(docs[ks[0]]) <= created(docs[k])) {
      var tail := ks[1..];
      var rest := InsertNewest(tail, k, docs, created);
      assert forall x :: x in tail ==> x in ks;
      InsertNewestDistinct(tail, k, docs, created);
      assert r == [ks[0]] + rest;
      forall m | 0 <= m < |tail| ensures tail[m] != ks[0] {
        assert tail[m] == ks[m + 1];
      }
      assert ks[0] !in rest;
      assert forall i :: 0 < i < |r| ==> r[i] == rest[i - 1];
    }
  }

  /**
   * Runs the store's query: visits every document once, keeps those `keep` accepts
   * in newest-first order, and cuts the list at `limit`.
   */
  method Find<T(==)>(docs: map<Id, T>, keep: T -> bool, created: T -> Timestamp, limit: nat) returns (r: seq<T>)
    requires 0 < limit
    requires Injective(docs)
    ensures IsCursor(r, docs, keep, created, limit)
  {
    var sorted: seq<Id> := [];
    var rest := docs.Keys;
    while rest != {}
      invariant rest <= docs.Keys
      invariant forall i :: 0 <= i < |sorted| ==> sorted[i] in docs && sorted[i] !in rest && keep(docs[sorted[i]])
      invariant Distinct(sorted)
      invariant NewestFirst(sorted, docs, created)
      invariant forall k :: k in docs && k !in rest && keep(docs[k]) ==> k in sorted
      decreases rest
    {
      var k :| k in rest;
      rest := rest - {k};
      if keep(docs[k]) {
        ghost var before := sorted;
        InsertNewestSorted(sorted, k, docs, created);
        InsertNewestDistinct(sorted, k, docs, created);
        sorted := InsertNewest(sorted, k, docs, created);
        forall i | 0 <= i < |sorted| ensures sorted[i] !in rest && keep(docs[sorted[i]]) {
          assert sorted[i] in sorted;
          if sorted[i] != k {
            var m :| 0 <= m < |before| && before[m] == sorted[i];
          }
        }
      }
    }
    r := TakeNewest(sorted, docs, keep, created, limit);
  }

  /** The first `limit` documents of a newest-first list of ids that covers every match. */
  function TakeNewest<T(==)>(sorted: seq<Id>, docs: map<Id, T>, keep: T -> bool, created: T -> Timestamp, limit: nat): (r: seq<T>)
    requires 0 < limit && Injective(docs)
    requires forall i :: 0 <= i < |sorted| ==> sorted[i] in docs && keep(docs[sorted[i]])
    requires Distinct(sorted) && NewestFirst(sorted, docs, created)
    requires forall k :: k in docs && keep(docs[k]) ==> k in sorted
    ensures IsCursor(r, docs, keep, created, limit)
  {
    var n := if |sorted| <= limit then |sorted| else limit;
    var r := seq(n, i requires 0 <= i < n => docs[sorted[i]]);
    assert forall i :: 0 <= i < n ==> r[i] == docs[sorted[i]];
    assert forall i :: 0 <= i < |r| ==> r[i] in docs.Values by {
      forall i | 0 <= i < |r| ensures r[i] in docs.Values {
        assert docs[sorted[i]] == r[i];
      }
    }
    assert forall k :: k in docs && keep(docs[k]) && docs[k] !in r ==>
             0 < limit == |r| && created(docs[k]) <= created(r[limit - 1]) by {
      forall k | k in docs && keep(docs[k]) && docs[k] !in r
        ensures 0 < limit == |r| && created(docs[k]) <= created(r[limit - 1])
      {
        var j :| 0 <= j < |sorted| && sorted[j] == k;
        assert j >= n;
        assert created(docs[sorted[j]]) <= created(docs[sorted[limit - 1]]);
      }
    }
    r
  }

  // ---------------------------------------------------------------- counting

  lemma SubsetCard<X>(a: set<X>, b: set<X>)
    requires a <= b
    ensures |a| <= |b|
  {
    assert b == a + (b - a);
  }

  /** A list without repeats has as many elements as the set of its elements. */
  lemma {:induction false} DistinctCard<T>(r: seq<T>)
    requires forall i, j :: 0 <= i < j < |r| ==> r[i] != r[j]
    ensures |set x | x in r| == |r|
  {
    if r != [] {
      var tail := r[1..];
      DistinctCard(tail);
      assert (set x | x in r) == (set x | x in tail) + {r[0]};
      forall j | 0 <= j < |tail| ensures tail[j] != r[0] {
        assert tail[j] == r[j + 1];
      }
    }
  }

  /** An injective collection maps a set of its ids onto as many documents. */
  lemma {:induction false} ImageCard<T>(ks: set<Id>, docs: map<Id, T>)
    requires ks <= docs.Keys && Injective(docs)
    ensures |set k | k in ks :: docs[k]| == |ks|
    decreases ks
  {
    if ks != {} {
      var x :| x in ks;
      var smaller := ks - {x};
      ImageCard(smaller, docs);
      assert (set k | k in ks :: docs[k]) == (set k | k in smaller :: docs[k]) + {docs[x]};
    }
  }

  /** Adding a document under an unused id raises a count by one exactly when it passes the filter. */
  lemma CountInsertFresh<T>(docs: map<Id, T>, keep: T -> bool, k: Id, v: T)
    requires k !in docs
    ensures Count(docs[k := v], keep) == Count(docs, keep) + (if keep(v) then 1 else 0)
  {
    var before := set j | j in docs && keep(docs[j]);
    var grown := docs[k := v];
    var after := set j | j in grown && keep(grown[j]);
    if keep(v) {
      assert after == before + {k};
    } else {
      assert after == before;
    }
  }

  /** Removing one document lowers a count by one exactly when that document passes the filter. */
  lemma CountRemove<T>(docs: map<Id, T>, keep: T -> bool, k: Id)
    requires k in docs
    ensures Count(docs, keep) == Count(docs - {k}, keep) + (if keep(docs[k]) then 1 else 0)
  {
    var rest := docs - {k};
    assert docs == rest[k := docs[k]];
    CountInsertFresh(rest, keep, k, docs[k]);
  }

  /** The set of documents of `docs` that pass `keep`. */
  ghost function Matching<T>(docs: map<Id, T>, keep: T -> bool): set<T>
  {
    set k | k in docs && keep(docs[k]) :: docs[k]
  }

  lemma MatchingCard<T>(docs: map<Id, T>, keep: T -> bool)
    requires Injective(docs)
    ensures |Matching(docs, keep)| == Count(docs, keep)
  {
    var ks := set k | k in docs && keep(docs[k]);
    ImageCard(ks, docs);
    assert Matching(docs, keep) == set k | k in ks :: docs[k];
  }

  /** A listing holds as many documents as match, up to its limit. */
  lemma CursorSize<T>(r: seq<T>, docs: map<Id, T>, keep: T -> bool, created: T -> Timestamp, limit: nat)
    requires IsCursor(r, docs, keep, created, limit) && Injective(docs)
    ensures |r| == Min(limit, Count(docs, keep))
  {
    var s := set x | x in r;
    DistinctCard(r);
    MatchingCard(docs, keep);
    var all := Matching(docs, keep);
    forall x | x in s ensures x in all {
      var i :| 0 <= i < |r| && r[i] == x;
      var k :| k in docs && docs[k] == x;
    }
    SubsetCard(s, all);
    if |r| < limit {
      forall x | x in all ensures x in s {
        var k :| k in docs && keep(docs[k]) && docs[k] == x;
      }
      SubsetCard(all, s);
    }
  }

  lemma SubsetSameCard<X>(a: set<X>, b: set<X>)
    requires a <= b && |a| == |b|
    ensures a == b
  {
    assert b == a + (b - a);
    assert |b - a| == 0;
  }

  /** When no more documents match than the limit allows, the listing holds every one of them. */
  lemma CursorComplete<T>(r: seq<T>, docs: map<Id, T>, keep: T -> bool, created: T -> Timestamp, limit: nat, k: Id)
    requires IsCursor(r, docs, keep, created, limit) && Injective(docs)
    requires Count(docs, keep) <= limit
    requires k in docs && keep(docs[k])
    ensures docs[k] in r
  {
    CursorSize(r, docs, keep, created, limit);
    var s := set x | x in r;
    DistinctCard(r);
    MatchingCard(docs, keep);
    var all := Matching(docs, keep);
    forall x | x in s ensures x in all {
      var i :| 0 <= i < |r| && r[i] == x;
      var j :| j in docs && docs[j] == x;
    }
    SubsetSameCard(s, all);
    assert docs[k] in all;
  }
}
