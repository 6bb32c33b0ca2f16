/** Table-level building blocks shared by the four DAOs and by the list
    edits in the screens: filtering in table order, lookup by key, keyed
    replacement, and the two stable sorts the queries and the chart use. */
module Tables {
  import opened Wrappers
  import opened Digits

  // ---- order-preserving sublists ----

  /** `a` is `b` with some elements left out, the rest in their order. */
  predicate IsSublist<T(==)>(a: seq<T>, b: seq<T>)
    decreases |b|
  {
    if a == [] then true
    else if b == [] then false
    else (a[0] == b[0] && IsSublist(a[1..], b[1..])) || IsSublist(a, b[1..])
  }

  lemma {:induction false} SublistRefl<T>(a: seq<T>)
    ensures IsSublist(a, a)
    decreases |a|
  {
    if a != [] { SublistRefl(a[1..]); }
  }

  /** Rows satisfying `p`, in table order: a `WHERE` or a Kotlin `filter`. */
  function Where<T(==)>(rows: seq<T>, p: T -> bool): (r: seq<T>)
    ensures |r| <= |rows|
  {
    if rows == [] then []
    else if p(rows[0]) then [rows[0]] + Where(rows[1..], p)
    else Where(rows[1..], p)
  }

  /** `Where` keeps exactly the rows satisfying `p`. */
  lemma {:induction false} WhereMembers<T>(rows: seq<T>, p: T -> bool)
    ensures forall i :: 0 <= i < |Where(rows, p)| ==> Where(rows, p)[i] in rows && p(Where(rows, p)[i])
    ensures forall i :: 0 <= i < |rows| && p(rows[i]) ==> rows[i] in Where(rows, p)
    decreases |rows|
  {
    if rows != [] {
      var tail := rows[1..];
      WhereMembers(tail, p);
      var r := Where(rows, p);
      var w := Where(tail, p);
      assert r == (if p(rows[0]) then [rows[0]] + w else w);
      forall i | 0 <= i < |r| ensures r[i] in rows && p(r[i]) {
        if !p(rows[0]) || i > 0 {
          var i' := if p(rows[0]) then i - 1 else i;
          assert r[i] == w[i'];
          assert w[i'] in tail && p(w[i']);
          var m :| 0 <= m < |tail| && tail[m] == w[i'];
          assert rows[m + 1] == r[i];
        }
      }
      forall i | 0 <= i < |rows| && p(rows[i]) ensures rows[i] in r {
        if i > 0 { assert rows[i] == tail[i - 1]; }
      }
    }
  }

  /** `Where` keeps the order of the rows it keeps. */
  lemma {:induction false} WhereSublist<T>(rows: seq<T>, p: T -> bool)
    ensures IsSublist(Where(rows, p), rows)
    decreases |rows|
  {
    if rows != [] { WhereSublist(rows[1..], p); }
  }

  lemma {:induction false} WhereConcat<T>(a: seq<T>, b: seq<T>, p: T -> bool)
    ensures Where(a + b, p) == Where(a, p) + Where(b, p)
  {
    if a == [] {
      assert a + b == b;
    } else {
      var c := a + b;
      assert c[0] == a[0] && c[1..] == a[1..] + b;
      WhereConcat(a[1..], b, p);
      assert Where(c, p) == (if p(a[0]) then [a[0]] else []) + Where(c[1..], p);
    }
  }

  /** `Where` keeps every copy of a row that passes and none of one that fails. */
  lemma {:induction false} WhereCounts<T>(rows: seq<T>, p: T -> bool, x: T)
    ensures multiset(Where(rows, p))[x] == if p(x) then multiset(rows)[x] else 0
  {
    if rows != [] {
      WhereCounts(rows[1..], p, x);
      assert rows == [rows[0]] + rows[1..];
    }
  }

  lemma {:induction false} WhereAll<T>(rows: seq<T>, p: T -> bool)
    requires forall x :: x in rows ==> p(x)
    ensures Where(rows, p) == rows
  {
    if rows != [] { WhereAll(rows[1..], p); }
  }

  lemma {:induction false} WhereNone<T>(rows: seq<T>, p: T -> bool)
    requires forall x :: x in rows ==> !p(x)
    ensures Where(rows, p) == []
  {
    if rows != [] { WhereNone(rows[1..], p); }
  }

  /** Filters that agree on every row give the same rows. */
  lemma {:induction false} WhereSame<T>(rows: seq<T>, p: T -> bool, q: T -> bool)
    requires forall x :: x in rows ==> p(x) == q(x)
    ensures Where(rows, p) == Where(rows, q)
  {
    if rows != [] { WhereSame(rows[1..], p, q); }
  }

  /** Filtering twice is filtering by both conditions. */
  lemma {:induction false} WhereWhere<T>(rows: seq<T>, p: T -> bool, q: T -> bool)
    ensures Where(Where(rows, p), q) == Where(rows, x => p(x) && q(x))
  {
    if rows != [] { WhereWhere(rows[1..], p, q); }
  }

  /** A filter and its negation split the rows between them. */
  lemma {:induction false} WherePartition<T>(rows: seq<T>, p: T -> bool, q: T -> bool)
    requires forall x :: q(x) == !p(x)
    ensures multiset(Where(rows, q)) + multiset(Where(rows, p)) == multiset(rows)
  {
    if rows != [] {
      WherePartition(rows[1..], p, q);
      assert rows == [rows[0]] + rows[1..];
    }
  }

  // ---- keys ----

  predicate HasKey<T, K(==)>(rows: seq<T>, key: T -> K, k: K)
  {
    exists i :: 0 <= i < |rows| && key(rows[i]) == k
  }

  /** No two rows share a key: the table's primary-key constraint. */
  predicate UniqueKeys<T, K(==)>(rows: seq<T>, key: T -> K)
  {
    forall i, j :: 0 <= i < j < |rows| ==> key(rows[i]) != key(rows[j])
  }

  /** Every row of a is a row of b. */
  predicate Within<T(==)>(a: seq<T>, b: seq<T>)
  {
    forall i :: 0 <= i < |a| ==> a[i] in b
  }

  /** Every generated key in use is nonzero and below the next one to issue. */
  predicate IdsBelow<T>(rows: seq<T>, key: T -> int, next: int)
  {
    forall i :: 0 <= i < |rows| ==> key(rows[i]) != 0 && key(rows[i]) < next
  }

  /** Every child row names a parent row: a foreign key. */
  predicate ParentsExist<C, P, K(==)>(children: seq<C>, owner: C -> K, parents: seq<P>, pkey: P -> K)
  {
    forall i :: 0 <= i < |children| ==> HasKey(parents, pkey, owner(children[i]))
  }

  /** Fewer rows, a larger bound: keys stay issued. */
  lemma IdsBelowWithin<T>(a: seq<T>, b: seq<T>, key: T -> int, n: int, m: int)
    requires Within(a, b) && IdsBelow(b, key, n) && n <= m
    ensures IdsBelow(a, key, m)
  {
    forall i | 0 <= i < |a| ensures key(a[i]) != 0 && key(a[i]) < m {
      var j :| 0 <= j < |b| && b[j] == a[i];
    }
  }

  /** Appending rows issued under a later bound. */
  lemma IdsBelowConcat<T>(a: seq<T>, b: seq<T>, key: T -> int, n: int, m: int)
    requires IdsBelow(a, key, n) && IdsBelow(b, key, m) && n <= m
    ensures IdsBelow(a + b, key, m)
  {
    forall i | 0 <= i < |a + b| ensures key((a + b)[i]) != 0 && key((a + b)[i]) < m {
      if i < |a| { assert (a + b)[i] == a[i]; } else { assert (a + b)[i] == b[i - |a|]; }
    }
  }

  /** Fewer children, no parent key lost: the foreign key still holds. */
  lemma ParentsExistWithin<C, P, K>(a: seq<C>, b: seq<C>, owner: C -> K, ps: seq<P>, qs: seq<P>, pkey: P -> K)
    requires Within(a, b) && ParentsExist(b, owner, ps, pkey)
    requires forall k :: HasKey(ps, pkey, k) ==> HasKey(qs, pkey, k)
    ensures ParentsExist(a, owner, qs, pkey)
  {
    forall i | 0 <= i < |a| ensures HasKey(qs, pkey, owner(a[i])) {
      var j :| 0 <= j < |b| && b[j] == a[i];
      assert HasKey(ps, pkey, owner(b[j]));
    }
  }

  /** The first row with key `k`, if any: `SELECT … WHERE id = :id`. */
  function Find<T(==), K(==)>(rows: seq<T>, key: T -> K, k: K): (r: Option<T>)
    ensures r.None? <==> !HasKey(rows, key, k)
    ensures r.Some? ==> r.value in rows && key(r.value) == k
    ensures r.Some? ==> exists i :: (0 <= i < |rows| && rows[i] == r.value
      && forall j :: 0 <= j < i ==> key(rows[j]) != k)
  {
    if rows == [] then None
    else if key(rows[0]) == k then Some(rows[0])
    else
      var r := Find(rows[1..], key, k);
      assert HasKey(rows, key, k) ==> HasKey(rows[1..], key, k) by {
        if HasKey(rows, key, k) {
          var i :| 0 <= i < |rows| && key(rows[i]) == k;
          assert key(rows[1..][i - 1]) == k;
        }
      }
      if r.Some? then
        var i :| 0 <= i < |rows[1..]| && rows[1..][i] == r.value && forall j :: 0 <= j < i ==> key(rows[1..][j]) != k;
        assert rows[i + 1] == r.value && forall j :: 0 <= j < i + 1 ==> key(rows[j]) != k;
        r
      else r
  }

  /** With unique keys, the row found is the only one with that key. */
  lemma FindUnique<T, K>(rows: seq<T>, key: T -> K, i: nat)
    requires UniqueKeys(rows, key) && i < |rows|
    ensures Find(rows, key, key(rows[i])) == Some(rows[i])
  {
    var r := Find(rows, key, key(rows[i]));
    assert HasKey(rows, key, key(rows[i]));
    var j :| 0 <= j < |rows| && rows[j] == r.value && forall m :: 0 <= m < j ==> key(rows[m]) != key(rows[i]);
  }

  /** Every row with key `k` replaced by `x`, in place: an `UPDATE … WHERE id`. */
  function ReplaceKey<T, K(==)>(rows: seq<T>, key: T -> K, k: K, x: T): (r: seq<T>)
    ensures |r| == |rows|
    ensures forall i :: 0 <= i < |rows| ==> r[i] == if key(rows[i]) == k then x else rows[i]
  {
    if rows == [] then []
    else [if key(rows[0]) == k then x else rows[0]] + ReplaceKey(rows[1..], key, k, x)
  }

  /** Replacing the row with one key leaves lookups of every other key alone. */
  lemma {:induction false} FindReplaceOther<T, K>(rows: seq<T>, key: T -> K, x: T, q: K)
    requires q != key(x)
    ensures Find(ReplaceKey(rows, key, key(x), x), key, q) == Find(rows, key, q)
  {
    if rows != [] {
      assert ReplaceKey(rows, key, key(x), x)[1..] == ReplaceKey(rows[1..], key, key(x), x);
      FindReplaceOther(rows[1..], key, x, q);
    }
  }

  /** The filter "key equals k", as one value every caller shares. */
  function KeyIs<T, K(==)>(key: T -> K, k: K): T -> bool
  {
    x => key(x) == k
  }

  function KeyIsNot<T, K(==)>(key: T -> K, k: K): T -> bool
  {
    x => key(x) != k
  }

  /** What the filter "key equals k" keeps. */
  lemma WhereKeyIs<T, K>(rows: seq<T>, key: T -> K, k: K)
    ensures var r := Where(rows, KeyIs(key, k));
      && (forall i :: 0 <= i < |r| ==> r[i] in rows && key(r[i]) == k)
      && (forall i :: 0 <= i < |rows| && key(rows[i]) == k ==> rows[i] in r)
  {
    var r := Where(rows, KeyIs(key, k));
    WhereMembers(rows, KeyIs(key, k));
    forall i | 0 <= i < |r| ensures r[i] in rows && key(r[i]) == k {
      assert KeyIs(key, k)(r[i]);
    }
    forall i | 0 <= i < |rows| && key(rows[i]) == k ensures rows[i] in r {
      assert KeyIs(key, k)(rows[i]);
    }
  }

  /** Dropping the rows with key k leaves the rows with any other key as
      they were, and none with key k. */
  lemma {:induction false} WhereOtherKey<T, K>(rows: seq<T>, key: T -> K, k: K, q: K)
    ensures q != k ==> Where(Where(rows, KeyIsNot(key, k)), KeyIs(key, q)) == Where(rows, KeyIs(key, q))
    ensures Where(Where(rows, KeyIsNot(key, k)), KeyIs(key, k)) == []
  {
    if rows != [] { WhereOtherKey(rows[1..], key, k, q); }
  }

  lemma WhereOtherKeys<T, K>(rows: seq<T>, key: T -> K, k: K)
    ensures forall q :: q != k ==> Where(Where(rows, KeyIsNot(key, k)), KeyIs(key, q)) == Where(rows, KeyIs(key, q))
    ensures Where(Where(rows, KeyIsNot(key, k)), KeyIs(key, k)) == []
  {
    forall q | q != k ensures Where(Where(rows, KeyIsNot(key, k)), KeyIs(key, q)) == Where(rows, KeyIs(key, q)) {
      WhereOtherKey(rows, key, k, q);
    }
    WhereOtherKey(rows, key, k, k);
  }

  /** Lookup by any other key is unaffected by dropping key k, and key k is gone. */
  lemma {:induction false} FindOtherKey<T, K>(rows: seq<T>, key: T -> K, k: K, q: K)
    ensures q != k ==> Find(Where(rows, KeyIsNot(key, k)), key, q) == Find(rows, key, q)
    ensures Find(Where(rows, KeyIsNot(key, k)), key, k).None?
  {
    if rows != [] { FindOtherKey(rows[1..], key, k, q); }
  }

  lemma FindOtherKeys<T, K>(rows: seq<T>, key: T -> K, k: K)
    ensures forall q :: q != k ==> Find(Where(rows, KeyIsNot(key, k)), key, q) == Find(rows, key, q)
    ensures Find(Where(rows, KeyIsNot(key, k)), key, k).None?
  {
    forall q | q != k ensures Find(Where(rows, KeyIsNot(key, k)), key, q) == Find(rows, key, q) {
      FindOtherKey(rows, key, k, q);
    }
    FindOtherKey(rows, key, k, k);
  }

  /** Two filters can be applied in either order. */
  lemma {:induction false} WhereCommute<T>(rows: seq<T>, p: T -> bool, q: T -> bool)
    ensures Where(Where(rows, p), q) == Where(Where(rows, q), p)
  {
    if rows != [] { WhereCommute(rows[1..], p, q); }
  }

  /** A first filter that keeps every row the second one wants changes nothing. */
  lemma {:induction false} WhereFilterIrrelevant<T>(rows: seq<T>, p: T -> bool, q: T -> bool)
    requires forall i :: 0 <= i < |rows| && q(rows[i]) ==> p(rows[i])
    ensures Where(Where(rows, p), q) == Where(rows, q)
  {
    if rows != [] {
      assert forall i :: 0 <= i < |rows[1..]| ==> rows[1..][i] == rows[i + 1];
      WhereFilterIrrelevant(rows[1..], p, q);
    }
  }

  /** Filtering is idempotent. */
  lemma {:induction false} WhereWhereSame<T>(rows: seq<T>, p: T -> bool)
    ensures Where(Where(rows, p), p) == Where(rows, p)
  {
    if rows != [] { WhereWhereSame(rows[1..], p); }
  }

  /** Sequences with the same multiset have the same members. */
  lemma SameMembers<T>(a: seq<T>, b: seq<T>)
    requires multiset(a) == multiset(b)
    ensures forall i :: 0 <= i < |a| ==> a[i] in b
    ensures forall i :: 0 <= i < |b| ==> b[i] in a
  {
    forall i | 0 <= i < |a| ensures a[i] in b {
      assert a[i] in multiset(a);
    }
    forall i | 0 <= i < |b| ensures b[i] in a {
      assert b[i] in multiset(b);
    }
  }

  /** A filter keeps unique keys unique. */
  lemma {:induction false} WhereUnique<T, K>(rows: seq<T>, p: T -> bool, key: T -> K)
    requires UniqueKeys(rows, key)
    ensures UniqueKeys(Where(rows, p), key)
  {
    if rows != [] {
      var tail := rows[1..];
      assert UniqueKeys(tail, key) by {
        forall i, j | 0 <= i < j < |tail| ensures key(tail[i]) != key(tail[j]) {
          assert tail[i] == rows[i + 1] && tail[j] == rows[j + 1];
        }
      }
      WhereUnique(tail, p, key);
      WhereMembers(tail, p);
      var w := Where(tail, p);
      if p(rows[0]) {
        var r := [rows[0]] + w;
        forall i, j | 0 <= i < j < |r| ensures key(r[i]) != key(r[j]) {
          if i == 0 {
            assert r[j] == w[j - 1] && w[j - 1] in tail;
            var m :| 0 <= m < |tail| && tail[m] == w[j - 1];
            assert rows[m + 1] == r[j];
          } else {
            assert r[i] == w[i - 1] && r[j] == w[j - 1];
          }
        }
      }
    }
  }

  /** With unique keys, the rows with key k are exactly the one `Find` gives. */
  lemma {:induction false} WhereKeyIsUnique<T, K>(rows: seq<T>, key: T -> K, k: K)
    requires UniqueKeys(rows, key)
    ensures Where(rows, KeyIs(key, k)) == match Find(rows, key, k) case None => [] case Some(x) => [x]
  {
    if rows != [] {
      var tail := rows[1..];
      assert UniqueKeys(tail, key) by {
        forall i, j | 0 <= i < j < |tail| ensures key(tail[i]) != key(tail[j]) {
          assert tail[i] == rows[i + 1] && tail[j] == rows[j + 1];
        }
      }
      WhereKeyIsUnique(tail, key, k);
      if key(rows[0]) == k {
        assert !HasKey(tail, key, k) by {
          forall i | 0 <= i < |tail| ensures key(tail[i]) != k {
            assert tail[i] == rows[i + 1];
          }
        }
      }
    }
  }

  /** Keys of the rows a filter keeps. */
  lemma WhereHasKey<T, K>(rows: seq<T>, p: T -> bool, key: T -> K, k: K)
    ensures HasKey(Where(rows, p), key, k) <==> exists i :: 0 <= i < |rows| && p(rows[i]) && key(rows[i]) == k
  {
    var w := Where(rows, p);
    WhereMembers(rows, p);
    if HasKey(w, key, k) {
      var i :| 0 <= i < |w| && key(w[i]) == k;
      assert w[i] in rows;
    }
    if exists i :: 0 <= i < |rows| && p(rows[i]) && key(rows[i]) == k {
      var i :| 0 <= i < |rows| && p(rows[i]) && key(rows[i]) == k;
      assert rows[i] in w;
    }
  }

  /** `INSERT OR REPLACE` on an integer key: the row with x's key becomes x
      in place, or x is appended when the key is new. */
  function Upsert<T, K(==,!new)>(rows: seq<T>, key: T -> K, x: T): (r: seq<T>)
    ensures UniqueKeys(rows, key) ==> UniqueKeys(r, key)
    ensures Find(r, key, key(x)) == Some(x)
    ensures Where(r, KeyIsNot(key, key(x))) == Where(rows, KeyIsNot(key, key(x)))
    ensures forall k :: HasKey(r, key, k) <==> HasKey(rows, key, k) || k == key(x)
  {
    if HasKey(rows, key, key(x)) then
      var r := ReplaceKey(rows, key, key(x), x);
      ReplaceKeyFacts(rows, key, x);
      r
    else
      var r := rows + [x];
      WhereConcat(rows, [x], KeyIsNot(key, key(x)));
      assert Where(rows, KeyIsNot(key, key(x))) == Where(rows, KeyIsNot(key, key(x))) + [];
      assert forall k :: HasKey(r, key, k) ==> HasKey(rows, key, k) || k == key(x) by {
        forall k | HasKey(r, key, k) ensures HasKey(rows, key, k) || k == key(x) {
          var i :| 0 <= i < |r| && key(r[i]) == k;
          if i < |rows| { assert key(rows[i]) == k; }
        }
      }
      assert HasKey(r, key, key(x)) by { assert key(r[|rows|]) == key(x); }
      assert forall k :: HasKey(rows, key, k) ==> HasKey(r, key, k) by {
        forall k | HasKey(rows, key, k) ensures HasKey(r, key, k) {
          var i :| 0 <= i < |rows| && key(rows[i]) == k;
          assert r[i] == rows[i];
        }
      }
      assert UniqueKeys(rows, key) ==> UniqueKeys(r, key) by {
        if UniqueKeys(rows, key) {
          forall i, j | 0 <= i < j < |r| ensures key(r[i]) != key(r[j]) {
            if j == |rows| { assert key(rows[i]) != key(x); } else { assert r[i] == rows[i] && r[j] == rows[j]; }
          }
        }
      }
      FindLast(rows, key, x);
      r
  }

  /** Every row after an upsert is x or was there before. */
  lemma UpsertRows<T, K(!new)>(rows: seq<T>, key: T -> K, x: T)
    ensures Within(Upsert(rows, key, x), rows + [x])
  {
    var r := Upsert(rows, key, x);
    forall i | 0 <= i < |r| ensures r[i] in rows + [x] {
      if HasKey(rows, key, key(x)) {
        assert r[i] == if key(rows[i]) == key(x) then x else rows[i];
      } else {
        assert r[i] == (rows + [x])[i];
      }
    }
  }

  /** Dropping the rows with x's key and appending x: keys stay unique, no
      key is lost, and x's key is the only one that can be new. */
  lemma ReplaceByAppend<T, K>(rows: seq<T>, key: T -> K, x: T)
    ensures var r := Where(rows, KeyIsNot(key, key(x))) + [x];
      && (UniqueKeys(rows, key) ==> UniqueKeys(r, key))
      && (forall k :: HasKey(rows, key, k) ==> HasKey(r, key, k))
      && (forall k :: HasKey(Where(rows, KeyIsNot(key, key(x))), key, k) ==> HasKey(rows, key, k))
  {
    var kept := Where(rows, KeyIsNot(key, key(x)));
    var r := kept + [x];
    WhereMembers(rows, KeyIsNot(key, key(x)));
    if UniqueKeys(rows, key) {
      WhereUnique(rows, KeyIsNot(key, key(x)), key);
      forall i, j | 0 <= i < j < |r| ensures key(r[i]) != key(r[j]) {
        assert r[i] == kept[i] && KeyIsNot(key, key(x))(kept[i]);
        if j < |kept| { assert r[j] == kept[j]; }
      }
    }
    forall k | HasKey(rows, key, k) ensures HasKey(r, key, k) {
      if k == key(x) {
        assert r[|kept|] == x;
      } else {
        var m :| 0 <= m < |rows| && key(rows[m]) == k;
        WhereHasKey(rows, KeyIsNot(key, key(x)), key, k);
        assert KeyIsNot(key, key(x))(rows[m]);
        var n :| 0 <= n < |kept| && key(kept[n]) == k;
        assert r[n] == kept[n];
      }
    }
    forall k | HasKey(kept, key, k) ensures HasKey(rows, key, k) {
      WhereHasKey(rows, KeyIsNot(key, key(x)), key, k);
    }
  }

  lemma FindLast<T, K>(rows: seq<T>, key: T -> K, x: T)
    requires !HasKey(rows, key, key(x))
    ensures Find(rows + [x], key, key(x)) == Some(x)
  {
    var r := Find(rows + [x], key, key(x));
    assert HasKey(rows + [x], key, key(x)) by { assert (rows + [x])[|rows|] == x; }
    var i :| 0 <= i < |rows + [x]| && (rows + [x])[i] == r.value && forall j :: 0 <= j < i ==> key((rows + [x])[j]) != key(x);
    if i < |rows| { assert key(rows[i]) == key(x); }
  }

  lemma ReplaceKeyFacts<T, K>(rows: seq<T>, key: T -> K, x: T)
    requires HasKey(rows, key, key(x))
    ensures var r := ReplaceKey(rows, key, key(x), x);
      && (UniqueKeys(rows, key) ==> UniqueKeys(r, key))
      && Find(r, key, key(x)) == Some(x)
      && Where(r, KeyIsNot(key, key(x))) == Where(rows, KeyIsNot(key, key(x)))
      && (forall k :: HasKey(r, key, k) <==> HasKey(rows, key, k))
  {
    ReplaceKeySameKeys(rows, key, x);
    ReplaceKeyFind(rows, key, x);
    WhereReplaceKey(rows, key, x);
  }

  /** Replacing a row by key keeps every row's key. */
  lemma ReplaceKeySameKeys<T, K>(rows: seq<T>, key: T -> K, x: T)
    ensures var r := ReplaceKey(rows, key, key(x), x);
      (forall i :: 0 <= i < |r| ==> key(r[i]) == key(rows[i]))
      && (UniqueKeys(rows, key) ==> UniqueKeys(r, key))
      && (forall k :: HasKey(r, key, k) <==> HasKey(rows, key, k))
  {
    var r := ReplaceKey(rows, key, key(x), x);
    assert forall i :: 0 <= i < |r| ==> key(r[i]) == key(rows[i]);
    forall k ensures HasKey(r, key, k) <==> HasKey(rows, key, k) {
      if HasKey(r, key, k) {
        var i :| 0 <= i < |r| && key(r[i]) == k;
        assert key(rows[i]) == k;
      }
      if HasKey(rows, key, k) {
        var i :| 0 <= i < |rows| && key(rows[i]) == k;
        assert key(r[i]) == k;
      }
    }
  }

  /** After the replace, the replaced key finds the new row. */
  lemma ReplaceKeyFind<T, K>(rows: seq<T>, key: T -> K, x: T)
    requires HasKey(rows, key, key(x))
    ensures Find(ReplaceKey(rows, key, key(x), x), key, key(x)) == Some(x)
  {
    var r := ReplaceKey(rows, key, key(x), x);
    ReplaceKeySameKeys(rows, key, x);
    var f := Find(r, key, key(x));
    var i :| 0 <= i < |r| && r[i] == f.value && forall j :: 0 <= j < i ==> key(r[j]) != key(x);
  }

  lemma {:induction false} WhereReplaceKey<T, K>(rows: seq<T>, key: T -> K, x: T)
    ensures Where(ReplaceKey(rows, key, key(x), x), KeyIsNot(key, key(x))) == Where(rows, KeyIsNot(key, key(x)))
  {
    if rows != [] {
      WhereReplaceKey(rows[1..], key, x);
      assert ReplaceKey(rows, key, key(x), x)[1..] == ReplaceKey(rows[1..], key, key(x), x);
    }
  }

  // ---- rows all under one key, or keys from a bound up ----

  /** Every row has key `k`. */
  predicate AllKeyed<T, K(==)>(rows: seq<T>, key: T -> K, k: K)
    decreases |rows|
  {
    rows == [] || (key(rows[0]) == k && AllKeyed(rows[1..], key, k))
  }

  /** Every row has a key of at least `lo`. */
  predicate KeyedFrom<T>(rows: seq<T>, key: T -> int, lo: int)
    decreases |rows|
  {
    rows == [] || (key(rows[0]) >= lo && KeyedFrom(rows[1..], key, lo))
  }

  /** Filtering rows all under `k0` on a key keeps all of them or none. */
  lemma {:induction false} WhereAllKeyed<T, K>(rows: seq<T>, key: T -> K, k0: K, k: K)
    requires AllKeyed(rows, key, k0)
    ensures Where(rows, KeyIs(key, k)) == if k == k0 then rows else []
    decreases |rows|
  {
    if rows != [] {
      WhereAllKeyed(rows[1..], key, k0, k);
      if k == k0 { assert [rows[0]] + rows[1..] == rows; }
    }
  }

  /** Rows keyed from `lo` up hold nothing under a key below `lo`. */
  lemma {:induction false} WhereBelow<T>(rows: seq<T>, key: T -> int, lo: int, k: int)
    requires KeyedFrom(rows, key, lo) && k < lo
    ensures Where(rows, KeyIs(key, k)) == []
    decreases |rows|
  {
    if rows != [] { WhereBelow(rows[1..], key, lo, k); }
  }

  lemma {:induction false} AllKeyedFrom<T>(rows: seq<T>, key: T -> int, k: int, lo: int)
    requires AllKeyed(rows, key, k) && lo <= k
    ensures KeyedFrom(rows, key, lo)
    decreases |rows|
  {
    if rows != [] { AllKeyedFrom(rows[1..], key, k, lo); }
  }

  lemma {:induction false} KeyedFromWeaken<T>(rows: seq<T>, key: T -> int, lo: int, lo': int)
    requires KeyedFrom(rows, key, lo) && lo' <= lo
    ensures KeyedFrom(rows, key, lo')
    decreases |rows|
  {
    if rows != [] { KeyedFromWeaken(rows[1..], key, lo, lo'); }
  }

  lemma {:induction false} KeyedFromConcat<T>(a: seq<T>, b: seq<T>, key: T -> int, lo: int)
    requires KeyedFrom(a, key, lo) && KeyedFrom(b, key, lo)
    ensures KeyedFrom(a + b, key, lo)
    decreases |a|
  {
    if a == [] {
      assert a + b == b;
    } else {
      assert (a + b)[1..] == a[1..] + b;
      KeyedFromConcat(a[1..], b, key, lo);
    }
  }

  // ---- groups of rows laid out one after another ----

  /** The rows of each group in turn: group j goes under key `a + j` and its
      rows take the positions after those of the groups before it. */
  function Flatten<S, T>(xs: seq<S>, rows: (S, int, int) -> seq<T>, width: S -> nat, a: int, b: int): seq<T>
    decreases |xs|
  {
    if xs == [] then []
    else rows(xs[0], a, b) + Flatten(xs[1..], rows, width, a + 1, b + width(xs[0]))
  }

  /** The first position of group j. */
  function Offset<S>(xs: seq<S>, width: S -> nat, b: int, j: nat): int
    requires j <= |xs|
    decreases j
  {
    if j == 0 then b else Offset(xs[1..], width, b + width(xs[0]), j - 1)
  }

  /** Every group's rows carry that group's key. */
  predicate FlatKeyed<S, T>(xs: seq<S>, rows: (S, int, int) -> seq<T>, width: S -> nat, key: T -> int, a: int, b: int)
    decreases |xs|
  {
    xs == [] || (AllKeyed(rows(xs[0], a, b), key, a) && FlatKeyed(xs[1..], rows, width, key, a + 1, b + width(xs[0])))
  }

  /** Groups whose rows carry their keys lay out rows keyed from `a` up. */
  lemma {:induction false} FlattenFrom<S, T>(xs: seq<S>, rows: (S, int, int) -> seq<T>, width: S -> nat, key: T -> int, a: int, b: int)
    requires FlatKeyed(xs, rows, width, key, a, b)
    ensures KeyedFrom(Flatten(xs, rows, width, a, b), key, a)
    decreases |xs|
  {
    if xs != [] {
      var head := rows(xs[0], a, b);
      var rest := Flatten(xs[1..], rows, width, a + 1, b + width(xs[0]));
      FlattenFrom(xs[1..], rows, width, key, a + 1, b + width(xs[0]));
      AllKeyedFrom(head, key, a, a);
      KeyedFromWeaken(rest, key, a + 1, a);
      KeyedFromConcat(head, rest, key, a);
    }
  }

  /** Rows all under `k0` followed by other rows: filtering on a key takes
      the first part whole or not at all. */
  lemma WhereKeyedConcat<T, K>(head: seq<T>, rest: seq<T>, key: T -> K, k0: K, k: K)
    requires AllKeyed(head, key, k0)
    ensures Where(head + rest, KeyIs(key, k)) == (if k == k0 then head else []) + Where(rest, KeyIs(key, k))
  {
    WhereConcat(head, rest, KeyIs(key, k));
    WhereAllKeyed(head, key, k0, k);
  }

  lemma FlattenAtFirst<S, T>(xs: seq<S>, rows: (S, int, int) -> seq<T>, width: S -> nat, key: T -> int, a: int, b: int)
    requires FlatKeyed(xs, rows, width, key, a, b) && xs != []
    ensures Where(Flatten(xs, rows, width, a, b), KeyIs(key, a)) == rows(xs[0], a, b)
  {
    var rest := Flatten(xs[1..], rows, width, a + 1, b + width(xs[0]));
    WhereKeyedConcat(rows(xs[0], a, b), rest, key, a, a);
    FlattenFrom(xs[1..], rows, width, key, a + 1, b + width(xs[0]));
    WhereBelow(rest, key, a + 1, a);
    assert rows(xs[0], a, b) + [] == rows(xs[0], a, b);
  }

  lemma FlattenAtLater<S, T>(xs: seq<S>, rows: (S, int, int) -> seq<T>, width: S -> nat, key: T -> int, a: int, b: int, k: int)
    requires FlatKeyed(xs, rows, width, key, a, b) && xs != [] && k != a
    ensures Where(Flatten(xs, rows, width, a, b), KeyIs(key, k))
      == Where(Flatten(xs[1..], rows, width, a + 1, b + width(xs[0])), KeyIs(key, k))
  {
    var rest := Flatten(xs[1..], rows, width, a + 1, b + width(xs[0]));
    WhereKeyedConcat(rows(xs[0], a, b), rest, key, a, k);
    assert [] + Where(rest, KeyIs(key, k)) == Where(rest, KeyIs(key, k));
  }

  /** The rows under the key of group j are that group's rows. */
  lemma {:induction false} FlattenAt<S, T>(xs: seq<S>, rows: (S, int, int) -> seq<T>, width: S -> nat, key: T -> int, a: int, b: int, j: nat)
    requires FlatKeyed(xs, rows, width, key, a, b) && j < |xs|
    ensures Where(Flatten(xs, rows, width, a, b), KeyIs(key, a + j)) == rows(xs[j], a + j, Offset(xs, width, b, j))
    decreases j
  {
    if j == 0 {
      FlattenAtFirst(xs, rows, width, key, a, b);
    } else {
      FlattenAtLater(xs, rows, width, key, a, b, a + j);
      FlattenAt(xs[1..], rows, width, key, a + 1, b + width(xs[0]), j - 1);
      assert (a + 1) + (j - 1) == a + j;
      assert xs[1..][j - 1] == xs[j];
    }
  }

  /** Rows of group j that pair off with `payload` of group j are what the
      key of group j selects from the whole layout. */
  lemma FlattenPointwiseAt<S, T, U>(xs: seq<S>, rows: (S, int, int) -> seq<T>, width: S -> nat, key: T -> int,
                                    a: int, b: int, j: nat, payload: S -> seq<U>, rel: (T, U) -> bool)
    requires FlatKeyed(xs, rows, width, key, a, b) && j < |xs|
    requires Pointwise(rows(xs[j], a + j, Offset(xs, width, b, j)), payload(xs[j]), rel)
    ensures Pointwise(Where(Flatten(xs, rows, width, a, b), KeyIs(key, a + j)), payload(xs[j]), rel)
  {
    FlattenAt(xs, rows, width, key, a, b, j);
  }

  // ---- stable sorts ----

  /** `key` does not increase along `s`. */
  predicate SortedDesc<T>(s: seq<T>, key: T -> string)
  {
    forall i, j :: 0 <= i < j < |s| ==> !StrLess(key(s[i]), key(s[j]))
  }

  /** Puts `x` after the leading elements whose key is larger and before the
      rest, so among equal keys `x` comes first. */
  function InsertDesc<T>(x: T, s: seq<T>, key: T -> string): (r: seq<T>)
    ensures |r| == |s| + 1
    ensures multiset(r) == multiset(s) + multiset{x}
  {
    if s == [] || !StrLess(key(x), key(s[0])) then [x] + s
    else
      assert s == [s[0]] + s[1..];
      [s[0]] + InsertDesc(x, s[1..], key)
  }

  /** Stable sort by text key, largest first: `ORDER BY key DESC` with ties
      left in table order. */
  function SortDesc<T>(s: seq<T>, key: T -> string): (r: seq<T>)
    ensures |r| == |s|
    ensures multiset(r) == multiset(s)
  {
    if s == [] then []
    else
      assert s == [s[0]] + s[1..];
      InsertDesc(s[0], SortDesc(s[1..], key), key)
  }

  lemma {:induction false} InsertDescSorted<T>(x: T, s: seq<T>, key: T -> string)
    requires SortedDesc(s, key)
    ensures SortedDesc(InsertDesc(x, s, key), key)
  {
    var r := InsertDesc(x, s, key);
    if s == [] || !StrLess(key(x), key(s[0])) {
      forall i, j | 0 <= i < j < |r| ensures !StrLess(key(r[i]), key(r[j])) {
        if i == 0 {
          assert r[j] == s[j - 1];
          if j - 1 == 0 { StrLessIrreflexive(key(s[0])); }
          NotLessTrans(key(x), key(s[0]), key(s[j - 1]));
        } else {
          assert r[i] == s[i - 1] && r[j] == s[j - 1];
        }
      }
    } else {
      InsertDescSorted(x, s[1..], key);
      var t := InsertDesc(x, s[1..], key);
      assert multiset(t) == multiset(s[1..]) + multiset{x};
      forall i, j | 0 <= i < j < |r| ensures !StrLess(key(r[i]), key(r[j])) {
        if i == 0 {
          assert r[j] == t[j - 1];
          assert t[j - 1] in multiset(t);
          if t[j - 1] == x {
            StrLessAsymmetric(key(x), key(s[0]));
          } else {
            assert t[j - 1] in multiset(s[1..]);
            var m :| 0 <= m < |s[1..]| && s[1..][m] == t[j - 1];
            assert s[m + 1] == t[j - 1];
          }
        } else {
          assert r[i] == t[i - 1] && r[j] == t[j - 1];
        }
      }
    }
  }

  /** "Not less" is transitive on text. */
  lemma NotLessTrans(a: string, b: string, c: string)
    requires !StrLess(a, b) && !StrLess(b, c)
    ensures !StrLess(a, c)
  {
    StrLessTotal(a, b);
    StrLessTotal(b, c);
    if StrLess(a, c) {
      if a == b { } else if b == c { } else {
        StrLessTransitive(c, b, a);
        StrLessAsymmetric(c, a);
      }
    }
  }

  /** The result of the sort is ordered, largest key first. */
  lemma {:induction false} SortDescSorted<T>(s: seq<T>, key: T -> string)
    ensures SortedDesc(SortDesc(s, key), key)
  {
    if s != [] {
      SortDescSorted(s[1..], key);
      InsertDescSorted(s[0], SortDesc(s[1..], key), key);
    }
  }

  /** Two sequences related element by element through `rel`. */
  predicate Pointwise<T, U>(xs: seq<T>, ys: seq<U>, rel: (T, U) -> bool)
  {
    |xs| == |ys| && forall i :: 0 <= i < |xs| ==> rel(xs[i], ys[i])
  }

  lemma PointwiseCons<T, U>(x: T, xs: seq<T>, y: U, ys: seq<U>, rel: (T, U) -> bool)
    requires Pointwise(xs, ys, rel) && rel(x, y)
    ensures Pointwise([x] + xs, [y] + ys, rel)
  {
    forall i | 0 <= i < |xs| + 1 ensures rel(([x] + xs)[i], ([y] + ys)[i]) {
      if i > 0 { assert ([x] + xs)[i] == xs[i - 1] && ([y] + ys)[i] == ys[i - 1]; }
    }
  }

  lemma PointwiseTail<T, U>(xs: seq<T>, ys: seq<U>, rel: (T, U) -> bool)
    requires Pointwise(xs, ys, rel) && xs != []
    ensures Pointwise(xs[1..], ys[1..], rel) && rel(xs[0], ys[0])
  {
    forall i | 0 <= i < |xs| - 1 ensures rel(xs[1..][i], ys[1..][i]) {
      assert xs[1..][i] == xs[i + 1] && ys[1..][i] == ys[i + 1];
    }
  }

  /** Sorting commutes with a relation that preserves keys: sorting rows
      and decoding them gives what decoding and then sorting gives. */
  lemma {:induction false} InsertDescPointwise<T, U>(x: T, xs: seq<T>, y: U, ys: seq<U>,
      kx: T -> string, ky: U -> string, rel: (T, U) -> bool)
    requires Pointwise(xs, ys, rel) && rel(x, y)
    requires forall a, b :: rel(a, b) ==> kx(a) == ky(b)
    ensures Pointwise(InsertDesc(x, xs, kx), InsertDesc(y, ys, ky), rel)
  {
    if xs != [] {
      PointwiseTail(xs, ys, rel);
      assert kx(xs[0]) == ky(ys[0]) && kx(x) == ky(y);
      if StrLess(kx(x), kx(xs[0])) {
        InsertDescPointwise(x, xs[1..], y, ys[1..], kx, ky, rel);
        PointwiseCons(xs[0], InsertDesc(x, xs[1..], kx), ys[0], InsertDesc(y, ys[1..], ky), rel);
        return;
      }
    }
    PointwiseCons(x, xs, y, ys, rel);
  }

  lemma {:induction false} SortDescPointwise<T, U>(xs: seq<T>, ys: seq<U>,
      kx: T -> string, ky: U -> string, rel: (T, U) -> bool)
    requires Pointwise(xs, ys, rel)
    requires forall a, b :: rel(a, b) ==> kx(a) == ky(b)
    ensures Pointwise(SortDesc(xs, kx), SortDesc(ys, ky), rel)
  {
    if xs != [] {
      SortDescPointwise(xs[1..], ys[1..], kx, ky, rel);
      InsertDescPointwise(xs[0], SortDesc(xs[1..], kx), ys[0], SortDesc(ys[1..], ky), kx, ky, rel);
    }
  }

  /** `key` does not decrease along `s`. */
  predicate SortedAsc<T>(s: seq<T>, key: T -> int)
  {
    forall i, j :: 0 <= i < j < |s| ==> key(s[i]) <= key(s[j])
  }

  /** Puts `x` before the first element with a larger key, so among equal
      keys `x` comes last. */
  function InsertAsc<T>(s: seq<T>, x: T, key: T -> int): (r: seq<T>)
    ensures |r| == |s| + 1
    ensures multiset(r) == multiset(s) + multiset{x}
  {
    if s == [] || key(s[|s| - 1]) <= key(x) then s + [x]
    else
      assert s == s[..|s| - 1] + [s[|s| - 1]];
      InsertAsc(s[..|s| - 1], x, key) + [s[|s| - 1]]
  }

  /** Stable sort by integer key, smallest first: Kotlin's `sortedBy`. */
  function SortAsc<T>(s: seq<T>, key: T -> int): (r: seq<T>)
    ensures |r| == |s|
    ensures multiset(r) == multiset(s)
  {
    if s == [] then []
    else
      assert s == s[..|s| - 1] + [s[|s| - 1]];
      InsertAsc(SortAsc(s[..|s| - 1], key), s[|s| - 1], key)
  }

  lemma {:induction false} InsertAscSorted<T>(s: seq<T>, x: T, key: T -> int)
    requires SortedAsc(s, key)
    ensures SortedAsc(InsertAsc(s, x, key), key)
  {
    if s != [] && key(s[|s| - 1]) > key(x) {
      var init := s[..|s| - 1];
      InsertAscSorted(init, x, key);
      var t := InsertAsc(init, x, key);
      var r := t + [s[|s| - 1]];
      forall i, j | 0 <= i < j < |r| ensures key(r[i]) <= key(r[j]) {
        if j == |r| - 1 {
          assert r[i] in multiset(t);
          if r[i] != x {
            assert r[i] in multiset(init);
            var m :| 0 <= m < |init| && init[m] == r[i];
            assert s[m] == r[i];
          }
        } else {
          assert r[i] == t[i] && r[j] == t[j];
        }
      }
    }
  }

  lemma {:induction false} SortAscSorted<T>(s: seq<T>, key: T -> int)
    ensures SortedAsc(SortAsc(s, key), key)
  {
    if s != [] {
      SortAscSorted(s[..|s| - 1], key);
      InsertAscSorted(SortAsc(s[..|s| - 1], key), s[|s| - 1], key);
    }
  }

  /** `InsertAsc` places `x` after every element with its key, so the
      elements of any one key keep their order, `x` last among its own. */
  lemma {:induction false} InsertAscStable<T>(s: seq<T>, x: T, key: T -> int, k: int)
    ensures Where(InsertAsc(s, x, key), KeyIs(key, k))
      == Where(s, KeyIs(key, k)) + (if key(x) == k then [x] else [])
  {
    var p := KeyIs(key, k);
    if s == [] || key(s[|s| - 1]) <= key(x) {
      WhereConcat(s, [x], p);
      assert [x][1..] == [];
    } else {
      var init, last := s[..|s| - 1], s[|s| - 1];
      assert s == init + [last];
      InsertAscStable(init, x, key, k);
      WhereConcat(InsertAsc(init, x, key), [last], p);
      WhereConcat(init, [last], p);
      assert [last][1..] == [];
    }
  }

  /** `SortAsc` is stable: the elements sharing a key come out in their
      input order. */
  lemma {:induction false} SortAscStable<T>(s: seq<T>, key: T -> int, k: int)
    ensures Where(SortAsc(s, key), KeyIs(key, k)) == Where(s, KeyIs(key, k))
  {
    if s != [] {
      var init, last := s[..|s| - 1], s[|s| - 1];
      assert s == init + [last];
      SortAscStable(init, key, k);
      InsertAscStable(SortAsc(init, key), last, key, k);
      WhereConcat(init, [last], KeyIs(key, k));
      assert [last][1..] == [];
    }
  }
}
