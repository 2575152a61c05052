// Table operations shared by the cleaner and the validators: duplicate
// removal keeping first occurrences, and key sets for referential checks.
module Tables {
  import opened Common

  // ---------------------------------------------------------------------
  // Order-preserving subsequences
  // ---------------------------------------------------------------------

  /** `a` can be obtained from `b` by deleting elements. */
  predicate Subseq<T(==)>(a: seq<T>, b: seq<T>)
    decreases |b|
  {
    if a == [] then true
    else if b == [] then false
    else (a[0] == b[0] && Subseq(a[1..], b[1..])) || Subseq(a, b[1..])
  }

  lemma {:induction false} SubseqElements<T(!new)>(a: seq<T>, b: seq<T>)
    requires Subseq(a, b)
    ensures forall x :: x in a ==> x in b
    decreases |b|
  {
    if a != [] && b != [] {
      if a[0] == b[0] && Subseq(a[1..], b[1..]) {
        SubseqElements(a[1..], b[1..]);
        forall x | x in a ensures x in b {
          if x != a[0] { assert x in a[1..]; }
        }
      } else {
        SubseqElements(a, b[1..]);
      }
    }
  }

  lemma {:induction false} SubseqTransitive<T>(a: seq<T>, b: seq<T>, c: seq<T>)
    requires Subseq(a, b) && Subseq(b, c)
    ensures Subseq(a, c)
    decreases |c|
  {
    if a != [] {
      assert b != [] && c != [];
      if b[0] == c[0] && Subseq(b[1..], c[1..]) {
        if a[0] == b[0] && Subseq(a[1..], b[1..]) {
          SubseqTransitive(a[1..], b[1..], c[1..]);
        } else {
          SubseqTransitive(a, b[1..], c[1..]);
        }
      } else {
        SubseqTransitive(a, b, c[1..]);
      }
    }
  }

  // ---------------------------------------------------------------------
  // drop_duplicates(keep='first')
  // ---------------------------------------------------------------------

  predicate DistinctKeys<T, K(==)>(s: seq<T>, key: T -> K)
  {
    forall i, j :: 0 <= i < j < |s| ==> key(s[i]) != key(s[j])
  }

  function Keys<T(==,!new), K>(s: seq<T>, key: T -> K): set<K>
  {
    set x | x in s :: key(x)
  }

  /** `x` occurs in `s` before any other element with the same key. */
  predicate FirstOfItsKey<T(==,!new), K(==)>(s: seq<T>, key: T -> K, x: T)
  {
    exists j :: 0 <= j < |s| && s[j] == x && forall i :: 0 <= i < j ==> key(s[i]) != key(x)
  }

  /** Keeps the first row of each key not yet in `seen`. */
  function DedupFrom<T(==,!new), K(==)>(s: seq<T>, key: T -> K, seen: set<K>): (r: seq<T>)
    ensures |r| <= |s|
  {
    if s == [] then []
    else if key(s[0]) in seen then DedupFrom(s[1..], key, seen)
    else [s[0]] + DedupFrom(s[1..], key, seen + {key(s[0])})
  }

  lemma {:induction false} DedupFromSubseq<T(!new), K>(s: seq<T>, key: T -> K, seen: set<K>)
    ensures Subseq(DedupFrom(s, key, seen), s)
  {
    if s != [] {
      if key(s[0]) in seen {
        DedupFromSubseq(s[1..], key, seen);
      } else {
        var rest := DedupFrom(s[1..], key, seen + {key(s[0])});
        DedupFromSubseq(s[1..], key, seen + {key(s[0])});
        assert ([s[0]] + rest)[1..] == rest;
      }
    }
  }

  lemma {:induction false} DedupFromDistinct<T(!new), K>(s: seq<T>, key: T -> K, seen: set<K>)
    ensures var r := DedupFrom(s, key, seen);
      DistinctKeys(r, key) && forall x :: x in r ==> key(x) !in seen && x in s
  {
    if s != [] {
      if key(s[0]) in seen {
        DedupFromDistinct(s[1..], key, seen);
      } else {
        var rest := DedupFrom(s[1..], key, seen + {key(s[0])});
        DedupFromDistinct(s[1..], key, seen + {key(s[0])});
        var r := [s[0]] + rest;
        forall i, j | 0 <= i < j < |r| ensures key(r[i]) != key(r[j]) {
          assert r[j] == rest[j - 1];
          if i > 0 { assert r[i] == rest[i - 1]; }
        }
      }
    }
  }

  lemma FirstOfItsKeyInTail<T(!new), K>(s: seq<T>, key: T -> K, x: T)
    requires s != [] && FirstOfItsKey(s[1..], key, x) && key(s[0]) != key(x)
    ensures FirstOfItsKey(s, key, x)
  {
    var j :| 0 <= j < |s[1..]| && s[1..][j] == x && forall i :: 0 <= i < j ==> key(s[1..][i]) != key(x);
    assert s[j + 1] == x;
    forall i | 0 <= i < j + 1 ensures key(s[i]) != key(x) {
      if i > 0 { assert s[i] == s[1..][i - 1]; }
    }
  }

  lemma {:induction false} DedupFromFirst<T(!new), K>(s: seq<T>, key: T -> K, seen: set<K>)
    ensures forall x :: x in DedupFrom(s, key, seen) ==> FirstOfItsKey(s, key, x)
  {
    if s != [] {
      var seen' := if key(s[0]) in seen then seen else seen + {key(s[0])};
      var rest := DedupFrom(s[1..], key, seen');
      DedupFromFirst(s[1..], key, seen');
      DedupFromDistinct(s[1..], key, seen');
      forall x | x in rest ensures FirstOfItsKey(s, key, x) {
        FirstOfItsKeyInTail(s, key, x);
      }
      assert FirstOfItsKey(s, key, s[0]) by { assert s[0] == s[0]; }
    }
  }

  lemma {:induction false} DedupFromKeys<T(!new), K>(s: seq<T>, key: T -> K, seen: set<K>)
    ensures Keys(DedupFrom(s, key, seen), key) == Keys(s, key) - seen
  {
    if s != [] {
      assert Keys(s, key) == {key(s[0])} + Keys(s[1..], key) by {
        assert forall x :: x in s <==> x == s[0] || x in s[1..];
      }
      if key(s[0]) in seen {
        DedupFromKeys(s[1..], key, seen);
      } else {
        var rest := DedupFrom(s[1..], key, seen + {key(s[0])});
        DedupFromKeys(s[1..], key, seen + {key(s[0])});
        assert Keys([s[0]] + rest, key) == {key(s[0])} + Keys(rest, key) by {
          assert forall x :: x in [s[0]] + rest <==> x == s[0] || x in rest;
        }
      }
    }
  }

  /** `drop_duplicates(subset=key, keep='first')`. */
  function DedupBy<T(==,!new), K(==)>(s: seq<T>, key: T -> K): (r: seq<T>)
    ensures Subseq(r, s)
    ensures DistinctKeys(r, key)
    ensures Keys(r, key) == Keys(s, key)
    ensures forall x :: x in r ==> FirstOfItsKey(s, key, x)
  {
    DedupFromSubseq(s, key, {});
    DedupFromDistinct(s, key, {});
    DedupFromFirst(s, key, {});
    DedupFromKeys(s, key, {});
    DedupFrom(s, key, {})
  }

  function Whole<T>(x: T): T { x }

  /** `drop_duplicates()` on whole rows: one copy of each distinct row, in order of first appearance. */
  function Dedup<T(==,!new)>(s: seq<T>): (r: seq<T>)
    ensures Subseq(r, s)
    ensures forall i, j :: 0 <= i < j < |r| ==> r[i] != r[j]
    ensures forall x :: x in r <==> x in s
  {
    var r := DedupBy(s, Whole);
    SubseqElements(r, s);
    assert forall x :: x in s ==> x in r by {
      forall x | x in s ensures x in r {
        assert Whole(x) in Keys(s, Whole);
      }
    }
    r
  }

  // ---------------------------------------------------------------------
  // Key sets and orphans
  // ---------------------------------------------------------------------

  /** The distinct non-missing values of a key column (`set(col.dropna())`). */
  function KeySet<K>(col: seq<Option<K>>): set<K>
  {
    set k | 0 <= k < |col| && col[k].Some? :: col[k].value
  }

  /** Child keys with no parent. */
  function Orphans<K(==,!new)>(parent: seq<Option<K>>, child: seq<Option<K>>): (o: set<K>)
    ensures o <= KeySet(child)
    ensures o == {} <==> KeySet(child) <= KeySet(parent)
    ensures forall k :: k in o <==> (exists i :: 0 <= i < |child| && child[i] == Some(k)) && k !in KeySet(parent)
  {
    assert forall k :: k in KeySet(child) <==> exists i :: 0 <= i < |child| && child[i] == Some(k) by {
      forall k | k in KeySet(child) ensures exists i :: 0 <= i < |child| && child[i] == Some(k) {
        var i :| 0 <= i < |child| && child[i].Some? && child[i].value == k;
      }
    }
    var o := KeySet(child) - KeySet(parent);
    assert o == {} ==> KeySet(child) <= KeySet(parent) by {
      if o == {} {
        forall k | k in KeySet(child) ensures k in KeySet(parent) { assert k !in o; }
      }
    }
    o
  }

  datatype Integrity = Good | Issues

  /** Result of checking one parent/child key relationship. */
  datatype KeyCheck = KeyCheck(
    parentUniqueKeys: nat,
    childUniqueKeys: nat,
    orphanedRecords: nat,
    orphanedPercentage: real,
    status: Integrity)

  function CheckKeys<K(==,!new)>(parent: seq<Option<K>>, child: seq<Option<K>>): (c: KeyCheck)
    ensures c.parentUniqueKeys == |KeySet(parent)| && c.childUniqueKeys == |KeySet(child)|
    ensures c.orphanedRecords == |Orphans(parent, child)| <= c.childUniqueKeys
    ensures c.status == Good <==> KeySet(child) <= KeySet(parent)
    ensures c.status == Good <==> c.orphanedRecords == 0
    ensures 0.0 <= c.orphanedPercentage <= 100.0
  {
    var o := Orphans(parent, child);
    SubsetSize(o, KeySet(child));
    KeyCheck(|KeySet(parent)|, |KeySet(child)|, |o|, Percent(|o|, |KeySet(child)|),
      if |o| == 0 then Good else Issues)
  }

  lemma SubsetSize<K>(a: set<K>, b: set<K>)
    requires a <= b
    ensures |a| <= |b|
  {
    assert b == a + (b - a);
  }

  // ---------------------------------------------------------------------
  // Parent/child key relationships of the schema
  // ---------------------------------------------------------------------

  /** A child key column that should only hold keys of a parent key column. */
  datatype Relationship = Relationship(parentTable: string, parentKey: string, childTable: string, childKey: string)

  const Relationships: seq<Relationship> := [
    Relationship("customers", "customer_id", "orders", "customer_id"),
    Relationship("orders", "order_id", "order_items", "order_id"),
    Relationship("orders", "order_id", "order_payments", "order_id"),
    Relationship("orders", "order_id", "order_reviews", "order_id"),
    Relationship("products", "product_id", "order_items", "product_id"),
    Relationship("sellers", "seller_id", "order_items", "seller_id")
  ]

  /** Results are keyed "<parent table>_<child table>". */
  function ResultName(r: Relationship): string { r.parentTable + "_" + r.childTable }

  predicate DistinctNames(rels: seq<Relationship>)
  {
    forall i, j :: 0 <= i < j < |rels| ==> ResultName(rels[i]) != ResultName(rels[j])
  }

  lemma RelationshipsDistinct()
    ensures DistinctNames(Relationships)
  {
    var lengths := [16, 18, 21, 20, 20, 19];
    var initials := ['c', 'o', 'o', 'o', 'p', 's'];
    forall i | 0 <= i < |Relationships|
      ensures |ResultName(Relationships[i])| == lengths[i] && ResultName(Relationships[i])[0] == initials[i]
    {
    }
    forall i, j | 0 <= i < j < |Relationships|
      ensures ResultName(Relationships[i]) != ResultName(Relationships[j])
    {
      assert lengths[i] != lengths[j] || initials[i] != initials[j];
    }
  }

  /** The available results of checking `rels` in order, keyed "parent_child". */
  function ResultsOf<V>(rels: seq<Relationship>, check: Relationship -> Option<V>): (m: map<string, V>)
    ensures forall n :: n in m ==> exists r :: r in rels && ResultName(r) == n
  {
    if rels == [] then map[]
    else
      var m := ResultsOf(rels[..|rels| - 1], check);
      var r := rels[|rels| - 1];
      assert forall x :: x in rels[..|rels| - 1] ==> x in rels;
      if check(r).Some? then m[ResultName(r) := check(r).value] else m
  }

  /** One more relationship adds its result, when there is one, to those of the relationships before it. */
  lemma ResultsOfStep<V>(rels: seq<Relationship>, check: Relationship -> Option<V>, k: int)
    requires 0 <= k < |rels|
    ensures var m := ResultsOf(rels[..k], check);
      ResultsOf(rels[..k + 1], check) == if check(rels[k]).Some? then m[ResultName(rels[k]) := check(rels[k]).value] else m
  {
    assert rels[..k + 1][..k] == rels[..k];
  }

  /** With distinct result names, a relationship has a result exactly when its check is available. */
  lemma {:induction false} ResultsOfSpec<V>(rels: seq<Relationship>, check: Relationship -> Option<V>, r: Relationship)
    requires DistinctNames(rels) && r in rels
    ensures ResultName(r) in ResultsOf(rels, check) <==> check(r).Some?
    ensures check(r).Some? ==> ResultsOf(rels, check)[ResultName(r)] == check(r).value
  {
    var init := rels[..|rels| - 1];
    var last := rels[|rels| - 1];
    if r != last {
      var k :| 0 <= k < |rels| && rels[k] == r;
      assert k < |rels| - 1 && init[k] == r;
      assert DistinctNames(init);
      ResultsOfSpec(init, check, r);
    }
  }
}
