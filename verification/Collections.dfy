/** Finite collections: enumerations, partitions and weights. */
module Collections {

  ghost predicate NoDuplicates<T>(s: seq<T>) {
    forall i, j :: 0 <= i < j < |s| ==> s[i] != s[j]
  }

  function Elements<T>(s: seq<T>): set<T> {
    set x | x in s
  }

  lemma ElementsAppend<T>(a: seq<T>, b: seq<T>)
    ensures Elements(a + b) == Elements(a) + Elements(b)
  {
  }

  /** An enumeration of a set in some order. */
  method Enumerate<T(==)>(s: set<T>) returns (r: seq<T>)
    ensures NoDuplicates(r) && Elements(r) == s
  {
    r := [];
    var rest := s;
    while rest != {}
      invariant NoDuplicates(r) && Elements(r) == s - rest && rest <= s
      decreases rest
    {
      var x :| x in rest;
      assert x !in Elements(r);
      ElementsAppend(r, [x]);
      assert Elements([x]) == {x};
      r := r + [x];
      rest := rest - {x};
    }
  }

  lemma {:induction false} EnumerationExists<T>(s: set<T>) returns (r: seq<T>)
    ensures NoDuplicates(r) && Elements(r) == s
    decreases s
  {
    if s == {} {
      r := [];
    } else {
      var x :| x in s;
      var rest := EnumerationExists(s - {x});
      assert forall i :: 0 <= i < |rest| ==> rest[i] in Elements(rest);
      r := [x] + rest;
      ElementsAppend([x], rest);
      assert Elements([x]) == {x};
    }
  }

  lemma {:induction false} CountElements<T>(s: seq<T>)
    requires NoDuplicates(s)
    ensures |Elements(s)| == |s|
  {
    if s != [] {
      CountElements(s[1..]);
      assert forall i :: 0 <= i < |s[1..]| ==> s[1..][i] == s[i + 1];
      assert s == [s[0]] + s[1..];
      ElementsAppend([s[0]], s[1..]);
      assert Elements([s[0]]) == {s[0]};
    }
  }

  lemma {:induction false} SmallerSet<T>(a: set<T>, b: set<T>)
    requires a <= b
    ensures |a| <= |b| && (a != b ==> |a| < |b|)
  {
    assert b == a + (b - a);
    assert a != b ==> b - a != {};
  }

  // ---------- partitions ----------

  /** The parts are pairwise disjoint and together are the whole. */
  ghost predicate IsPartition<T(!new)>(parts: seq<set<T>>, whole: set<T>) {
    && (forall i, j :: 0 <= i < j < |parts| ==> parts[i] !! parts[j])
    && forall x :: x in whole <==> exists i :: 0 <= i < |parts| && x in parts[i]
  }

  lemma PartitionOfOne<T(!new)>(whole: set<T>)
    ensures IsPartition([whole], whole)
  {
    assert [whole][0] == whole;
  }

  lemma PartitionAppend<T(!new)>(a: seq<set<T>>, b: seq<set<T>>, wa: set<T>, wb: set<T>)
    requires IsPartition(a, wa) && IsPartition(b, wb) && wa !! wb
    ensures IsPartition(a + b, wa + wb)
  {
    var parts := a + b;
    forall x | x in wa + wb ensures exists i :: 0 <= i < |parts| && x in parts[i] {
      if x in wa {
        var i :| 0 <= i < |a| && x in a[i];
        assert x in parts[i];
      } else {
        var i :| 0 <= i < |b| && x in b[i];
        assert x in parts[|a| + i];
      }
    }
    forall i, j | 0 <= i < j < |parts| ensures parts[i] !! parts[j] {
      if i < |a| <= j {
        assert a[i] <= wa && b[j - |a|] <= wb;
      }
    }
  }

  function TotalSize<T>(parts: seq<set<T>>): nat {
    if parts == [] then 0 else |parts[0]| + TotalSize(parts[1..])
  }

  lemma {:induction false} PartitionSize<T(!new)>(parts: seq<set<T>>, whole: set<T>)
    requires IsPartition(parts, whole)
    ensures TotalSize(parts) == |whole|
  {
    if parts == [] {
      assert whole == {};
    } else {
      var rest := parts[1..];
      assert forall i :: 0 <= i < |rest| ==> rest[i] == parts[i + 1];
      forall x ensures x in whole - parts[0] <==> exists i :: 0 <= i < |rest| && x in rest[i] {
        if x in whole - parts[0] {
          var i :| 0 <= i < |parts| && x in parts[i];
          assert x in rest[i - 1];
        } else if i :| 0 <= i < |rest| && x in rest[i] {
          assert x in parts[i + 1] && parts[0] !! parts[i + 1];
        }
      }
      PartitionSize(rest, whole - parts[0]);
      assert parts[0] <= whole;
      assert whole == parts[0] + (whole - parts[0]);
    }
  }

  // ---------- weights ----------

  /** The total weight of the keys in a set. */
  ghost function Total<K>(keys: set<K>, weight: map<K, nat>): nat
    requires keys <= weight.Keys
    decreases keys
  {
    if keys == {} then 0 else var k :| k in keys; weight[k] + Total(keys - {k}, weight)
  }

  lemma {:induction false} TotalRemove<K>(keys: set<K>, weight: map<K, nat>, k: K)
    requires keys <= weight.Keys && k in keys
    ensures Total(keys, weight) == weight[k] + Total(keys - {k}, weight)
    decreases keys
  {
    var c :| c in keys && Total(keys, weight) == weight[c] + Total(keys - {c}, weight);
    if c != k {
      TotalRemove(keys - {c}, weight, k);
      TotalRemove(keys - {k}, weight, c);
      assert keys - {c} - {k} == keys - {k} - {c};
    }
  }

  lemma {:induction false} TotalAgrees<K>(keys: set<K>, a: map<K, nat>, b: map<K, nat>)
    requires keys <= a.Keys && keys <= b.Keys && forall k :: k in keys ==> a[k] == b[k]
    ensures Total(keys, a) == Total(keys, b)
    decreases keys
  {
    if keys != {} {
      var k :| k in keys;
      TotalRemove(keys, a, k);
      TotalRemove(keys, b, k);
      TotalAgrees(keys - {k}, a, b);
    }
  }

  /** Lowering one weight lowers the total. */
  lemma TotalLower<K>(keys: set<K>, a: map<K, nat>, b: map<K, nat>, k: K)
    requires keys <= a.Keys && keys <= b.Keys && k in keys && b[k] < a[k]
    requires forall x :: x in keys && x != k ==> b[x] == a[x]
    ensures Total(keys, b) < Total(keys, a)
  {
    TotalRemove(keys, a, k);
    TotalRemove(keys, b, k);
    TotalAgrees(keys - {k}, a, b);
  }

  lemma {:induction false} TotalUnion<K>(x: set<K>, y: set<K>, weight: map<K, nat>)
    requires x <= weight.Keys && y <= weight.Keys && x !! y
    ensures Total(x + y, weight) == Total(x, weight) + Total(y, weight)
    decreases x
  {
    if x == {} {
      assert x + y == y;
    } else {
      var k :| k in x;
      TotalRemove(x, weight, k);
      TotalRemove(x + y, weight, k);
      assert x + y - {k} == (x - {k}) + y;
      TotalUnion(x - {k}, y, weight);
    }
  }

  lemma {:induction false} TotalZero<K>(keys: set<K>, weight: map<K, nat>)
    requires keys <= weight.Keys && forall k :: k in keys ==> weight[k] == 0
    ensures Total(keys, weight) == 0
    decreases keys
  {
    if keys != {} {
      var k :| k in keys;
      TotalRemove(keys, weight, k);
      TotalZero(keys - {k}, weight);
    }
  }
}
