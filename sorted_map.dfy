/** The `std::map<std::string, V>` the execution classes keep their files
    in: an association list whose keys are strictly increasing in the
    lexicographic order of `std::string`, so that iterating over it visits
    the keys in that order. */
module SortedMap {
  import opened Common

  /** `a < b` for strings: a proper prefix is smaller, otherwise the first
      differing character decides. */
  predicate LexLess(a: string, b: string)
    decreases |a|
  {
    if a == [] then b != []
    else if b == [] then false
    else if a[0] == b[0] then LexLess(a[1..], b[1..])
    else a[0] < b[0]
  }

  lemma {:induction false} LexIrreflexive(a: string)
    ensures !LexLess(a, a)
    decreases |a|
  {
    if a != [] {
      LexIrreflexive(a[1..]);
    }
  }

  /** Two different strings are ordered one way or the other, never both. */
  lemma {:induction false} LexTotal(a: string, b: string)
    ensures a != b ==> LexLess(a, b) || LexLess(b, a)
    ensures !(LexLess(a, b) && LexLess(b, a))
    decreases |a|
  {
    if a != [] && b != [] && a[0] == b[0] {
      LexTotal(a[1..], b[1..]);
      if a != b {
        assert a == [a[0]] + a[1..] && b == [b[0]] + b[1..];
      }
    }
  }

  lemma {:induction false} LexTransitive(a: string, b: string, c: string)
    requires LexLess(a, b) && LexLess(b, c)
    ensures LexLess(a, c)
    decreases |a|
  {
    if a != [] && a[0] == b[0] && b[0] == c[0] {
      LexTransitive(a[1..], b[1..], c[1..]);
    }
  }

  /** Keys strictly increase, so each occurs once. */
  ghost predicate Sorted<V>(m: seq<(string, V)>) {
    forall i, j :: 0 <= i < j < |m| ==> LexLess(m[i].0, m[j].0)
  }

  /** The keys, in iteration order. */
  function Keys<V>(m: seq<(string, V)>): (ks: seq<string>)
    ensures |ks| == |m|
    ensures forall i :: 0 <= i < |m| ==> ks[i] == m[i].0
  {
    if m == [] then [] else [m[0].0] + Keys(m[1..])
  }

  /** `m.count(k)` and `m.at(k)`. */
  function Find<V>(m: seq<(string, V)>, k: string): (r: Option<V>)
    ensures r.Some? <==> exists i :: 0 <= i < |m| && m[i].0 == k
    ensures r.Some? ==> exists i :: 0 <= i < |m| && m[i] == (k, r.value)
  {
    if m == [] then None else if m[0].0 == k then Some(m[0].1) else Find(m[1..], k)
  }

  /** In a sorted map the entry found is the one at the key's position. */
  lemma FindAt<V>(m: seq<(string, V)>, i: int)
    requires Sorted(m) && 0 <= i < |m|
    ensures Find(m, m[i].0) == Some(m[i].1)
  {
    if i > 0 {
      assert LexLess(m[0].0, m[i].0);
      LexIrreflexive(m[0].0);
      assert Sorted(m[1..]) by {
        forall a, b | 0 <= a < b < |m[1..]| ensures LexLess(m[1..][a].0, m[1..][b].0) {
          assert m[1..][a] == m[a + 1] && m[1..][b] == m[b + 1];
        }
      }
      FindAt(m[1..], i - 1);
    }
  }

  /** `emplace(k, v)` of a key not present: the entry goes where the order
      puts it. */
  function Insert<V>(m: seq<(string, V)>, k: string, v: V): (r: seq<(string, V)>)
    requires Find(m, k).None?
    ensures |r| == |m| + 1
    ensures forall x :: x in Keys(r) <==> x in Keys(m) || x == k
    ensures Find(r, k) == Some(v)
    ensures forall x :: x != k ==> Find(r, x) == Find(m, x)
  {
    if m == [] || LexLess(k, m[0].0) then [(k, v)] + m
    else [m[0]] + Insert(m[1..], k, v)
  }

  lemma SortedTail<V>(m: seq<(string, V)>)
    requires Sorted(m) && m != []
    ensures Sorted(m[1..])
    ensures forall j :: 0 <= j < |m[1..]| ==> LexLess(m[0].0, m[1..][j].0)
  {
    forall a, b | 0 <= a < b < |m[1..]| ensures LexLess(m[1..][a].0, m[1..][b].0) {
      assert m[1..][a] == m[a + 1] && m[1..][b] == m[b + 1];
    }
    forall j | 0 <= j < |m[1..]| ensures LexLess(m[0].0, m[1..][j].0) {
      assert m[1..][j] == m[j + 1];
    }
  }

  lemma SortedCons<V>(e: (string, V), m: seq<(string, V)>)
    requires Sorted(m)
    requires forall j :: 0 <= j < |m| ==> LexLess(e.0, m[j].0)
    ensures Sorted([e] + m)
  {
    var r := [e] + m;
    forall a, b | 0 <= a < b < |r| ensures LexLess(r[a].0, r[b].0) {
      if a == 0 {
        assert r[b] == m[b - 1];
      } else {
        assert r[a] == m[a - 1] && r[b] == m[b - 1];
      }
    }
  }

  /** Insertion keeps the keys in order. */
  lemma {:induction false} InsertSorted<V>(m: seq<(string, V)>, k: string, v: V)
    requires Sorted(m) && Find(m, k).None?
    ensures Sorted(Insert(m, k, v))
    decreases |m|
  {
    if m == [] {
    } else if LexLess(k, m[0].0) {
      forall j | 0 <= j < |m| ensures LexLess(k, m[j].0) {
        if j > 0 {
          LexTransitive(k, m[0].0, m[j].0);
        }
      }
      SortedCons((k, v), m);
    } else {
      SortedTail(m);
      assert Find(m[1..], k).None?;
      InsertSorted(m[1..], k, v);
      var rest := Insert(m[1..], k, v);
      assert m[0].0 != k;
      LexTotal(m[0].0, k);
      forall j | 0 <= j < |rest| ensures LexLess(m[0].0, rest[j].0) {
        assert rest[j].0 == Keys(rest)[j];
        if rest[j].0 != k {
          var x := rest[j].0;
          assert x in Keys(m[1..]);
          var i :| 0 <= i < |m[1..]| && Keys(m[1..])[i] == x;
        }
      }
      SortedCons(m[0], rest);
    }
  }

  /** `m.at(k) = v` for a key present: the keys stay, only that value
      changes. */
  function Update<V>(m: seq<(string, V)>, k: string, v: V): (r: seq<(string, V)>)
    ensures Keys(r) == Keys(m)
    ensures forall i :: 0 <= i < |m| ==> r[i].1 == (if m[i].0 == k then v else m[i].1)
  {
    if m == [] then []
    else [(m[0].0, if m[0].0 == k then v else m[0].1)] + Update(m[1..], k, v)
  }

  lemma UpdateSorted<V>(m: seq<(string, V)>, k: string, v: V)
    requires Sorted(m)
    ensures Sorted(Update(m, k, v))
  {
    var r := Update(m, k, v);
    forall i, j | 0 <= i < j < |r| ensures LexLess(r[i].0, r[j].0) {
      assert Keys(r)[i] == Keys(m)[i] && Keys(r)[j] == Keys(m)[j];
    }
  }
}
