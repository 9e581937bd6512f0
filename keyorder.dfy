/** The order in which an object store's cursor visits its records. Keys are
    strings, compared lexicographically character by character as the Indexed
    Database API compares string keys; a cursor opened in the default `next`
    direction visits the records in ascending key order. */
module KeyOrder {

  /** Lexicographic order on strings: `a` sorts strictly before `b`. */
  predicate Less(a: string, b: string)
    decreases |a|
  {
    if a == [] then b != []
    else b != [] && (a[0] < b[0] || (a[0] == b[0] && Less(a[1..], b[1..])))
  }

  lemma {:induction false} LessIrreflexive(a: string)
    ensures !Less(a, a)
    decreases |a|
  {
    if a != [] {
      LessIrreflexive(a[1..]);
    }
  }

  lemma {:induction false} LessTransitive(a: string, b: string, c: string)
    requires Less(a, b) && Less(b, c)
    ensures Less(a, c)
    decreases |a|
  {
    if a != [] && a[0] == b[0] && b[0] == c[0] {
      LessTransitive(a[1..], b[1..], c[1..]);
    }
  }

  lemma {:induction false} LessTotal(a: string, b: string)
    requires a != b
    ensures Less(a, b) || Less(b, a)
    decreases |a|
  {
    if a != [] && b != [] && a[0] == b[0] {
      assert a == [a[0]] + a[1..] && b == [b[0]] + b[1..];
      LessTotal(a[1..], b[1..]);
    }
  }

  lemma LessAsymmetric(a: string, b: string)
    requires Less(a, b)
    ensures !Less(b, a)
  {
    if Less(b, a) {
      LessTransitive(a, b, a);
      LessIrreflexive(a);
    }
  }

  /** `k` is the smallest key of `keys`. */
  predicate IsLeast(k: string, keys: set<string>)
  {
    k in keys && forall j :: j in keys && j != k ==> Less(k, j)
  }

  lemma {:induction false} LeastExists(keys: set<string>)
    requires keys != {}
    ensures exists k :: IsLeast(k, keys)
    decreases |keys|
  {
    var x :| x in keys;
    var rest := keys - {x};
    if rest != {} {
      LeastExists(rest);
      var m :| IsLeast(m, rest);
      if Less(m, x) {
        assert IsLeast(m, keys);
      } else {
        LessTotal(m, x);
        forall j | j in keys && j != x
          ensures Less(x, j)
        {
          if j != m {
            LessTransitive(x, m, j);
          }
        }
        assert IsLeast(x, keys);
      }
    } else {
      assert keys == {x};
      assert IsLeast(x, keys);
    }
  }

  /** Keys listed in strictly ascending order (so each at most once). */
  ghost predicate Ascending(ks: seq<string>)
  {
    forall i, j :: 0 <= i < j < |ks| ==> Less(ks[i], ks[j])
  }

  /** Two strictly ascending listings of the same keys are the same listing. */
  lemma {:induction false} AscendingUnique(a: seq<string>, b: seq<string>)
    requires Ascending(a) && Ascending(b)
    requires |a| == |b| && forall k :: k in a <==> k in b
    ensures a == b
    decreases |a|
  {
    if a != [] && b != [] {
      assert a[0] in b;
      assert b[0] in a;
      var i :| 0 <= i < |a| && a[i] == b[0];
      var j :| 0 <= j < |b| && b[j] == a[0];
      if i != 0 && j != 0 {
        LessAsymmetric(a[0], b[0]);
      }
      assert a[0] == b[0];
      forall k
        ensures k in a[1..] <==> k in b[1..]
      {
        if k in a[1..] {
          var x :| 0 <= x < |a| - 1 && a[1..][x] == k;
          assert Less(a[0], a[x + 1]);
          LessIrreflexive(a[0]);
          assert k in b;
          var y :| 0 <= y < |b| && b[y] == k;
          assert y != 0;
          assert b[1..][y - 1] == k;
        }
        if k in b[1..] {
          var y :| 0 <= y < |b| - 1 && b[1..][y] == k;
          assert Less(b[0], b[y + 1]);
          LessIrreflexive(b[0]);
          assert k in a;
          var x :| 0 <= x < |a| && a[x] == k;
          assert x != 0;
          assert a[1..][x - 1] == k;
        }
      }
      AscendingUnique(a[1..], b[1..]);
      assert a == [a[0]] + a[1..] && b == [b[0]] + b[1..];
    }
  }

  /** The keys of `keys` in ascending order. */
  ghost function SortedKeys(keys: set<string>): (ks: seq<string>)
    ensures Ascending(ks)
    ensures forall k :: k in ks <==> k in keys
    ensures |ks| == |keys|
    decreases |keys|
  {
    if keys == {} then []
    else
      LeastExists(keys);
      var m :| IsLeast(m, keys);
      var ks := SortedKeys(keys - {m});
      assert forall j :: 0 <= j < |ks| ==> Less(m, ks[j]) by {
        forall j | 0 <= j < |ks|
          ensures Less(m, ks[j])
        {
          assert ks[j] in ks;
        }
      }
      [m] + ks
  }

  /** The records of a table in the order a `next` cursor visits them. */
  ghost function InKeyOrder<R>(table: map<string, R>): (rs: seq<R>)
  {
    var ks := SortedKeys(table.Keys);
    seq(|ks|, i requires 0 <= i < |ks| => table[ks[i]])
  }

  /** The cursor loop `openCursor(); ... push(cursor.value); cursor.continue()`:
      each step moves to the smallest key not yet visited. */
  method CursorWalk<R>(table: map<string, R>) returns (rs: seq<R>)
    ensures rs == InKeyOrder(table)
  {
    var rest := table.Keys;
    ghost var visited: seq<string> := [];
    rs := [];
    while rest != {}
      invariant rest <= table.Keys
      invariant |visited| + |rest| == |table.Keys|
      invariant forall k :: k in visited <==> k in table && k !in rest
      invariant Ascending(visited)
      invariant forall i, j :: 0 <= i < |visited| && j in rest ==> Less(visited[i], j)
      invariant |rs| == |visited|
      invariant forall i :: 0 <= i < |rs| ==> visited[i] in table && rs[i] == table[visited[i]]
      decreases |rest|
    {
      LeastExists(rest);
      var k :| k in rest && IsLeast(k, rest);
      rs := rs + [table[k]];
      visited := visited + [k];
      rest := rest - {k};
    }
    var ks := SortedKeys(table.Keys);
    AscendingUnique(visited, ks);
  }
}
