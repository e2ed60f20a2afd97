/**
 JavaScript's default `Array.prototype.sort` order on strings: code unit by
 code unit, with a proper prefix sorting first. The module proves it a total
 order, models `sort()` followed by `reverse()`, and shows that the sorted
 result does not depend on the sorting algorithm, so the engine's own
 (unspecified) algorithm gives the same array as the one written here.
 */
module LexOrder {
  import opened JsText

  /** `a` sorts at or before `b`. */
  predicate LexLe(a: JsString, b: JsString)
    decreases |a|
  {
    |a| == 0 || (|b| > 0 && (a[0] < b[0] || (a[0] == b[0] && LexLe(a[1..], b[1..]))))
  }

  lemma {:induction false} LexLeReflexive(a: JsString)
    ensures LexLe(a, a)
    decreases |a|
  {
    if |a| > 0 {
      LexLeReflexive(a[1..]);
    }
  }

  lemma {:induction false} LexLeAntisymmetric(a: JsString, b: JsString)
    requires LexLe(a, b) && LexLe(b, a)
    ensures a == b
    decreases |a|
  {
    if |a| > 0 {
      LexLeAntisymmetric(a[1..], b[1..]);
      assert a == [a[0]] + a[1..];
      assert b == [b[0]] + b[1..];
    }
  }

  lemma {:induction false} LexLeTransitive(a: JsString, b: JsString, c: JsString)
    requires LexLe(a, b) && LexLe(b, c)
    ensures LexLe(a, c)
    decreases |a|
  {
    if |a| > 0 && a[0] == b[0] && b[0] == c[0] {
      LexLeTransitive(a[1..], b[1..], c[1..]);
    }
  }

  lemma {:induction false} LexLeTotal(a: JsString, b: JsString)
    ensures LexLe(a, b) || LexLe(b, a)
    decreases |a|
  {
    if |a| > 0 && |b| > 0 && a[0] == b[0] {
      LexLeTotal(a[1..], b[1..]);
    }
  }

  ghost predicate Ascending(s: seq<JsString>) {
    forall i, j :: 0 <= i < j < |s| ==> LexLe(s[i], s[j])
  }

  ghost predicate Descending(s: seq<JsString>) {
    forall i, j :: 0 <= i < j < |s| ==> LexLe(s[j], s[i])
  }

  /** Inserts `x` before the first entry it does not sort after. */
  function Insert(x: JsString, s: seq<JsString>): seq<JsString> {
    if |s| == 0 then [x]
    else if LexLe(x, s[0]) then [x] + s
    else [s[0]] + Insert(x, s[1..])
  }

  /** Inserting into an ascending sequence keeps it ascending and adds
      exactly `x`. */
  lemma {:induction false} InsertSorted(x: JsString, s: seq<JsString>)
    requires Ascending(s)
    ensures Ascending(Insert(x, s))
    ensures multiset(Insert(x, s)) == multiset(s) + multiset{x}
  {
    if |s| == 0 {
    } else if LexLe(x, s[0]) {
      assert forall j :: 0 < j < |s| ==> LexLe(s[0], s[j]);
      forall j | 0 < j < |s| ensures LexLe(x, s[j]) {
        LexLeTransitive(x, s[0], s[j]);
      }
      assert Insert(x, s) == [x] + s;
    } else {
      var tail := Insert(x, s[1..]);
      InsertSorted(x, s[1..]);
      LexLeTotal(x, s[0]);
      assert s == [s[0]] + s[1..];
      forall j | 0 <= j < |tail| ensures LexLe(s[0], tail[j]) {
        assert tail[j] in multiset(tail);
        if tail[j] != x {
          assert tail[j] in multiset(s[1..]);
          var k :| 0 <= k < |s[1..]| && s[1..][k] == tail[j];
          assert s[k + 1] == tail[j];
        }
      }
      assert Insert(x, s) == [s[0]] + tail;
    }
  }

  /** `names.sort()`, as an insertion sort. */
  function SortAscending(names: seq<JsString>): seq<JsString> {
    if |names| == 0 then []
    else Insert(names[0], SortAscending(names[1..]))
  }

  /** The sort returns an ascending permutation of its input. */
  lemma {:induction false} SortAscendingSorts(names: seq<JsString>)
    ensures Ascending(SortAscending(names))
    ensures multiset(SortAscending(names)) == multiset(names)
  {
    if |names| > 0 {
      SortAscendingSorts(names[1..]);
      InsertSorted(names[0], SortAscending(names[1..]));
      assert names == [names[0]] + names[1..];
    }
  }

  function Reverse(s: seq<JsString>): (r: seq<JsString>)
    ensures |r| == |s|
  {
    if |s| == 0 then []
    else Reverse(s[1..]) + [s[0]]
  }

  /** The reversal reads the entries back to front, and keeps them all. */
  lemma {:induction false} ReverseReverses(s: seq<JsString>)
    ensures forall i :: 0 <= i < |s| ==> Reverse(s)[i] == s[|s| - 1 - i]
    ensures multiset(Reverse(s)) == multiset(s)
  {
    if |s| > 0 {
      ReverseReverses(s[1..]);
      assert s == [s[0]] + s[1..];
    }
  }

  /** `names.sort().reverse()`. */
  function SortDescending(names: seq<JsString>): seq<JsString> {
    Reverse(SortAscending(names))
  }

  /** Sorting and reversing gives a descending permutation of the input. */
  lemma SortDescendingSorts(names: seq<JsString>)
    ensures Descending(SortDescending(names))
    ensures multiset(SortDescending(names)) == multiset(names)
  {
    var a := SortAscending(names);
    SortAscendingSorts(names);
    ReverseReverses(a);
  }

  /** There is only one descending permutation of a collection: any two
      coincide, whatever algorithm produced them. */
  lemma {:induction false} DescendingUnique(a: seq<JsString>, b: seq<JsString>)
    requires Descending(a) && Descending(b)
    requires multiset(a) == multiset(b)
    ensures a == b
    decreases |a|
  {
    assert |a| == |multiset(a)| == |multiset(b)| == |b|;
    if |a| > 0 {
      DescendingHeadsAgree(a, b);
      DropHead(a);
      DropHead(b);
      DescendingUnique(a[1..], b[1..]);
      assert a == [a[0]] + a[1..];
      assert b == [b[0]] + b[1..];
    }
  }

  /** Two descending arrangements of one multiset start with the same
      entry: each head is at least every entry of the other. */
  lemma DescendingHeadsAgree(a: seq<JsString>, b: seq<JsString>)
    requires Descending(a) && Descending(b)
    requires multiset(a) == multiset(b)
    requires |a| > 0 && |b| > 0
    ensures a[0] == b[0]
  {
    assert a[0] in multiset(b);
    var j :| 0 <= j < |b| && b[j] == a[0];
    assert b[0] in multiset(a);
    var i :| 0 <= i < |a| && a[i] == b[0];
    if i > 0 {
      assert LexLe(a[i], a[0]);
    } else {
      LexLeReflexive(a[0]);
    }
    if j > 0 {
      assert LexLe(b[j], b[0]);
    } else {
      LexLeReflexive(b[0]);
    }
    LexLeAntisymmetric(a[0], b[0]);
  }

  lemma DropHead(a: seq<JsString>)
    requires |a| > 0
    ensures multiset(a[1..]) == multiset(a) - multiset{a[0]}
    ensures Descending(a) ==> Descending(a[1..])
  {
    assert a == [a[0]] + a[1..];
  }

  function Min(a: nat, b: nat): nat {
    if a <= b then a else b
  }

  /** The first `k` entries of a descending sequence are its `k` greatest:
      nothing left out sorts after anything kept. */
  lemma PrefixOfDescendingIsGreatest(d: seq<JsString>, k: nat)
    requires Descending(d)
    requires k <= |d|
    ensures Descending(d[..k])
    ensures multiset(d[..k]) <= multiset(d)
    ensures multiset(d) - multiset(d[..k]) == multiset(d[k..])
    ensures forall x, y :: x in d[..k] && y in multiset(d) - multiset(d[..k]) ==> LexLe(y, x)
  {
    assert d == d[..k] + d[k..];
    forall x, y | x in d[..k] && y in multiset(d) - multiset(d[..k]) ensures LexLe(y, x) {
      var i :| 0 <= i < k && d[..k][i] == x;
      assert y in d[k..];
      var j :| 0 <= j < |d| - k && d[k..][j] == y;
      assert d[k + j] == y && d[i] == x;
    }
  }
}
