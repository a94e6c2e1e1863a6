/** A set of integers in ascending order: what collecting map keys and sorting them yields. */
module AscendingInts {

  predicate IsAscending(s: seq<int>) {
    forall i, j :: 0 <= i < j < |s| ==> s[i] < s[j]
  }

  function Elements(s: seq<int>): set<int> {
    set i | 0 <= i < |s| :: s[i]
  }

  predicate Lists(s: seq<int>, keys: set<int>) {
    IsAscending(s) && Elements(s) == keys
  }

  lemma Member<T>(s: set<T>) returns (x: T)
    requires s != {}
    ensures x in s
  {
    x :| x in s;
  }

  lemma {:induction false} Least(keys: set<int>) returns (least: int)
    requires keys != {}
    ensures least in keys && forall k :: k in keys ==> least <= k
  {
    least := Member(keys);
    assert forall k :: k in keys ==> k == least || k in keys - {least};
    if keys != {least} {
      var other := Least(keys - {least});
      if other < least {
        least := other;
      }
    }
  }

  ghost function Ascending(keys: set<int>): (s: seq<int>)
    ensures Lists(s, keys)
  {
    if keys == {} then []
    else
      assert exists k :: k in keys && forall other :: other in keys ==> k <= other by {
        var least := Least(keys);
      }
      var least :| least in keys && forall other :: other in keys ==> least <= other;
      var rest := Ascending(keys - {least});
      Grow(least, rest);
      [least] + rest
  }

  lemma Grow(least: int, rest: seq<int>)
    requires IsAscending(rest) && forall k :: k in Elements(rest) ==> least < k
    ensures Lists([least] + rest, {least} + Elements(rest))
  {
    var s := [least] + rest;
    assert forall i :: 0 <= i < |rest| ==> rest[i] in Elements(rest);
    forall k | k in {least} + Elements(rest) ensures k in Elements(s) {
      if k == least {
        assert s[0] == k;
      } else {
        var i :| 0 <= i < |rest| && rest[i] == k;
        assert s[i + 1] == k;
      }
    }
  }

  lemma NoElements(s: seq<int>)
    ensures s == [] <==> Elements(s) == {}
  {
    if s != [] {
      assert s[0] in Elements(s);
    }
  }

  /** There is only one ascending listing of a set. */
  lemma {:induction false} AscendingUnique(a: seq<int>, b: seq<int>)
    requires IsAscending(a) && IsAscending(b) && Elements(a) == Elements(b)
    ensures a == b
  {
    NoElements(a);
    NoElements(b);
    if a != [] {
      assert a[0] in Elements(b);
      assert b[0] in Elements(a);
      var i :| 0 <= i < |b| && b[i] == a[0];
      var j :| 0 <= j < |a| && a[j] == b[0];
      assert a[0] == b[0];
      ElementsTail(a);
      ElementsTail(b);
      AscendingUnique(a[1..], b[1..]);
    }
  }

  lemma ElementsTail(s: seq<int>)
    requires IsAscending(s) && s != []
    ensures IsAscending(s[1..]) && Elements(s[1..]) == Elements(s) - {s[0]}
  {
    forall k | k in Elements(s) - {s[0]} ensures k in Elements(s[1..]) {
      var i :| 0 <= i < |s| && s[i] == k;
      assert s[1..][i - 1] == k;
    }
    forall k | k in Elements(s[1..]) ensures k in Elements(s) - {s[0]} {
      var i :| 0 <= i < |s[1..]| && s[1..][i] == k;
      assert s[i + 1] == k;
    }
  }

  /** Collect keys in whatever order they come, then sort them by insertion. */
  method SortKeys(keys: set<int>) returns (sorted: seq<int>)
    ensures sorted == Ascending(keys)
  {
    sorted := [];
    var left := keys;
    while left != {}
      invariant left <= keys
      invariant Lists(sorted, keys - left)
      decreases left
    {
      ghost var member := Member(left);
      var key :| key in left;
      left := left - {key};
      assert key !in Elements(sorted);
      sorted := Insert(sorted, key);
      assert keys - left == (keys - (left + {key})) + {key};
    }
    assert keys - left == keys;
    AscendingUnique(sorted, Ascending(keys));
  }

  method Insert(sorted: seq<int>, key: int) returns (r: seq<int>)
    requires IsAscending(sorted) && key !in Elements(sorted)
    ensures Lists(r, Elements(sorted) + {key})
  {
    var i := 0;
    while i < |sorted| && sorted[i] < key
      invariant i <= |sorted|
      invariant forall j :: 0 <= j < i ==> sorted[j] < key
    {
      i := i + 1;
    }
    assert forall j :: 0 <= j < |sorted| ==> sorted[j] in Elements(sorted);
    r := sorted[..i] + [key] + sorted[i..];
    InsertElements(sorted, key, i);
  }

  lemma InsertElements(sorted: seq<int>, key: int, i: nat)
    requires i <= |sorted|
    ensures Elements(sorted[..i] + [key] + sorted[i..]) == Elements(sorted) + {key}
  {
    var r := sorted[..i] + [key] + sorted[i..];
    forall k | k in Elements(sorted) + {key} ensures k in Elements(r) {
      if k == key {
        assert r[i] == k;
      } else {
        var j :| 0 <= j < |sorted| && sorted[j] == k;
        assert r[if j < i then j else j + 1] == k;
      }
    }
    forall k | k in Elements(r) ensures k in Elements(sorted) + {key} {
      var j :| 0 <= j < |r| && r[j] == k;
      assert j != i ==> r[j] == sorted[if j < i then j else j - 1];
    }
  }
}
