/**
 * The list edits every entity store performs after a successful API call,
 * written once over any record type with an id accessor:
 * `list.filter(p)`, `list.findIndex(x => x.id === id)`, the in-place
 * replacement `list[index] = updated` guarded by `index !== -1`, the removal
 * `list.filter(x => x.id !== id)`, and the matching updates of the store's
 * "current" record.
 */
module ListPatch {
  import opened Wrappers

  /** `s.filter(p)` */
  function Keep<T>(s: seq<T>, p: T -> bool): (r: seq<T>)
    ensures |r| <= |s|
    ensures forall i :: 0 <= i < |r| ==> r[i] in s && p(r[i])
    ensures forall i :: 0 <= i < |s| && p(s[i]) ==> s[i] in r
    ensures multiset(r) <= multiset(s)
  {
    if |s| == 0 then []
    else
      assert s == [s[0]] + s[1..];
      (if p(s[0]) then [s[0]] else []) + Keep(s[1..], p)
  }

  /** `filter` keeps every copy of a passing element and no copy of a failing one. */
  lemma {:induction false} KeepMultiset<T>(s: seq<T>, p: T -> bool, x: T)
    ensures multiset(Keep(s, p))[x] == if p(x) then multiset(s)[x] else 0
  {
    if |s| > 0 {
      KeepMultiset(s[1..], p, x);
      assert s == [s[0]] + s[1..];
      assert multiset(s) == multiset{s[0]} + multiset(s[1..]);
    }
  }

  /** `filter` keeps a single element exactly when it passes. */
  lemma KeepSingle<T>(x: T, p: T -> bool)
    ensures Keep([x], p) == if p(x) then [x] else []
  {
    assert [x][1..] == [];
  }

  /**
   * `filter` works on the parts of a list separately and in order: with
   * `KeepSingle`, this fixes the order of what it keeps.
   */
  lemma {:induction false} KeepAppend<T>(a: seq<T>, b: seq<T>, p: T -> bool)
    ensures Keep(a + b, p) == Keep(a, p) + Keep(b, p)
  {
    if |a| == 0 {
      assert a + b == b;
    } else {
      var h := if p(a[0]) then [a[0]] else [];
      assert (a + b)[0] == a[0] && (a + b)[1..] == a[1..] + b;
      calc {
        Keep(a + b, p);
        h + Keep(a[1..] + b, p);
        { KeepAppend(a[1..], b, p); }
        h + (Keep(a[1..], p) + Keep(b, p));
        (h + Keep(a[1..], p)) + Keep(b, p);
        Keep(a, p) + Keep(b, p);
      }
    }
  }

  /** Filtering by `p` and then by `q` is filtering once by their conjunction. */
  lemma {:induction false} KeepThenKeep<T>(s: seq<T>, p: T -> bool, q: T -> bool, pq: T -> bool)
    requires forall x :: pq(x) == (p(x) && q(x))
    ensures Keep(Keep(s, p), q) == Keep(s, pq)
  {
    if |s| > 0 {
      KeepThenKeep(s[1..], p, q, pq);
      var t := Keep(s, p);
      if p(s[0]) {
        assert t == [s[0]] + Keep(s[1..], p);
        assert t[0] == s[0] && t[1..] == Keep(s[1..], p);
        assert Keep(t, q) == (if q(s[0]) then [s[0]] else []) + Keep(t[1..], q);
      } else {
        assert t == Keep(s[1..], p);
      }
    }
  }

  /** A filter every element passes keeps the whole list. */
  lemma {:induction false} KeepEverything<T>(s: seq<T>, p: T -> bool)
    requires forall i :: 0 <= i < |s| ==> p(s[i])
    ensures Keep(s, p) == s
  {
    if |s| > 0 {
      KeepEverything(s[1..], p);
      assert [s[0]] + s[1..] == s;
    }
  }

  /** Two filters that never both hold split the count of their disjunction. */
  lemma {:induction false} KeepDisjointCount<T>(s: seq<T>, p: T -> bool, q: T -> bool, pq: T -> bool)
    requires forall x :: pq(x) == (p(x) || q(x))
    requires forall x :: !(p(x) && q(x))
    ensures |Keep(s, pq)| == |Keep(s, p)| + |Keep(s, q)|
  {
    if |s| > 0 {
      KeepDisjointCount(s[1..], p, q, pq);
    }
  }

  /** One stage of a store's filtered getter: `if (active) list = list.filter(p)`. */
  function Stage<T>(s: seq<T>, active: bool, p: T -> bool): (r: seq<T>)
    ensures !active ==> r == s
    ensures active ==> r == Keep(s, p)
  {
    if active then Keep(s, p) else s
  }

  /** Two predicates that agree everywhere keep the same elements. */
  lemma {:induction false} KeepExtensional<T>(s: seq<T>, p: T -> bool, q: T -> bool)
    requires forall x :: p(x) == q(x)
    ensures Keep(s, p) == Keep(s, q)
  {
    if |s| > 0 {
      KeepExtensional(s[1..], p, q);
    }
  }

  /** A first stage filters by "inactive, or `p`". */
  lemma StageFirst<T>(s: seq<T>, active: bool, p: T -> bool, q: T -> bool)
    requires forall x :: q(x) == (!active || p(x))
    ensures Stage(s, active, p) == Keep(s, q)
  {
    if active {
      KeepExtensional(s, p, q);
    } else {
      KeepEverything(s, q);
    }
  }

  /** A stage after filtering by `p0` filters once by `p0` and "inactive, or `p`". */
  lemma StageAfterKeep<T>(s: seq<T>, p0: T -> bool, active: bool, p: T -> bool, q: T -> bool)
    requires forall x :: q(x) == (p0(x) && (!active || p(x)))
    ensures Stage(Keep(s, p0), active, p) == Keep(s, q)
  {
    if active {
      KeepThenKeep(s, p0, p, q);
    } else {
      KeepExtensional(s, p0, q);
    }
  }

  /** `s.findIndex(p)`: the first index whose element satisfies `p`, or -1. */
  function FindFirst<T>(s: seq<T>, p: T -> bool): (i: int)
    ensures -1 <= i < |s|
    ensures i >= 0 ==> p(s[i])
    ensures forall k :: 0 <= k < |s| && (i < 0 || k < i) ==> !p(s[k])
  {
    if |s| == 0 then -1
    else if p(s[0]) then 0
    else
      var j := FindFirst(s[1..], p);
      if j < 0 then -1 else j + 1
  }

  /** `s.findIndex(x => idOf(x) === id)` */
  function FindIndex<T>(s: seq<T>, idOf: T -> int, id: int): (i: int)
    ensures -1 <= i < |s|
    ensures i >= 0 ==> idOf(s[i]) == id
    ensures forall k :: 0 <= k < |s| && (i < 0 || k < i) ==> idOf(s[k]) != id
  {
    FindFirst(s, (x: T) => idOf(x) == id)
  }

  /** `s.find(x => idOf(x) === id)` */
  function Find<T>(s: seq<T>, idOf: T -> int, id: int): (r: Option<T>)
    ensures r.None? <==> forall k :: 0 <= k < |s| ==> idOf(s[k]) != id
    ensures r.Some? ==> r.value in s && idOf(r.value) == id
  {
    var i := FindIndex(s, idOf, id);
    if i < 0 then None else Some(s[i])
  }

  /** Some element of `s` carries the id. */
  predicate HasId<T>(s: seq<T>, idOf: T -> int, id: int) {
    exists k :: 0 <= k < |s| && idOf(s[k]) == id
  }

  /** `const i = s.findIndex(...); if (i !== -1) s[i] = x` */
  function ReplaceFirst<T>(s: seq<T>, idOf: T -> int, id: int, x: T): (r: seq<T>)
    ensures |r| == |s|
    ensures !HasId(s, idOf, id) ==> r == s
    ensures HasId(s, idOf, id) ==> x in r
    ensures forall k :: 0 <= k < |s| && r[k] != s[k] ==>
              r[k] == x && idOf(s[k]) == id && forall j :: 0 <= j < k ==> idOf(s[j]) != id
  {
    var i := FindIndex(s, idOf, id);
    if i < 0 then s
    else
      assert s[i := x][i] == x;
      s[i := x]
  }

  /** Replacing by a record with the same id leaves every id in place, so a later lookup finds the new record. */
  lemma ReplaceFirstKeepsIds<T>(s: seq<T>, idOf: T -> int, id: int, x: T)
    requires idOf(x) == id
    ensures forall k :: 0 <= k < |s| ==> idOf(ReplaceFirst(s, idOf, id, x)[k]) == idOf(s[k])
    ensures HasId(s, idOf, id) ==> Find(ReplaceFirst(s, idOf, id, x), idOf, id) == Some(x)
  {
    var r := ReplaceFirst(s, idOf, id, x);
    var i := FindIndex(s, idOf, id);
    if i >= 0 {
      var j := FindIndex(r, idOf, id);
      assert idOf(r[i]) == id;
      assert j == i;
    }
  }

  /** `s.filter(x => idOf(x) !== id)` */
  function RemoveId<T>(s: seq<T>, idOf: T -> int, id: int): (r: seq<T>)
    ensures forall i :: 0 <= i < |r| ==> r[i] in s && idOf(r[i]) != id
    ensures forall i :: 0 <= i < |s| && idOf(s[i]) != id ==> s[i] in r
    ensures !HasId(r, idOf, id)
    ensures |r| < |s| <==> HasId(s, idOf, id)
    ensures !HasId(s, idOf, id) ==> r == s
  {
    KeepUnlessId(s, idOf, id);
    Keep(s, (x: T) => idOf(x) != id)
  }

  lemma {:induction false} KeepUnlessId<T>(s: seq<T>, idOf: T -> int, id: int)
    ensures |Keep(s, (x: T) => idOf(x) != id)| < |s| <==> HasId(s, idOf, id)
    ensures !HasId(s, idOf, id) ==> Keep(s, (x: T) => idOf(x) != id) == s
  {
    if |s| > 0 {
      KeepUnlessId(s[1..], idOf, id);
      if idOf(s[0]) != id && HasId(s, idOf, id) {
        var k :| 0 <= k < |s| && idOf(s[k]) == id;
        assert idOf(s[1..][k - 1]) == id;
      }
      if HasId(s[1..], idOf, id) {
        var k :| 0 <= k < |s[1..]| && idOf(s[1..][k]) == id;
        assert idOf(s[k + 1]) == id;
      }
      assert [s[0]] + s[1..] == s;
    }
  }

  /** `if (current?.id === id) current = x` */
  function PatchCurrent<T>(current: Option<T>, idOf: T -> int, id: int, x: T): (r: Option<T>)
    ensures current.Some? && idOf(current.value) == id ==> r == Some(x)
    ensures !(current.Some? && idOf(current.value) == id) ==> r == current
  {
    if current.Some? && idOf(current.value) == id then Some(x) else current
  }

  /** `if (current?.id === id) current = null` */
  function DropCurrent<T>(current: Option<T>, idOf: T -> int, id: int): (r: Option<T>)
    ensures r.Some? <==> current.Some? && idOf(current.value) != id
    ensures r.Some? ==> r == current
  {
    if current.Some? && idOf(current.value) == id then None else current
  }
}
