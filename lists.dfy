/** The list operations the node's mutators perform in place: the append guarded by
    `x not in s`, Python's `list.remove` (first occurrence), and the duplicate collapse
    that repeated guarded appends produce. */
module Lists {

  predicate NoDup<T(==)>(s: seq<T>) {
    forall i, j :: 0 <= i < j < |s| ==> s[i] != s[j]
  }

  /** `if x not in s: s.append(x)`. The old list is kept as a prefix, `x` is in the
      result, and the list grows by one element exactly when `x` was absent. */
  function AppendIfAbsent<T(==)>(s: seq<T>, x: T): (r: seq<T>)
    ensures s <= r && x in r
    ensures |r| == if x in s then |s| else |s| + 1
    ensures NoDup(s) ==> NoDup(r)
  {
    if x in s then s else s + [x]
  }

  /** A second guarded append of the same element changes nothing. */
  lemma AppendIfAbsentIdempotent<T>(s: seq<T>, x: T)
    ensures AppendIfAbsent(AppendIfAbsent(s, x), x) == AppendIfAbsent(s, x)
  {
  }

  /** The position of the first occurrence of `x` in `s`. */
  function FirstIndex<T(==)>(s: seq<T>, x: T): (i: nat)
    requires x in s
    ensures i < |s| && s[i] == x && x !in s[..i]
  {
    if s[0] == x then 0
    else
      var i := FirstIndex(s[1..], x);
      assert s[1..][..i] == s[1..i + 1];
      1 + i
  }

  /** Python's `s.remove(x)` where `x in s`, and `s` itself otherwise: the first
      occurrence of `x` is cut out and everything else keeps its order. */
  function RemoveFirst<T(==)>(s: seq<T>, x: T): (r: seq<T>)
    ensures x !in s ==> r == s
    ensures x in s ==> r == s[..FirstIndex(s, x)] + s[FirstIndex(s, x) + 1..]
  {
    if s == [] then []
    else if s[0] == x then s[1..]
    else
      var r := RemoveFirst(s[1..], x);
      assert s == [s[0]] + s[1..];
      assert x in s ==> r == s[1..][..FirstIndex(s, x) - 1] + s[FirstIndex(s, x) + 1..];
      [s[0]] + r
  }

  /** On a duplicate-free list, removing `x` leaves no `x` behind and no duplicate. */
  lemma RemoveFirstFromNoDup<T>(s: seq<T>, x: T)
    requires NoDup(s)
    ensures x !in RemoveFirst(s, x)
    ensures NoDup(RemoveFirst(s, x))
  {
    var r := RemoveFirst(s, x);
    if x in s {
      var i := FirstIndex(s, x);
      assert r == s[..i] + s[i + 1..];
      forall k | 0 <= k < |r| ensures r[k] != x {
        if k < i { assert r[k] == s[k]; } else { assert r[k] == s[k + 1]; }
      }
      forall a, b | 0 <= a < b < |r| ensures r[a] != r[b] {
        var a' := if a < i then a else a + 1;
        var b' := if b < i then b else b + 1;
        assert r[a] == s[a'] && r[b] == s[b'];
      }
    }
  }

  /** The elements of `s` with every repeat dropped, as a run of guarded appends from
      the empty list leaves them. */
  function Dedup<T(==)>(s: seq<T>): (r: seq<T>)
    ensures NoDup(r)
    ensures forall i :: 0 <= i < |r| ==> r[i] in s
    ensures forall i :: 0 <= i < |s| ==> s[i] in r
  {
    if s == [] then [] else AppendIfAbsent(Dedup(s[..|s| - 1]), s[|s| - 1])
  }

  /** A list without duplicates is its own duplicate collapse. */
  lemma {:induction false} DedupOfNoDup<T>(s: seq<T>)
    requires NoDup(s)
    ensures Dedup(s) == s
  {
    if s != [] {
      var p, x := s[..|s| - 1], s[|s| - 1];
      assert s == p + [x];
      assert NoDup(p) by {
        forall i, j | 0 <= i < j < |p| ensures p[i] != p[j] {
          assert p[i] == s[i] && p[j] == s[j];
        }
      }
      DedupOfNoDup(p);
      assert x !in p by {
        forall i | 0 <= i < |p| ensures p[i] != x {
          assert p[i] == s[i];
        }
      }
    }
  }

  /** Dedup keeps first occurrences, in order: of two kept elements, the one earlier in
      the result occurs first earlier in the input. */
  lemma {:induction false} DedupKeepsFirstOccurrenceOrder<T>(s: seq<T>, a: nat, b: nat)
    requires a < b < |Dedup(s)|
    ensures Dedup(s)[a] in s && Dedup(s)[b] in s
    ensures FirstIndex(s, Dedup(s)[a]) < FirstIndex(s, Dedup(s)[b])
  {
    var p := s[..|s| - 1];
    var x := s[|s| - 1];
    var d := Dedup(p);
    assert s == p + [x];
    if x in d {
      DedupKeepsFirstOccurrenceOrder(p, a, b);
      FirstIndexOfExtension(p, x, d[a]);
      FirstIndexOfExtension(p, x, d[b]);
    } else if b < |d| {
      DedupKeepsFirstOccurrenceOrder(p, a, b);
      FirstIndexOfExtension(p, x, d[a]);
      FirstIndexOfExtension(p, x, d[b]);
    } else {
      assert Dedup(s)[b] == x && x !in p;
      assert d[a] in p;
      FirstIndexOfExtension(p, x, d[a]);
      assert FirstIndex(s, x) == |p|;
    }
  }

  /** Appending to a list does not move the first occurrence of what it already held. */
  lemma FirstIndexOfExtension<T>(p: seq<T>, x: T, y: T)
    requires y in p
    ensures y in p + [x] && FirstIndex(p + [x], y) == FirstIndex(p, y)
  {
    var i := FirstIndex(p, y);
    assert (p + [x])[i] == y && (p + [x])[..i] == p[..i];
  }
}
