/**
 * The list-of-tags updates shared by the multi-select dropdown and both
 * preference forms: toggle (`includes ? filter(s => s !== x) : [...prev, x]`),
 * remove-all-occurrences (the chip's close button), and the in-place sort
 * with `localeCompare` that orders the chips for display.
 */
module TagList {
  import opened Text

  /** No tag occurs twice. */
  predicate NoDup(s: seq<string>) {
    forall i, j :: 0 <= i < j < |s| ==> s[i] != s[j]
  }

  /** `s.filter(y => y !== x)`: every occurrence of `x` is dropped, every
      other element is kept, in order. */
  function RemoveAll(s: seq<string>, x: string): (r: seq<string>)
    ensures x !in r
    ensures multiset(r) == multiset(s)[x := 0]
    ensures |r| == |s| - multiset(s)[x]
  {
    if s == [] then []
    else
      assert s == [s[0]] + s[1..];
      if s[0] == x then RemoveAll(s[1..], x) else [s[0]] + RemoveAll(s[1..], x)
  }

  /** Selecting a tag: a present tag is removed everywhere, an absent one is
      appended at the end. */
  function Toggle(s: seq<string>, x: string): (r: seq<string>)
    ensures x in r <==> x !in s
    ensures multiset(r)[x] == if x in s then 0 else 1
    ensures forall y :: y != x ==> multiset(r)[y] == multiset(s)[y]
  {
    if x in s then RemoveAll(s, x) else s + [x]
  }

  /** Removing keeps relative order: it distributes over concatenation. */
  lemma {:induction false} RemoveAllConcat(a: seq<string>, b: seq<string>, x: string)
    ensures RemoveAll(a + b, x) == RemoveAll(a, x) + RemoveAll(b, x)
  {
    if a != [] {
      assert (a + b)[1..] == a[1..] + b;
      RemoveAllConcat(a[1..], b, x);
    } else {
      assert a + b == b;
    }
  }

  /** Removing an absent tag changes nothing. */
  lemma {:induction false} RemoveAllAbsent(s: seq<string>, x: string)
    requires x !in s
    ensures RemoveAll(s, x) == s
  {
    if s != [] {
      RemoveAllAbsent(s[1..], x);
    }
  }

  /** Removing one tag keeps every other element, in order, and nothing else:
      the result is `s` with the occurrences of `x` cut out. */
  lemma {:induction false} RemoveAllExact(s: seq<string>, x: string, i: int)
    requires 0 <= i < |s| && s[i] != x && x !in s[..i]
    ensures RemoveAll(s, x) == s[..i] + [s[i]] + RemoveAll(s[i + 1..], x)
  {
    assert s == s[..i] + ([s[i]] + s[i + 1..]);
    RemoveAllConcat(s[..i], [s[i]] + s[i + 1..], x);
    RemoveAllAbsent(s[..i], x);
    assert ([s[i]] + s[i + 1..])[1..] == s[i + 1..];
  }

  /** Removing a tag from a duplicate-free list leaves it duplicate-free. */
  lemma {:induction false} RemoveAllKeepsNoDup(s: seq<string>, x: string)
    requires NoDup(s)
    ensures NoDup(RemoveAll(s, x))
  {
    if s != [] {
      assert NoDup(s[1..]);
      RemoveAllKeepsNoDup(s[1..], x);
      var rest := RemoveAll(s[1..], x);
      assert s[0] !in s[1..];
      assert multiset(rest)[s[0]] == 0 by {
        assert multiset(s[1..])[s[0]] == 0;
      }
    }
  }

  /** Toggling a tag keeps a duplicate-free list duplicate-free. */
  lemma ToggleKeepsNoDup(s: seq<string>, x: string)
    requires NoDup(s)
    ensures NoDup(Toggle(s, x))
  {
    if x in s {
      RemoveAllKeepsNoDup(s, x);
    }
  }

  /** Toggling twice from an absent tag restores exactly the same list. */
  lemma ToggleTwiceAbsent(s: seq<string>, x: string)
    requires x !in s
    ensures Toggle(Toggle(s, x), x) == s
  {
    RemoveAllConcat(s, [x], x);
    RemoveAllAbsent(s, x);
    assert RemoveAll([x], x) == [];
  }

  /** Toggling twice from a present tag restores the same set of elements;
      the tag moves to the end and loses any duplicates. */
  lemma ToggleTwicePresent(s: seq<string>, x: string)
    requires x in s
    ensures Toggle(Toggle(s, x), x) == RemoveAll(s, x) + [x]
    ensures forall y :: y in Toggle(Toggle(s, x), x) <==> y in s
  {
    var t := Toggle(Toggle(s, x), x);
    forall y
      ensures y in t <==> y in s
    {
      if y != x {
        assert multiset(t)[y] == multiset(s)[y];
      }
    }
  }

  /** Chips are sorted: each one precedes or equals every later one. */
  predicate Sorted(s: seq<string>) {
    forall i, j :: 0 <= i < j < |s| ==> LessEq(s[i], s[j])
  }

  /** Inserting `x` after the prefix of elements ordered before it keeps a
      sorted list sorted. */
  lemma InsertKeepsSorted(r: seq<string>, j: int, x: string)
    requires Sorted(r) && 0 <= j <= |r|
    requires forall k :: 0 <= k < j ==> LessEq(r[k], x)
    requires j < |r| ==> !LessEq(r[j], x)
    ensures Sorted(r[..j] + [x] + r[j..])
  {
    var t := r[..j] + [x] + r[j..];
    forall p, q | 0 <= p < q < |t|
      ensures LessEq(t[p], t[q])
    {
      if q < j {
        assert t[p] == r[p] && t[q] == r[q];
      } else if q == j {
        assert t[p] == r[p] && t[q] == x;
      } else if p < j {
        assert t[p] == r[p] && t[q] == r[q - 1];
      } else if p == j {
        assert t[q] == r[q - 1];
        LessEqTotal(r[j], x);
        if q - 1 > j {
          LessEqTransitive(x, r[j], r[q - 1]);
        }
      } else {
        assert t[p] == r[p - 1] && t[q] == r[q - 1];
      }
    }
  }

  /** `selected.sort((a, b) => a.localeCompare(b))`, by insertion: the
      result is sorted and holds exactly the same tags. */
  method SortStrings(s: seq<string>) returns (r: seq<string>)
    ensures Sorted(r)
    ensures multiset(r) == multiset(s)
  {
    r := [];
    for i := 0 to |s|
      invariant Sorted(r)
      invariant multiset(r) == multiset(s[..i])
    {
      var x := s[i];
      var j := 0;
      while j < |r| && LessEq(r[j], x)
        invariant 0 <= j <= |r|
        invariant forall k :: 0 <= k < j ==> LessEq(r[k], x)
      {
        j := j + 1;
      }
      InsertKeepsSorted(r, j, x);
      assert r == r[..j] + r[j..];
      assert s[..i + 1] == s[..i] + [x];
      r := r[..j] + [x] + r[j..];
    }
    assert s[..|s|] == s;
  }

  /** A sorted arrangement of a multiset of tags is unique, so the chips'
      display order depends only on which tags are selected, not on the
      order in which they were chosen. */
  lemma {:induction false} SortedUnique(a: seq<string>, b: seq<string>)
    requires Sorted(a) && Sorted(b)
    requires multiset(a) == multiset(b)
    ensures a == b
  {
    if a == [] {
      assert |b| == |multiset(b)| == 0;
    } else {
      assert |b| == |multiset(b)| == |a| > 0;
      assert a[0] in multiset(b);
      var k :| 0 <= k < |b| && b[k] == a[0];
      assert b[0] in multiset(a);
      var m :| 0 <= m < |a| && a[m] == b[0];
      if k > 0 && m > 0 {
        LessEqAntisymmetric(a[0], b[0]);
      }
      assert a[0] == b[0];
      assert a == [a[0]] + a[1..] && b == [b[0]] + b[1..];
      assert multiset(a) == multiset{a[0]} + multiset(a[1..]);
      assert multiset(b) == multiset{b[0]} + multiset(b[1..]);
      forall y
        ensures multiset(a[1..])[y] == multiset(b[1..])[y]
      {
        assert multiset(a)[y] == multiset(b)[y];
      }
      assert multiset(a[1..]) == multiset(b[1..]);
      SortedUnique(a[1..], b[1..]);
    }
  }
}
