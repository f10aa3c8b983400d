/**
 * Array utilities that build new arrays and leave their input alone:
 * `append`, `remove` and `unique`. Arrays are sequences here, so the input
 * can never be modified; `remove` edits its private copy in place, as the
 * original does with `splice`.
 */
module Arrays {

  /** `append(array, ...elements)`: the array followed by the elements. */
  function Append<T>(a: seq<T>, elements: seq<T>): (r: seq<T>)
    ensures |r| == |a| + |elements|
    ensures r[..|a|] == a && r[|a|..] == elements
  {
    a + elements
  }

  /** `Array.prototype.indexOf`: the first index holding `x`, or -1. */
  function IndexOf<T(==)>(s: seq<T>, x: T): (i: int)
    ensures -1 <= i < |s|
    ensures i == -1 <==> x !in s
    ensures 0 <= i ==> s[i] == x && x !in s[..i]
  {
    if s == [] then -1
    else if s[0] == x then 0
    else
      var j := IndexOf(s[1..], x);
      assert 0 <= j ==> s[..j + 1] == [s[0]] + s[1..][..j];
      if j == -1 then -1 else j + 1
  }

  /** The index of an element of `p` is the same in `p + q`. */
  lemma {:induction false} IndexOfPrefix<T>(p: seq<T>, q: seq<T>, x: T)
    requires x in p
    ensures IndexOf(p + q, x) == IndexOf(p, x)
  {
    if p[0] != x {
      assert (p + q)[1..] == p[1..] + q;
      IndexOfPrefix(p[1..], q, x);
    }
  }

  // ----- remove -----

  /** Delete the first occurrence of `x`, if there is one. */
  function RemoveFirst<T(==)>(s: seq<T>, x: T): seq<T>
  {
    if s == [] then []
    else if s[0] == x then s[1..]
    else [s[0]] + RemoveFirst(s[1..], x)
  }

  /** `remove(array, ...elements)`: for each element in turn, delete the
      first remaining occurrence of it; elements not found are ignored. */
  function RemoveEach<T(==)>(s: seq<T>, elements: seq<T>): seq<T>
    decreases |elements|
  {
    if elements == [] then s else RemoveEach(RemoveFirst(s, elements[0]), elements[1..])
  }

  /** `splice(indexOf(x), 1)` deletes the first occurrence of `x`. */
  lemma {:induction false} SpliceRemovesFirst<T>(s: seq<T>, x: T)
    requires x in s
    ensures var i := IndexOf(s, x); s[..i] + s[i + 1..] == RemoveFirst(s, x)
  {
    if s[0] != x {
      var rest := s[1..];
      assert x in rest by { assert s == [s[0]] + rest; }
      SpliceRemovesFirst(rest, x);
      var j := IndexOf(rest, x);
      calc {
        s[..j + 1] + s[j + 2..];
        { assert s[..j + 1] == [s[0]] + rest[..j]; assert s[j + 2..] == rest[j + 1..]; }
        [s[0]] + rest[..j] + rest[j + 1..];
        [s[0]] + (rest[..j] + rest[j + 1..]);
      }
    }
  }

  lemma {:induction false} RemoveFirstAbsent<T>(s: seq<T>, x: T)
    requires x !in s
    ensures RemoveFirst(s, x) == s
  {
    if s != [] {
      RemoveFirstAbsent(s[1..], x);
    }
  }

  /** `remove` over a private copy: find each element with `indexOf`, skip
      it when it is missing, and otherwise splice it out. */
  method Remove<T(==)>(a: seq<T>, elements: seq<T>) returns (copy: seq<T>)
    ensures copy == RemoveEach(a, elements)
  {
    copy := a;
    for k := 0 to |elements|
      invariant RemoveEach(copy, elements[k..]) == RemoveEach(a, elements)
    {
      assert elements[k..][1..] == elements[k + 1..];
      var element := elements[k];
      var toRemove := IndexOf(copy, element);
      if toRemove == -1 {
        RemoveFirstAbsent(copy, element);
        continue;
      }
      SpliceRemovesFirst(copy, element);
      copy := copy[..toRemove] + copy[toRemove + 1..];
    }
    assert elements[|elements|..] == [];
  }

  lemma {:induction false} RemoveFirstMultiset<T>(s: seq<T>, x: T)
    ensures multiset(RemoveFirst(s, x)) == multiset(s) - multiset{x}
  {
    if s == [] {
    } else if s[0] == x {
      assert s == [s[0]] + s[1..];
    } else {
      RemoveFirstMultiset(s[1..], x);
      assert s == [s[0]] + s[1..];
      assert multiset([s[0]] + RemoveFirst(s[1..], x)) == multiset{s[0]} + (multiset(s[1..]) - multiset{x});
    }
  }

  /** `remove` is multiset difference: an element mentioned k times in
      `elements` loses up to k of its occurrences, and the rest stay. */
  lemma {:induction false} RemoveEachMultiset<T>(s: seq<T>, elements: seq<T>)
    decreases |elements|
    ensures multiset(RemoveEach(s, elements)) == multiset(s) - multiset(elements)
    ensures |RemoveEach(s, elements)| == |multiset(s) - multiset(elements)|
  {
    if elements != [] {
      var e := elements[0];
      RemoveFirstMultiset(s, e);
      RemoveEachMultiset(RemoveFirst(s, e), elements[1..]);
      assert elements == [e] + elements[1..];
      assert multiset(elements) == multiset{e} + multiset(elements[1..]);
      assert (multiset(s) - multiset{e}) - multiset(elements[1..]) == multiset(s) - multiset(elements);
    }
  }

  /** `remove` ignores elements that are not in the array. */
  lemma {:induction false} RemoveEachAbsent<T>(s: seq<T>, elements: seq<T>)
    requires forall x :: x in elements ==> x !in s
    decreases |elements|
    ensures RemoveEach(s, elements) == s
  {
    if elements != [] {
      RemoveFirstAbsent(s, elements[0]);
      RemoveEachAbsent(s, elements[1..]);
    }
  }

  /** `r` is `s` with some of its positions deleted. */
  predicate IsSubsequence<T(==)>(r: seq<T>, s: seq<T>)
    decreases |s|
  {
    r == [] || (s != [] && ((r[0] == s[0] && IsSubsequence(r[1..], s[1..])) || IsSubsequence(r, s[1..])))
  }

  lemma {:induction false} SubsequenceReflexive<T>(s: seq<T>)
    ensures IsSubsequence(s, s)
  {
    if s != [] {
      SubsequenceReflexive(s[1..]);
    }
  }

  lemma {:induction false} SubsequenceTransitive<T>(a: seq<T>, b: seq<T>, c: seq<T>)
    requires IsSubsequence(a, b) && IsSubsequence(b, c)
    decreases |c|
    ensures IsSubsequence(a, c)
  {
    if a != [] {
      if IsSubsequence(b, c[1..]) {
        SubsequenceTransitive(a, b, c[1..]);
      } else if a[0] == b[0] && IsSubsequence(a[1..], b[1..]) {
        SubsequenceTransitive(a[1..], b[1..], c[1..]);
      } else {
        SubsequenceTransitive(a, b[1..], c[1..]);
      }
    }
  }

  lemma {:induction false} RemoveFirstSubsequence<T>(s: seq<T>, x: T)
    ensures IsSubsequence(RemoveFirst(s, x), s)
  {
    if s != [] {
      if s[0] == x {
        SubsequenceReflexive(s[1..]);
      } else {
        RemoveFirstSubsequence(s[1..], x);
        assert ([s[0]] + RemoveFirst(s[1..], x))[1..] == RemoveFirst(s[1..], x);
      }
    }
  }

  /** What `remove` returns keeps the order of the array: it is the array
      with some positions deleted. */
  lemma {:induction false} RemoveEachSubsequence<T>(s: seq<T>, elements: seq<T>)
    decreases |elements|
    ensures IsSubsequence(RemoveEach(s, elements), s)
  {
    if elements == [] {
      SubsequenceReflexive(s);
    } else {
      RemoveFirstSubsequence(s, elements[0]);
      RemoveEachSubsequence(RemoveFirst(s, elements[0]), elements[1..]);
      SubsequenceTransitive(RemoveEach(s, elements), RemoveFirst(s, elements[0]), s);
    }
  }

  /** Appending elements and then removing them gives back the array's
      elements, as a multiset. */
  lemma RemoveUndoesAppend<T>(a: seq<T>, elements: seq<T>)
    ensures multiset(RemoveEach(Append(a, elements), elements)) == multiset(a)
  {
    RemoveEachMultiset(Append(a, elements), elements);
    assert multiset(a + elements) == multiset(a) + multiset(elements);
  }

  /** The cases the test suite checks: removing 2, 4 and 6 from 1, 2, 3, 4
      leaves 1, 3, and the input is left as it was. */
  lemma RemoveExample()
    ensures RemoveEach([1, 2, 3, 4], [2, 4]) == [1, 3]
    ensures RemoveEach([1, 2, 3, 4], [2, 4, 6]) == [1, 3]
  {
    SpliceRemovesFirst([1, 2, 3, 4], 2);
    SpliceRemovesFirst([1, 3, 4], 4);
    RemoveFirstAbsent([1, 3], 6);
    assert [2, 4][1..] == [4] && [2, 4, 6][1..] == [4, 6] && [4, 6][1..] == [6];
  }

  // ----- unique -----

  predicate NoDuplicates<T(==)>(s: seq<T>)
  {
    forall i, j :: 0 <= i < j < |s| ==> s[i] != s[j]
  }

  /** `unique(array)`, that is `Array.from(new Set(array))`: the elements
      inserted one by one into a set that keeps insertion order and ignores
      elements already in it. */
  function Unique<T(==)>(s: seq<T>): (r: seq<T>)
    ensures NoDuplicates(r)
    ensures forall i :: 0 <= i < |s| ==> s[i] in r
    ensures forall i :: 0 <= i < |r| ==> r[i] in s
  {
    if s == [] then []
    else
      var r := Unique(s[..|s| - 1]);
      var x := s[|s| - 1];
      assert s == s[..|s| - 1] + [x];
      if x in r then r else r + [x]
  }

  /** The elements of `r` come in the order of their first occurrence in `s`. */
  predicate InFirstOccurrenceOrder<T(==)>(r: seq<T>, s: seq<T>)
  {
    forall i, j :: 0 <= i < j < |r| ==> IndexOf(s, r[i]) < IndexOf(s, r[j])
  }

  /** The elements of `unique(array)` come in the order of their first
      occurrence in the array. */
  lemma {:induction false} UniqueKeepsFirstOccurrenceOrder<T>(s: seq<T>)
    ensures InFirstOccurrenceOrder(Unique(s), s)
  {
    if s != [] {
      var p, x := s[..|s| - 1], s[|s| - 1];
      assert s == p + [x];
      UniqueKeepsFirstOccurrenceOrder(p);
      var up := Unique(p);
      var r := Unique(s);
      assert r == if x in up then up else up + [x];
      forall i, j | 0 <= i < j < |r|
        ensures IndexOf(s, r[i]) < IndexOf(s, r[j])
      {
        assert InFirstOccurrenceOrder(up, p);
        var a := up[i];
        assert r[i] == a && a in p;
        IndexOfPrefix(p, [x], a);
        assert IndexOf(s, r[i]) == IndexOf(p, a) < |p|;
        if j < |up| {
          var b := up[j];
          assert r[j] == b && b in p;
          IndexOfPrefix(p, [x], b);
          assert IndexOf(p, a) < IndexOf(p, b);
          assert IndexOf(s, r[j]) == IndexOf(p, b);
        } else {
          assert r[j] == x && x !in p;
          IndexOfLast(p, x);
          assert IndexOf(s, r[j]) == |p|;
        }
      }
    }
  }

  /** An element that is new at the end of `p + [x]` is found there. */
  lemma IndexOfLast<T>(p: seq<T>, x: T)
    requires x !in p
    ensures IndexOf(p + [x], x) == |p|
  {
    assert (p + [x])[|p|] == x;
  }

  /** An array without duplicates is its own `unique`. */
  lemma {:induction false} UniqueOfDistinct<T>(s: seq<T>)
    requires NoDuplicates(s)
    ensures Unique(s) == s
  {
    if s != [] {
      var p, x := s[..|s| - 1], s[|s| - 1];
      UniqueOfDistinct(p);
      assert x !in p;
    }
  }

  /** `unique` is idempotent. */
  lemma UniqueIdempotent<T>(s: seq<T>)
    ensures Unique(Unique(s)) == Unique(s)
  {
    UniqueOfDistinct(Unique(s));
  }
}
