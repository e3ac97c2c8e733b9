/**
 * Sequence operations the backend performs through JavaScript `Set`s and
 * MongoDB array updates: insertion-ordered deduplication
 * (`[...new Set(xs)]`), set-semantics append (`$addToSet`) and removal of
 * every occurrence (`filter(x => x !== id)`).
 */
module Collections {

  predicate NoDup<T(==)>(s: seq<T>) {
    forall i, j :: 0 <= i < j < |s| ==> s[i] != s[j]
  }

  /** `$addToSet`: append `x` unless it is already present. */
  function AddToSet<T(==,!new)>(s: seq<T>, x: T): (r: seq<T>)
    ensures x in r
    ensures forall y :: y in r <==> y in s || y == x
    ensures |s| <= |r| <= |s| + 1 && r[..|s|] == s
    ensures NoDup(s) ==> NoDup(r)
  {
    if x in s then s else s + [x]
  }

  /** Adding an element a second time changes nothing. */
  lemma AddToSetIdempotent<T(!new)>(s: seq<T>, x: T)
    ensures AddToSet(AddToSet(s, x), x) == AddToSet(s, x)
  {
  }

  /**
   * `[...new Set(s)]`: the distinct elements of `s`, each kept at its first
   * occurrence. Written as the insertions a `Set` performs, one per element.
   */
  function Dedup<T(==,!new)>(s: seq<T>): (r: seq<T>)
    ensures NoDup(r)
    ensures forall x :: x in r <==> x in s
    ensures |r| <= |s|
    decreases |s|
  {
    if s == [] then [] else AddToSet(Dedup(s[..|s| - 1]), s[|s| - 1])
  }

  /** Position of the first occurrence of `x` in `s`. */
  function FirstIndex<T(==)>(s: seq<T>, x: T): (i: nat)
    requires x in s
    ensures i < |s| && s[i] == x && x !in s[..i]
  {
    if s[0] == x then 0 else 1 + FirstIndex(s[1..], x)
  }

  lemma FirstIndexExtend<T>(s: seq<T>, x: T, y: T)
    requires y in s
    ensures y in s + [x] && FirstIndex(s + [x], y) == FirstIndex(s, y)
  {
    if s[0] != y {
      assert (s + [x])[1..] == s[1..] + [x];
      FirstIndexExtend(s[1..], x, y);
    }
  }

  /** Deduplication keeps elements in the order of their first occurrence. */
  lemma {:induction false} DedupFirstOccurrenceOrder<T(!new)>(s: seq<T>)
    ensures forall i, j :: 0 <= i < j < |Dedup(s)| ==>
      FirstIndex(s, Dedup(s)[i]) < FirstIndex(s, Dedup(s)[j])
    decreases |s|
  {
    if s != [] {
      var init, x := s[..|s| - 1], s[|s| - 1];
      assert s == init + [x];
      DedupFirstOccurrenceOrder(init);
      var d := Dedup(init);
      forall y | y in d ensures FirstIndex(s, y) == FirstIndex(init, y) {
        FirstIndexExtend(init, x, y);
      }
      if x !in d {
        assert FirstIndex(s, x) == |init| by {
          assert s[|init|] == x && x !in s[..|init|];
        }
      }
    }
  }

  /** Dropping the last element keeps a sequence duplicate-free, and that element is not among the rest. */
  lemma NoDupInit<T>(s: seq<T>)
    requires NoDup(s) && s != []
    ensures NoDup(s[..|s| - 1]) && s[|s| - 1] !in s[..|s| - 1]
  {
    var init := s[..|s| - 1];
    forall i | 0 <= i < |init| ensures init[i] != s[|s| - 1] {
      assert init[i] == s[i];
    }
  }

  /** A sequence without duplicates is its own deduplication. */
  lemma {:induction false} DedupOfDistinct<T(!new)>(s: seq<T>)
    requires NoDup(s)
    ensures Dedup(s) == s
    decreases |s|
  {
    if s != [] {
      var init, last := s[..|s| - 1], s[|s| - 1];
      NoDupInit(s);
      DedupOfDistinct(init);
      assert Dedup(s) == AddToSet(init, last);
      assert init + [last] == s;
    }
  }

  /** `s.filter(y => y !== x)`. */
  function RemoveAll<T(==,!new)>(s: seq<T>, x: T): (r: seq<T>)
    ensures x !in r
    ensures forall y :: y != x ==> multiset(r)[y] == multiset(s)[y]
    ensures |r| == |s| - multiset(s)[x]
    decreases |s|
  {
    if s == [] then []
    else
      assert s == [s[0]] + s[1..];
      if s[0] == x then RemoveAll(s[1..], x)
      else [s[0]] + RemoveAll(s[1..], x)
  }

  /** Filtering distributes over concatenation, so the kept elements stay in order. */
  lemma {:induction false} RemoveAllConcat<T(!new)>(a: seq<T>, b: seq<T>, x: T)
    ensures RemoveAll(a + b, x) == RemoveAll(a, x) + RemoveAll(b, x)
    decreases |a|
  {
    if a != [] {
      assert (a + b)[0] == a[0] && (a + b)[1..] == a[1..] + b;
      RemoveAllConcat(a[1..], b, x);
      if a[0] != x {
        calc {
          RemoveAll(a + b, x);
          [a[0]] + RemoveAll(a[1..] + b, x);
          [a[0]] + (RemoveAll(a[1..], x) + RemoveAll(b, x));
          ([a[0]] + RemoveAll(a[1..], x)) + RemoveAll(b, x);
        }
      }
    } else {
      assert a + b == b;
    }
  }
}
