/**
 Levenshtein edit distance, as computed by the commons-text
 `LevenshteinDistance` that the distorted-label detector uses, and the
 laws of that metric the detector's decision rests on. The distance is
 defined over sequences of any element type; the detector applies it to
 labels as sequences of UTF-16 code units, the units Java strings compare.
 */
module Levenshtein {

  function Min3(x: nat, y: nat, z: nat): nat {
    if x <= y && x <= z then x else if y <= z then y else z
  }

  function Max(x: nat, y: nat): nat {
    if x >= y then x else y
  }

  /** Cost of aligning element `x` with element `y`. */
  function Cost<T(==)>(x: T, y: T): nat {
    if x == y then 0 else 1
  }

  /**
   The least number of single-element deletions, insertions and
   substitutions, each costing 1, that turn `a` into `b`.
   The result lies between the difference of the lengths and the longer length.
   */
  function Distance<T(==)>(a: seq<T>, b: seq<T>): (d: nat)
    ensures d <= Max(|a|, |b|)
    ensures |a| - |b| <= d && |b| - |a| <= d
    decreases |a| + |b|
  {
    if |a| == 0 then |b|
    else if |b| == 0 then |a|
    else Min3(Distance(a[1..], b) + 1,
              Distance(a, b[1..]) + 1,
              Distance(a[1..], b[1..]) + Cost(a[0], b[0]))
  }

  /**
   The bounded distance of `LevenshteinDistance(bound)`: the exact distance
   when it does not exceed `bound`, and -1 otherwise.
   */
  function BoundedDistance<T(==)>(a: seq<T>, b: seq<T>, bound: nat): (r: int)
    ensures r == -1 || (0 <= r <= bound)
    ensures r >= 0 ==> r == Distance(a, b)
    ensures r == -1 <==> Distance(a, b) > bound
  {
    var d := Distance(a, b);
    if d <= bound then d else -1
  }

  /** A sequence is at distance 0 from itself. */
  lemma {:induction false} DistanceToSelf<T>(a: seq<T>)
    ensures Distance(a, a) == 0
  {
    if |a| > 0 {
      DistanceToSelf(a[1..]);
    }
  }

  /** Distance 0 means the sequences are identical, and only then. */
  lemma {:induction false} DistanceZeroIffEqual<T>(a: seq<T>, b: seq<T>)
    ensures Distance(a, b) == 0 <==> a == b
    decreases |a| + |b|
  {
    if a == b {
      DistanceToSelf(a);
    } else if |a| > 0 && |b| > 0 {
      if a[0] == b[0] {
        assert a[1..] != b[1..] by {
          assert a == [a[0]] + a[1..] && b == [b[0]] + b[1..];
        }
        DistanceZeroIffEqual(a[1..], b[1..]);
      }
    }
  }

  /** The distance does not depend on the order of its arguments. */
  lemma {:induction false} DistanceSymmetric<T>(a: seq<T>, b: seq<T>)
    ensures Distance(a, b) == Distance(b, a)
    decreases |a| + |b|
  {
    if |a| > 0 && |b| > 0 {
      DistanceSymmetric(a[1..], b);
      DistanceSymmetric(a, b[1..]);
      DistanceSymmetric(a[1..], b[1..]);
    }
  }

  /** A shared prefix never adds to the distance. */
  lemma {:induction false} SharedPrefix<T>(p: seq<T>, a: seq<T>, b: seq<T>)
    ensures Distance(p + a, p + b) <= Distance(a, b)
  {
    if |p| > 0 {
      SharedPrefix(p[1..], a, b);
      assert (p + a)[0] == (p + b)[0] == p[0];
      assert (p + a)[1..] == p[1..] + a;
      assert (p + b)[1..] == p[1..] + b;
    } else {
      assert p + a == a && p + b == b;
    }
  }

  /** Deleting one leading element costs at most 1. */
  lemma DropHead<T>(x: T, a: seq<T>)
    ensures Distance([x] + a, a) <= 1
  {
    DistanceToSelf(a);
    if |a| > 0 {
      assert ([x] + a)[1..] == a;
    }
  }

  /** How many elements of `s`, counted with repetition, belong to `cs`. */
  function CountIn<T(==)>(s: seq<T>, cs: set<T>): (n: nat)
    ensures n <= |s|
  {
    if s == [] then 0 else (if s[0] in cs then 1 else 0) + CountIn(s[1..], cs)
  }

  /**
   Every edit changes the number of elements from `cs` by at most one, so
   the distance is at least the surplus of such elements in `a` over `b`.
   */
  lemma {:induction false} CountInLowerBound<T>(a: seq<T>, b: seq<T>, cs: set<T>)
    ensures CountIn(a, cs) - CountIn(b, cs) <= Distance(a, b)
    decreases |a| + |b|
  {
    if |a| > 0 && |b| > 0 {
      CountInLowerBound(a[1..], b, cs);
      CountInLowerBound(a, b[1..], cs);
      CountInLowerBound(a[1..], b[1..], cs);
    }
  }

  /** Sequences with more than `k` surplus elements from `cs` are more than `k` edits apart. */
  lemma FarApart<T>(a: seq<T>, b: seq<T>, cs: set<T>, k: nat)
    requires CountIn(a, cs) > CountIn(b, cs) + k
    ensures Distance(a, b) > k
  {
    CountInLowerBound(a, b, cs);
  }

  /** Inserting one element anywhere makes a sequence exactly one edit away. */
  lemma OneInsertionApart<T>(p: seq<T>, x: T, s: seq<T>)
    ensures Distance(p + [x] + s, p + s) == 1
  {
    assert p + [x] + s == p + ([x] + s);
    SharedPrefix(p, [x] + s, s);
    DropHead(x, s);
    assert |p + [x] + s| != |p + s|;
    DistanceZeroIffEqual(p + [x] + s, p + s);
  }
}
