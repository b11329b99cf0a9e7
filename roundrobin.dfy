/**
  Round-robin selection (`get_next_instance`) as a function of the cursor, and
  what a run of consecutive selections returns: one full round from any
  cursor hands out every instance exactly once, and any run of K picks over n
  instances gives each position between floor(K/n) and ceil(K/n) of them, and
  so each instance as many when the instances are distinct.
*/
module RoundRobin {

  /** The position `get_next_instance` returns: `index % len(instances)`. */
  function Pick(cursor: nat, n: nat): (i: nat)
    requires n > 0
    ensures i < n
  {
    cursor % n
  }

  /** The cursor `get_next_instance` stores: `(idx + 1) % len(instances)`. */
  function Step(cursor: nat, n: nat): (c: nat)
    requires n > 0
    ensures c < n
    ensures c == if Pick(cursor, n) + 1 == n then 0 else Pick(cursor, n) + 1
  {
    (Pick(cursor, n) + 1) % n
  }

  /** The cursor after `k` selections. */
  function After(cursor: nat, n: nat, k: nat): nat
    requires n > 0
    decreases k
  {
    if k == 0 then cursor else After(Step(cursor, n), n, k - 1)
  }

  /** The instances returned by `k` consecutive selections starting at `cursor`. */
  function Rotation<T>(xs: seq<T>, cursor: nat, k: nat): (r: seq<T>)
    requires |xs| > 0
    ensures |r| == k
    decreases k
  {
    if k == 0 then [] else [xs[Pick(cursor, |xs|)]] + Rotation(xs, Step(cursor, |xs|), k - 1)
  }

  /** Selections split at any point: the second part starts where the first left the cursor. */
  lemma {:induction false} RotationSplit<T>(xs: seq<T>, cursor: nat, a: nat, b: nat)
    requires |xs| > 0
    ensures Rotation(xs, cursor, a + b) == Rotation(xs, cursor, a) + Rotation(xs, After(cursor, |xs|, a), b)
    decreases a
  {
    if a > 0 {
      RotationSplit(xs, Step(cursor, |xs|), a - 1, b);
      assert a + b - 1 == (a - 1) + b;
    }
  }

  /** From a cursor inside the list, selections walk forward through it without wrapping. */
  lemma {:induction false} RotationRun<T>(xs: seq<T>, cursor: nat, k: nat)
    requires cursor < |xs| && cursor + k <= |xs|
    ensures Rotation(xs, cursor, k) == xs[cursor..cursor + k]
    ensures After(cursor, |xs|, k) == if cursor + k == |xs| then 0 else cursor + k
    decreases k
  {
    if k > 0 {
      var n := |xs|;
      PickSmall(cursor, n);
      var rest := Rotation(xs, Step(cursor, n), k - 1);
      assert Rotation(xs, cursor, k) == [xs[cursor]] + rest;
      if k > 1 {
        assert Step(cursor, n) == cursor + 1;
        RotationRun(xs, cursor + 1, k - 1);
        assert rest == xs[cursor + 1..cursor + k];
        assert After(cursor, n, k) == After(cursor + 1, n, k - 1);
      } else {
        assert rest == [];
        assert After(cursor, n, 1) == Step(cursor, n);
      }
    }
  }

  /** A cursor already inside the list is its own pick. */
  lemma PickSmall(cursor: nat, n: nat)
    requires cursor < n
    ensures Pick(cursor, n) == cursor
  {
  }

  /** Only the cursor's value modulo n matters. */
  lemma RotationNormalize<T>(xs: seq<T>, cursor: nat, k: nat)
    requires |xs| > 0
    ensures Rotation(xs, cursor, k) == Rotation(xs, Pick(cursor, |xs|), k)
    ensures After(cursor, |xs|, k) == After(Pick(cursor, |xs|), |xs|, k) || k == 0
  {
    var n, c := |xs|, Pick(cursor, |xs|);
    if k > 0 {
      PickSmall(c, n);
      assert Step(cursor, n) == Step(c, n);
    }
  }

  /**
    A full round: n consecutive selections from any cursor return the instance
    list rotated to start at the cursor, so every instance exactly once, and
    leave the cursor where it started.
  */
  lemma FullRound<T>(xs: seq<T>, cursor: nat)
    requires |xs| > 0
    ensures Rotation(xs, cursor, |xs|) == xs[Pick(cursor, |xs|)..] + xs[..Pick(cursor, |xs|)]
    ensures multiset(Rotation(xs, cursor, |xs|)) == multiset(xs)
    ensures After(cursor, |xs|, |xs|) == Pick(cursor, |xs|)
  {
    var c := Pick(cursor, |xs|);
    RotationNormalize(xs, cursor, |xs|);
    RoundFromInside(xs, c);
    RotatedMultiset(xs, c);
  }

  /** A full round from a cursor inside the list. */
  lemma RoundFromInside<T>(xs: seq<T>, c: nat)
    requires c < |xs|
    ensures Rotation(xs, c, |xs|) == xs[c..] + xs[..c]
    ensures After(c, |xs|, |xs|) == c
  {
    var n := |xs|;
    if c == 0 {
      RotationRun(xs, 0, n);
      assert xs[0..n] == xs;
    } else {
      var m := n - c;
      RotationSplit(xs, c, m, c);
      assert m + c == n;
      RotationRun(xs, c, m);
      assert After(c, n, m) == 0;
      RotationRun(xs, 0, c);
      AfterSplit(c, n, m, c);
      assert xs[c..c + m] == xs[c..];
      assert xs[0..0 + c] == xs[..c];
    }
  }

  lemma RotatedMultiset<T>(xs: seq<T>, c: nat)
    requires c <= |xs|
    ensures multiset(xs[c..] + xs[..c]) == multiset(xs)
  {
    assert xs == xs[..c] + xs[c..];
  }

  /** Taking steps in two runs ends where one run of the combined length ends. */
  lemma {:induction false} AfterSplit(cursor: nat, n: nat, a: nat, b: nat)
    requires n > 0
    ensures After(cursor, n, a + b) == After(After(cursor, n, a), n, b)
    decreases a
  {
    if a > 0 {
      AfterSplit(Step(cursor, n), n, a - 1, b);
      assert a + b - 1 == (a - 1) + b;
    }
  }

  /** The positions 0 .. n-1, in order. */
  function Positions(n: nat): (r: seq<int>)
    ensures |r| == n
    ensures forall i | 0 <= i < n :: r[i] == i
  {
    seq(n, i requires 0 <= i < n => i)
  }

  /** No element occurs twice. */
  predicate Distinct<T(==)>(s: seq<T>) {
    forall i, j | 0 <= i < j < |s| :: s[i] != s[j]
  }

  lemma {:induction false} DistinctOccursAtMostOnce<T>(s: seq<T>, x: T)
    requires Distinct(s)
    ensures multiset(s)[x] <= 1
    ensures x in s ==> multiset(s)[x] == 1
  {
    if s != [] {
      assert s == [s[0]] + s[1..];
      assert Distinct(s[1..]);
      DistinctOccursAtMostOnce(s[1..], x);
      if x == s[0] {
        assert x !in s[1..];
      }
    }
  }

  /** Fewer than n consecutive selections never return the same position twice. */
  lemma ShortRunDistinct(n: nat, cursor: nat, k: nat)
    requires 0 < n && k <= n
    ensures Distinct(Rotation(Positions(n), cursor, k))
  {
    var c := Pick(cursor, n);
    var xs := Positions(n);
    FullRound(xs, cursor);
    RotationSplit(xs, cursor, k, n - k);
    assert Rotation(xs, cursor, n)[..k] == Rotation(xs, cursor, k);
    var full := xs[c..] + xs[..c];
    assert forall i | 0 <= i < n :: full[i] == if i < n - c then c + i else i - (n - c);
  }

  /** How many of k consecutive selections over n instances, from `cursor`, return position i. */
  function Hits(n: nat, cursor: nat, k: nat, i: int): nat
    requires n > 0
  {
    multiset(Rotation<int>(Positions(n), cursor, k))[i]
  }

  /** A run shorter than a round returns each position at most once. */
  lemma ShortRunFair(n: nat, cursor: nat, k: nat, i: int)
    requires 0 < n && k < n
    ensures Hits(n, cursor, k, i) <= 1
  {
    ShortRunDistinct(n, cursor, k);
    DistinctOccursAtMostOnce<int>(Rotation<int>(Positions(n), cursor, k), i);
  }

  /** A full round returns each position exactly once. */
  lemma RoundHitsOnce(n: nat, cursor: nat, i: int)
    requires 0 <= i < n
    ensures Hits(n, cursor, n, i) == 1
  {
    var xs := Positions(n);
    FullRound(xs, cursor);
    assert xs[i] == i;
    DistinctOccursAtMostOnce<int>(xs, i);
  }

  /** The length of q full rounds of n calls followed by r more. */
  function Span(q: nat, n: nat, r: nat): nat {
    if q == 0 then r else n + Span(q - 1, n, r)
  }

  /** q rounds of n calls and r more are q * n + r calls. */
  lemma {:induction false} SpanLength(q: nat, n: nat, r: nat)
    ensures Span(q, n, r) == q * n + r
  {
    if q > 0 {
      SpanLength(q - 1, n, r);
      assert q * n == (q - 1) * n + n;
    }
  }

  /** One full round in front of a run adds exactly one hit of each position. */
  lemma AddRound(n: nat, cursor: nat, m: nat, i: int)
    requires 0 <= i < n
    ensures Hits(n, cursor, n + m, i) == 1 + Hits(n, After(cursor, n, n), m, i)
  {
    var xs := Positions(n);
    RotationSplit(xs, cursor, n, m);
    var first, rest := Rotation(xs, cursor, n), Rotation(xs, After(cursor, n, n), m);
    assert multiset(first + rest)[i] == multiset(first)[i] + multiset(rest)[i];
    RoundHitsOnce(n, cursor, i);
  }

  /**
    Fairness of consecutive selections: over q full rounds and r < n further
    calls each of the n positions is returned q or q + 1 times, and exactly q
    times when there are no further calls.
  */
  lemma {:induction false} RoundsAreFair(n: nat, cursor: nat, q: nat, r: nat, i: int)
    requires r < n && 0 <= i < n
    ensures q <= Hits(n, cursor, Span(q, n, r), i) <= q + (if r == 0 then 0 else 1)
    decreases q
  {
    if q == 0 {
      if r == 0 {
        assert Rotation(Positions(n), cursor, 0) == [];
      } else {
        ShortRunFair(n, cursor, r, i);
      }
    } else {
      assert Span(q, n, r) == n + Span(q - 1, n, r);
      AddRound(n, cursor, Span(q - 1, n, r), i);
      RoundsAreFair(n, After(cursor, n, n), q - 1, r, i);
    }
  }

  /**
    Any K consecutive calls return each of the n positions between floor(K/n)
    and ceil(K/n) times.
  */
  lemma RunIsFair(n: nat, cursor: nat, k: nat, i: int)
    requires 0 < n && 0 <= i < n
    ensures k / n <= Hits(n, cursor, k, i) <= k / n + (if k % n == 0 then 0 else 1)
  {
    var q, r := k / n, k % n;
    SpanLength(q, n, r);
    assert Span(q, n, r) == k;
    RoundsAreFair(n, cursor, q, r, i);
  }

  /**
    Over distinct instances, an instance is returned by a run of selections
    exactly as often as its position is.
  */
  lemma {:induction false} InstanceHits<T>(xs: seq<T>, cursor: nat, k: nat, i: int)
    requires Distinct(xs) && 0 <= i < |xs|
    ensures multiset(Rotation(xs, cursor, k))[xs[i]] == Hits(|xs|, cursor, k, i)
    decreases k
  {
    if k > 0 {
      var n, c := |xs|, Step(cursor, |xs|);
      InstanceHits(xs, c, k - 1, i);
      var p := Pick(cursor, n);
      var rest, positions := Rotation(xs, c, k - 1), Rotation<int>(Positions(n), c, k - 1);
      assert Rotation(xs, cursor, k) == [xs[p]] + rest;
      assert Rotation<int>(Positions(n), cursor, k) == [p] + positions;
      assert multiset([xs[p]] + rest)[xs[i]] == multiset([xs[p]])[xs[i]] + multiset(rest)[xs[i]];
      assert multiset([p] + positions)[i] == multiset([p])[i] + multiset(positions)[i];
      assert Hits(n, c, k - 1, i) == multiset(positions)[i];
      assert Hits(n, cursor, k, i) == multiset([p] + positions)[i];
      if p == i {
        assert multiset([xs[p]])[xs[i]] == 1 && multiset([p])[i] == 1;
      } else {
        assert xs[p] != xs[i];
        assert multiset([xs[p]])[xs[i]] == 0 && multiset([p])[i] == 0;
      }
    } else {
      assert Rotation(xs, cursor, 0) == [] && Rotation<int>(Positions(|xs|), cursor, 0) == [];
    }
  }

  /**
    Any K consecutive selections over n distinct instances return each
    instance between floor(K/n) and ceil(K/n) times.
  */
  lemma InstancesAreFair<T>(xs: seq<T>, cursor: nat, k: nat, i: int)
    requires Distinct(xs) && 0 <= i < |xs|
    ensures var hits := multiset(Rotation(xs, cursor, k))[xs[i]];
      k / |xs| <= hits <= k / |xs| + (if k % |xs| == 0 then 0 else 1)
  {
    InstanceHits(xs, cursor, k, i);
    RunIsFair(|xs|, cursor, k, i);
  }
}
