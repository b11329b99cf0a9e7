/**
  Counting helpers for the health summary and the request metrics: Python's
  `sum()` over a list of health flags, a `defaultdict(int)` read, and the sum
  of the per-service request counters.
*/
module Tally {

  /** `sum(flags)`: the number of `True` flags. */
  function CountTrue(flags: seq<bool>): (r: nat)
    ensures r <= |flags|
  {
    if flags == [] then 0 else (if flags[0] then 1 else 0) + CountTrue(flags[1..])
  }

  /** The healthy count is the multiplicity of `true` among the flags. */
  lemma {:induction false} CountTrueIsMultiplicity(flags: seq<bool>)
    ensures CountTrue(flags) == multiset(flags)[true]
  {
    if flags != [] {
      assert flags == [flags[0]] + flags[1..];
      CountTrueIsMultiplicity(flags[1..]);
    }
  }

  /** All flags true gives the full count; all false gives zero. */
  lemma {:induction false} CountTrueExtremes(flags: seq<bool>)
    ensures (forall i | 0 <= i < |flags| :: flags[i]) ==> CountTrue(flags) == |flags|
    ensures (forall i | 0 <= i < |flags| :: !flags[i]) ==> CountTrue(flags) == 0
  {
    if flags != [] {
      CountTrueExtremes(flags[1..]);
      assert forall i | 0 <= i < |flags| - 1 :: flags[1..][i] == flags[i + 1];
    }
  }

  /** A `defaultdict(int)` read that does not insert: a missing key counts 0. */
  function Count(m: map<string, nat>, key: string): nat {
    if key in m then m[key] else 0
  }

  /** `counts[name] += 1` on a `defaultdict(int)`: that counter grows by one, no other moves. */
  function Bumped(counts: map<string, nat>, name: string): (r: map<string, nat>)
    ensures Count(r, name) == Count(counts, name) + 1
    ensures forall key | key != name :: Count(r, key) == Count(counts, key)
  {
    counts[name := Count(counts, name) + 1]
  }

  /** The sum of the counters of the given names. */
  function SumCounts(m: map<string, nat>, names: seq<string>): nat {
    if names == [] then 0 else Count(m, names[0]) + SumCounts(m, names[1..])
  }

  /** No name occurs twice. */
  predicate NoDuplicates(names: seq<string>) {
    forall i, j | 0 <= i < j < |names| :: names[i] != names[j]
  }

  /** Bumping one listed counter by one bumps the sum by one. */
  lemma {:induction false} SumCountsIncrement(m: map<string, nat>, names: seq<string>, key: string)
    requires NoDuplicates(names) && key in names
    ensures SumCounts(Bumped(m, key), names) == SumCounts(m, names) + 1
  {
    var m' := Bumped(m, key);
    if names[0] == key {
      assert key !in names[1..];
      SumCountsUnchanged(m, m', names[1..]);
    } else {
      SumCountsIncrement(m, names[1..], key);
    }
  }

  /** Sums agree when every listed counter agrees. */
  lemma {:induction false} SumCountsUnchanged(m: map<string, nat>, m': map<string, nat>, names: seq<string>)
    requires forall n | n in names :: Count(m, n) == Count(m', n)
    ensures SumCounts(m, names) == SumCounts(m', names)
  {
    if names != [] {
      SumCountsUnchanged(m, m', names[1..]);
    }
  }
}
