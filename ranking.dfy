/**
 * The specificity score of a handler and the stable descending sort that
 * `sortHandlers` applies to the MessageHandler list.
 */
module Ranking {
  import opened MethodHandlers

  /** Which of the four match fields a handler populates, most specific first: regex, localized key, value, states. */
  function Specificity(h: MethodHandler): (f: seq<bool>)
    ensures |f| == 4
  {
    var a := h.annotation;
    [ StringValue(a, Regex) != ""
    , StringValue(a, LocalizedValueKey) != ""
    , StringValue(a, Value) != ""
    , a.requiredStates.Some? && |a.requiredStates.value| > 0 ]
  }

  /** The score of `sortHandlers`: regex 8, localized key 4, value 2, required states 1. */
  function Score(h: MethodHandler): (s: nat)
    ensures s <= 15
  {
    var a := h.annotation;
    (if StringValue(a, Regex) != "" then 8 else 0)
    + (if StringValue(a, LocalizedValueKey) != "" then 4 else 0)
    + (if StringValue(a, Value) != "" then 2 else 0)
    + (if a.requiredStates.Some? && |a.requiredStates.value| > 0 then 1 else 0)
  }

  function Pow2(n: nat): (p: nat)
    ensures p >= 1
  {
    if n == 0 then 1 else 2 * Pow2(n - 1)
  }

  /** Reads a flag sequence as a binary number, first flag most significant. */
  function Weight(f: seq<bool>): nat {
    if f == [] then 0 else (if f[0] then Pow2(|f| - 1) else 0) + Weight(f[1..])
  }

  /** `a` comes strictly after `b` in lexicographic order with true above false. */
  predicate LexGreater(a: seq<bool>, b: seq<bool>)
    requires |a| == |b|
  {
    a != [] && ((a[0] && !b[0]) || (a[0] == b[0] && LexGreater(a[1..], b[1..])))
  }

  lemma {:induction false} WeightBound(f: seq<bool>)
    ensures Weight(f) < Pow2(|f|)
  {
    if f != [] {
      WeightBound(f[1..]);
    }
  }

  /** Comparing weights is comparing flag sequences lexicographically, and equal weights mean equal flags. */
  lemma {:induction false} WeightOrderIsLexicographic(a: seq<bool>, b: seq<bool>)
    requires |a| == |b|
    ensures Weight(a) > Weight(b) <==> LexGreater(a, b)
    ensures Weight(a) == Weight(b) <==> a == b
  {
    if a != [] {
      WeightBound(a[1..]);
      WeightBound(b[1..]);
      WeightOrderIsLexicographic(a[1..], b[1..]);
      if a[0] == b[0] && a[1..] == b[1..] {
        assert a == [a[0]] + a[1..] && b == [b[0]] + b[1..];
      }
    }
  }

  lemma ScoreIsWeight(h: MethodHandler)
    ensures Score(h) == Weight(Specificity(h))
  {
    var f := Specificity(h);
    assert Weight(f[3..]) == (if f[3] then 1 else 0);
    assert Weight(f[2..]) == (if f[2] then 2 else 0) + Weight(f[3..]);
    assert Weight(f[1..]) == (if f[1] then 4 else 0) + Weight(f[2..]);
  }

  /**
   * The score orders handlers by their most specific populated field: a regex outranks
   * everything without one, then a localized key, then a value, then required states;
   * equal scores mean the same fields are populated.
   */
  lemma ScoreRanksBySpecificity(h1: MethodHandler, h2: MethodHandler)
    ensures Score(h1) > Score(h2) <==> LexGreater(Specificity(h1), Specificity(h2))
    ensures Score(h1) == Score(h2) <==> Specificity(h1) == Specificity(h2)
  {
    ScoreIsWeight(h1);
    ScoreIsWeight(h2);
    WeightOrderIsLexicographic(Specificity(h1), Specificity(h2));
  }

  /** Places `h` before the first handler whose score does not exceed its own. */
  function Insert(h: MethodHandler, sorted: seq<MethodHandler>): seq<MethodHandler> {
    if sorted == [] || Score(sorted[0]) <= Score(h) then [h] + sorted
    else [sorted[0]] + Insert(h, sorted[1..])
  }

  /** The stable sort by descending score (the comparator `comparingInt(-score)`). */
  function SortByScore(hs: seq<MethodHandler>): seq<MethodHandler> {
    if hs == [] then [] else Insert(hs[0], SortByScore(hs[1..]))
  }

  ghost predicate NonIncreasing(hs: seq<MethodHandler>) {
    forall i, j :: 0 <= i < j < |hs| ==> Score(hs[i]) >= Score(hs[j])
  }

  /** The handlers of score `k`, in their order in `hs`. */
  function WithScore(hs: seq<MethodHandler>, k: nat): seq<MethodHandler> {
    if hs == [] then [] else (if Score(hs[0]) == k then [hs[0]] else []) + WithScore(hs[1..], k)
  }

  lemma {:induction false} InsertPermutes(h: MethodHandler, t: seq<MethodHandler>)
    ensures multiset(Insert(h, t)) == multiset(t) + multiset{h}
    decreases |t|
  {
    if !(t == [] || Score(t[0]) <= Score(h)) {
      InsertPermutes(h, t[1..]);
      assert t == [t[0]] + t[1..];
    }
  }

  lemma {:induction false} InsertKeepsScoreGroups(h: MethodHandler, t: seq<MethodHandler>, k: nat)
    ensures WithScore(Insert(h, t), k) == (if Score(h) == k then [h] else []) + WithScore(t, k)
    decreases |t|
  {
    if t == [] || Score(t[0]) <= Score(h) {
      assert ([h] + t)[1..] == t;
    } else {
      InsertKeepsScoreGroups(h, t[1..], k);
      var r := Insert(h, t[1..]);
      assert ([t[0]] + r)[1..] == r;
    }
  }

  /** Every handler in `hs` scores at most `b`. */
  ghost predicate ScoresAtMost(hs: seq<MethodHandler>, b: nat) {
    forall i :: 0 <= i < |hs| ==> Score(hs[i]) <= b
  }

  lemma {:induction false} InsertKeepsBound(h: MethodHandler, t: seq<MethodHandler>, b: nat)
    requires ScoresAtMost(t, b) && Score(h) <= b
    ensures ScoresAtMost(Insert(h, t), b)
    decreases |t|
  {
    if !(t == [] || Score(t[0]) <= Score(h)) {
      InsertKeepsBound(h, t[1..], b);
    }
  }

  /** A list headed by `x` is non-increasing when its tail is and no element of the tail outscores `x`. */
  lemma ConsKeepsSorted(x: MethodHandler, t: seq<MethodHandler>)
    requires NonIncreasing(t) && ScoresAtMost(t, Score(x))
    ensures NonIncreasing([x] + t)
  {
    var r := [x] + t;
    forall i, j | 0 <= i < j < |r| ensures Score(r[i]) >= Score(r[j]) {
      assert r[j] == t[j - 1];
      if i > 0 {
        assert r[i] == t[i - 1];
      }
    }
  }

  lemma {:induction false} InsertKeepsSorted(h: MethodHandler, t: seq<MethodHandler>)
    requires NonIncreasing(t)
    ensures NonIncreasing(Insert(h, t))
    decreases |t|
  {
    if t == [] || Score(t[0]) <= Score(h) {
      assert ScoresAtMost(t, Score(h)) by {
        if t != [] {
          forall i | 0 <= i < |t| ensures Score(t[i]) <= Score(h) {
            assert Score(t[i]) <= Score(t[0]);
          }
        }
      }
      ConsKeepsSorted(h, t);
    } else {
      var rest := t[1..];
      assert NonIncreasing(rest) && ScoresAtMost(rest, Score(t[0])) by {
        forall i, j | 0 <= i < j < |rest| ensures Score(rest[i]) >= Score(rest[j]) {
          assert rest[i] == t[i + 1] && rest[j] == t[j + 1];
        }
        forall i | 0 <= i < |rest| ensures Score(rest[i]) <= Score(t[0]) {
          assert rest[i] == t[i + 1];
        }
      }
      InsertKeepsSorted(h, rest);
      InsertKeepsBound(h, rest, Score(t[0]));
      ConsKeepsSorted(t[0], Insert(h, rest));
    }
  }

  /**
   * `sortHandlers` yields a permutation of the list, in non-increasing score order, that
   * keeps the registration order among handlers of equal score (the sort is stable).
   */
  lemma {:induction false} SortByScoreIsStableSort(hs: seq<MethodHandler>)
    ensures NonIncreasing(SortByScore(hs))
    ensures multiset(SortByScore(hs)) == multiset(hs)
    ensures forall k :: WithScore(SortByScore(hs), k) == WithScore(hs, k)
  {
    if hs != [] {
      SortByScoreIsStableSort(hs[1..]);
      var h, t := hs[0], SortByScore(hs[1..]);
      InsertKeepsSorted(h, t);
      InsertPermutes(h, t);
      assert hs == [h] + hs[1..];
      forall k ensures WithScore(SortByScore(hs), k) == WithScore(hs, k) {
        InsertKeepsScoreGroups(h, t, k);
      }
    }
  }
}
