/**
 * What every detector does with one classifier result: the composite clap
 * score, the three best labels, and the debounce gate. The same code appears
 * in classify.py, vban_processor.py and audio_detector.py; it is defined once
 * here.
 */
module Scoring {

  /** One `(category_name, score)` pair of a classification. */
  datatype Category = Category(name: string, score: real)

  /**
   * A classifier result: its classifications, each a list of categories. Every
   * detector reads only the first classification.
   */
  datatype ClassifierResult = ClassifierResult(classifications: seq<seq<Category>>)

  predicate IsPositive(name: string)
  {
    name == "Hands" || name == "Clapping" || name == "Cap gun"
  }

  predicate IsNegative(name: string)
  {
    name == "Finger snapping"
  }

  /** Sum of the scores of the categories labelled Hands, Clapping or Cap gun. */
  function PositiveSum(cats: seq<Category>): real
  {
    if cats == [] then 0.0
    else (if IsPositive(cats[0].name) then cats[0].score else 0.0) + PositiveSum(cats[1..])
  }

  /** Sum of the scores of the categories labelled Finger snapping. */
  function NegativeSum(cats: seq<Category>): real
  {
    if cats == [] then 0.0
    else (if IsNegative(cats[0].name) then cats[0].score else 0.0) + NegativeSum(cats[1..])
  }

  /** `score_sum`: the positive-label sum minus the negative-label sum. */
  function CompositeScore(cats: seq<Category>): real
  {
    PositiveSum(cats) - NegativeSum(cats)
  }

  /** The score of a result split in two is the sum of the parts' scores. */
  lemma {:induction false} CompositeScoreAppend(a: seq<Category>, b: seq<Category>)
    ensures PositiveSum(a + b) == PositiveSum(a) + PositiveSum(b)
    ensures NegativeSum(a + b) == NegativeSum(a) + NegativeSum(b)
    ensures CompositeScore(a + b) == CompositeScore(a) + CompositeScore(b)
  {
    if a != [] {
      assert (a + b)[0] == a[0];
      assert (a + b)[1..] == a[1..] + b;
      CompositeScoreAppend(a[1..], b);
    } else {
      assert a + b == b;
    }
  }

  /** What one category adds to the composite score. */
  function Weight(c: Category): real
  {
    (if IsPositive(c.name) then c.score else 0.0) - (if IsNegative(c.name) then c.score else 0.0)
  }

  function WeightSum(cats: seq<Category>): real
  {
    if cats == [] then 0.0 else Weight(cats[0]) + WeightSum(cats[1..])
  }

  /** The composite score is the sum of the categories' weights. */
  lemma {:induction false} CompositeScoreWeights(cats: seq<Category>)
    ensures CompositeScore(cats) == WeightSum(cats)
  {
    if cats != [] {
      CompositeScoreWeights(cats[1..]);
    }
  }

  /** The score counts each category once: it does not depend on the order the classifier lists them. */
  lemma CompositeScorePermutation(a: seq<Category>, b: seq<Category>)
    requires multiset(a) == multiset(b)
    ensures CompositeScore(a) == CompositeScore(b)
  {
    WeightSumPermutation(a, b);
    CompositeScoreWeights(a);
    CompositeScoreWeights(b);
  }

  lemma {:induction false} WeightSumPermutation(a: seq<Category>, b: seq<Category>)
    requires multiset(a) == multiset(b)
    ensures WeightSum(a) == WeightSum(b)
  {
    if a == [] {
      assert |b| == |multiset(b)| == 0;
    } else {
      var x := a[0];
      MultisetUncons(a);
      assert x in b by { assert x in multiset(b); }
      var k :| 0 <= k < |b| && b[k] == x;
      var rest := b[..k] + b[k + 1..];
      MultisetRemove(b, k);
      assert multiset(a[1..]) == multiset(a) - multiset{x};
      assert multiset(rest) == multiset(b) - multiset{x};
      WeightSumPermutation(a[1..], rest);
      WeightSumRemove(b, k);
    }
  }

  /** Taking element `k` out of `b` takes its weight out of the sum. */
  lemma {:induction false} WeightSumRemove(b: seq<Category>, k: nat)
    requires k < |b|
    ensures WeightSum(b) == Weight(b[k]) + WeightSum(b[..k] + b[k + 1..])
  {
    if k == 0 {
      assert b[..0] + b[1..] == b[1..];
    } else {
      var t := b[1..];
      WeightSumRemove(t, k - 1);
      var r := b[..k] + b[k + 1..];
      assert r[0] == b[0];
      assert r[1..] == t[..k - 1] + t[k..];
    }
  }

  lemma MultisetUncons<T>(a: seq<T>)
    requires a != []
    ensures multiset(a) == multiset{a[0]} + multiset(a[1..])
  {
    assert a == [a[0]] + a[1..];
  }

  lemma MultisetRemove<T>(b: seq<T>, k: nat)
    requires k < |b|
    ensures multiset(b) == multiset{b[k]} + multiset(b[..k] + b[k + 1..])
  {
    assert b == b[..k] + [b[k]] + b[k + 1..];
  }

  /**
   * With scores in [0, 1], as the classifier gives them, the composite score lies
   * between minus the number of negative categories and the number of positive ones.
   */
  lemma {:induction false} CompositeScoreBounds(cats: seq<Category>)
    requires forall i :: 0 <= i < |cats| ==> 0.0 <= cats[i].score <= 1.0
    ensures -(CountWhere(cats, false) as real) <= CompositeScore(cats) <= CountWhere(cats, true) as real
  {
    if cats != [] {
      CompositeScoreBounds(cats[1..]);
    }
  }

  /** Number of positive (`positive`) or negative (`!positive`) categories. */
  function CountWhere(cats: seq<Category>, positive: bool): nat
  {
    if cats == [] then 0
    else
      var hit := if positive then IsPositive(cats[0].name) else IsNegative(cats[0].name);
      (if hit then 1 else 0) + CountWhere(cats[1..], positive)
  }

  /** Scores never increase along `s`. */
  predicate NonIncreasing(s: seq<Category>)
  {
    forall i, j :: 0 <= i < j < |s| ==> s[i].score >= s[j].score
  }

  /**
   * `sorted(cats, key=score, reverse=True)`: a stable sort, so categories with
   * equal scores keep the classifier's order. Each head is placed before the
   * first element of the sorted rest whose score does not exceed its own.
   */
  function SortDescending(cats: seq<Category>): seq<Category>
  {
    if cats == [] then [] else Insert(cats[0], SortDescending(cats[1..]))
  }

  function Insert(x: Category, s: seq<Category>): seq<Category>
  {
    if s == [] || s[0].score <= x.score then [x] + s else [s[0]] + Insert(x, s[1..])
  }

  /** The sort is a permutation of its input whose scores never increase. */
  lemma {:induction false} SortDescendingSpec(cats: seq<Category>)
    ensures multiset(SortDescending(cats)) == multiset(cats)
    ensures |SortDescending(cats)| == |cats|
    ensures NonIncreasing(SortDescending(cats))
  {
    if cats != [] {
      var rest := SortDescending(cats[1..]);
      SortDescendingSpec(cats[1..]);
      InsertPermutes(cats[0], rest);
      InsertSorted(cats[0], rest);
      assert cats == [cats[0]] + cats[1..];
    }
  }

  lemma {:induction false} InsertPermutes(x: Category, s: seq<Category>)
    ensures multiset(Insert(x, s)) == multiset(s) + multiset{x}
    ensures |Insert(x, s)| == |s| + 1
  {
    if s == [] || s[0].score <= x.score {
      assert multiset([x] + s) == multiset{x} + multiset(s);
    } else {
      InsertPermutes(x, s[1..]);
      assert multiset(s) == multiset{s[0]} + multiset(s[1..]) by {
        assert s == [s[0]] + s[1..];
      }
      assert multiset([s[0]] + Insert(x, s[1..])) == multiset{s[0]} + multiset(Insert(x, s[1..]));
    }
  }

  lemma {:induction false} InsertSorted(x: Category, s: seq<Category>)
    requires NonIncreasing(s)
    ensures NonIncreasing(Insert(x, s))
  {
    if s == [] || s[0].score <= x.score {
      NonIncreasingCons(x, s);
    } else {
      NonIncreasingTail(s);
      InsertSorted(x, s[1..]);
      var t := Insert(x, s[1..]);
      assert t != [];
      assert s[0].score >= t[0].score by {
        if s[1..] == [] || s[1].score <= x.score {
          assert t[0] == x;
        } else {
          assert t[0] == s[1];
        }
      }
      NonIncreasingCons(s[0], t);
    }
  }

  /** A head that scores at least as high as the first element keeps the sequence non-increasing. */
  lemma NonIncreasingCons(x: Category, s: seq<Category>)
    requires NonIncreasing(s)
    requires s == [] || s[0].score <= x.score
    ensures NonIncreasing([x] + s)
  {
    var r := [x] + s;
    forall i, j | 0 <= i < j < |r| ensures r[i].score >= r[j].score {
      if i == 0 {
        assert r[j] == s[j - 1];
        assert s[0].score >= s[j - 1].score;
      } else {
        assert r[i] == s[i - 1] && r[j] == s[j - 1];
      }
    }
  }

  lemma NonIncreasingTail(s: seq<Category>)
    requires NonIncreasing(s) && s != []
    ensures NonIncreasing(s[1..])
  {
    forall i, j | 0 <= i < j < |s| - 1 ensures s[1..][i].score >= s[1..][j].score {
      assert s[1..][i] == s[i + 1] && s[1..][j] == s[j + 1];
    }
  }

  /**
   * The labels emitted with every result: the first three of the descending sort
   * (`[:3]`). The last label kept scores at least as high as every label dropped.
   */
  function Top3(cats: seq<Category>): (r: seq<Category>)
    ensures |r| == if |cats| < 3 then |cats| else 3
    ensures NonIncreasing(r)
    ensures multiset(r) <= multiset(cats)
    ensures r != [] ==> forall c :: c in multiset(cats) - multiset(r) ==> r[|r| - 1].score >= c.score
  {
    var sorted := SortDescending(cats);
    var n := if |cats| < 3 then |cats| else 3;
    SortDescendingSpec(cats);
    PrefixSorted(sorted, n);
    PrefixSplit(sorted, n);
    if n > 0 then
      PrefixDominates(sorted, n);
      sorted[..n]
    else []
  }

  lemma PrefixSorted(s: seq<Category>, n: nat)
    requires NonIncreasing(s) && n <= |s|
    ensures NonIncreasing(s[..n])
  {
    forall i, j | 0 <= i < j < n ensures s[..n][i].score >= s[..n][j].score {
      assert s[..n][i] == s[i] && s[..n][j] == s[j];
    }
  }

  /** What a cut at `n` drops is exactly the suffix. */
  lemma PrefixSplit<T>(s: seq<T>, n: nat)
    requires n <= |s|
    ensures multiset(s[..n]) <= multiset(s)
    ensures multiset(s) - multiset(s[..n]) == multiset(s[n..])
  {
    assert s == s[..n] + s[n..];
    assert multiset(s) == multiset(s[..n]) + multiset(s[n..]);
  }

  /** In a non-increasing sequence the element before a cut beats everything after it. */
  lemma PrefixDominates(s: seq<Category>, n: nat)
    requires NonIncreasing(s) && 0 < n <= |s|
    ensures forall c :: c in multiset(s[n..]) ==> s[..n][n - 1].score >= c.score
  {
    var rest := s[n..];
    assert forall k :: 0 <= k < |rest| ==> s[n - 1].score >= rest[k].score;
  }

  /**
   * The debounce gate of all three detectors: an event fires only when the score
   * beats the threshold strictly and strictly more than `delay` seconds have
   * passed since the last event.
   */
  predicate Fires(score: real, threshold: real, now: real, lastEvent: real, delay: real)
  {
    score > threshold && now - lastEvent > delay
  }

  /** `last_clap_time` after one result: moved to `now` exactly when the gate fires. */
  function NextLastEvent(score: real, threshold: real, now: real, lastEvent: real, delay: real): real
  {
    if Fires(score, threshold, now, lastEvent, delay) then now else lastEvent
  }

  /** A log of event times is well spaced: none later than `last`, consecutive ones more than `delay` apart. */
  predicate ClapLog(ts: seq<real>, last: real, delay: real)
  {
    && (forall i :: 0 <= i < |ts| ==> ts[i] <= last)
    && (forall i :: 0 < i < |ts| ==> ts[i] - ts[i - 1] > delay)
  }

  /** The time stamps of a log of events, oldest first, read with `stamp`. */
  function Stamps<T>(events: seq<T>, stamp: T -> real): (ts: seq<real>)
    ensures |ts| == |events| && forall i :: 0 <= i < |events| ==> ts[i] == stamp(events[i])
  {
    seq(|events|, i requires 0 <= i < |events| => stamp(events[i]))
  }

  /**
   * Passing one result through the gate keeps a well-spaced log well spaced,
   * whether the event is logged (`logged`) or only moves the last event time.
   */
  lemma ClapLogStep(ts: seq<real>, score: real, threshold: real, now: real, last: real, delay: real, logged: bool)
    requires delay >= 0.0 && ClapLog(ts, last, delay)
    ensures var fired := Fires(score, threshold, now, last, delay);
      ClapLog(ts + (if fired && logged then [now] else []), NextLastEvent(score, threshold, now, last, delay), delay)
  {
    if Fires(score, threshold, now, last, delay) && logged && ts != [] {
      assert ts[|ts| - 1] <= last;
    }
  }

  /**
   * The times at which events fire for a run of results arriving at `times` with
   * scores `scores`, starting from `lastEvent`.
   */
  function FiredTimes(times: seq<real>, scores: seq<real>, threshold: real, lastEvent: real, delay: real): seq<real>
    requires |times| == |scores|
  {
    if times == [] then []
    else
      var fired := Fires(scores[0], threshold, times[0], lastEvent, delay);
      (if fired then [times[0]] else [])
        + FiredTimes(times[1..], scores[1..], threshold, NextLastEvent(scores[0], threshold, times[0], lastEvent, delay), delay)
  }

  /** Every fired time is more than `delay` after the previous event. */
  lemma {:induction false} FiredTimesSpaced(times: seq<real>, scores: seq<real>, threshold: real, lastEvent: real, delay: real)
    requires |times| == |scores|
    ensures var f := FiredTimes(times, scores, threshold, lastEvent, delay);
      (f != [] ==> f[0] - lastEvent > delay) && forall i :: 0 < i < |f| ==> f[i] - f[i - 1] > delay
  {
    if times != [] {
      var next := NextLastEvent(scores[0], threshold, times[0], lastEvent, delay);
      FiredTimesSpaced(times[1..], scores[1..], threshold, next, delay);
    }
  }

  /** The last event time after a run of results. */
  function LastAfter(times: seq<real>, scores: seq<real>, threshold: real, last: real, delay: real): real
    requires |times| == |scores|
  {
    if times == [] then last
    else LastAfter(times[1..], scores[1..], threshold, NextLastEvent(scores[0], threshold, times[0], last, delay), delay)
  }

  /** Extending a run by one result at the end adds at most its time to the fired times. */
  lemma {:induction false} FiredTimesSnoc(times: seq<real>, scores: seq<real>, t: real, s: real,
                                         threshold: real, last: real, delay: real)
    requires |times| == |scores|
    ensures var l := LastAfter(times, scores, threshold, last, delay);
      && FiredTimes(times + [t], scores + [s], threshold, last, delay)
           == FiredTimes(times, scores, threshold, last, delay) + (if Fires(s, threshold, t, l, delay) then [t] else [])
      && LastAfter(times + [t], scores + [s], threshold, last, delay) == NextLastEvent(s, threshold, t, l, delay)
    decreases |times|
  {
    if times == [] {
      assert times + [t] == [t] && scores + [s] == [s];
    } else {
      var next := NextLastEvent(scores[0], threshold, times[0], last, delay);
      assert (times + [t])[1..] == times[1..] + [t];
      assert (scores + [s])[1..] == scores[1..] + [s];
      FiredTimesSnoc(times[1..], scores[1..], t, s, threshold, next, delay);
    }
  }

  /**
   * The debounce scenario: with a 1.0 s cooldown, detections at t, t + 0.5 and
   * t + 1.2 give two events, at t and at t + 1.2.
   */
  lemma DebounceScenario(t: real, lastEvent: real, threshold: real)
    requires t - lastEvent > 1.0 && threshold < 1.0
    ensures FiredTimes([t, t + 0.5, t + 1.2], [1.0, 1.0, 1.0], threshold, lastEvent, 1.0) == [t, t + 1.2]
  {
    assert FiredTimes([t + 1.2], [1.0], threshold, t, 1.0) == [t + 1.2];
    assert FiredTimes([t + 0.5, t + 1.2], [1.0, 1.0], threshold, t, 1.0) == [t + 1.2];
  }
}
