// The factor ranking: five candidate factors derived from the record, sorted by value in
// descending order with a stable sort, of which the first three are kept.

module FactorRanking {
  import opened Indicators

  /** A candidate factor: a display name, the value it is ranked by, and its risk flag. */
  datatype Factor = Factor(name: string, value: real, risk: bool)

  /** The five keys the ranking reads. With one of them absent the source ranks `undefined` or
      `NaN` values, whose order its comparator leaves unspecified. */
  predicate RankingFieldsPresent(data: IndicatorVector) {
    data.aiDependence.Some? && data.cognitiveOffloading.Some? && data.neuralActivity.Some?
    && data.memoryRetention.Some? && data.problemSolvingDecline.Some?
  }

  /** The candidates, in declaration order. Neural activity and memory retention are protective,
      so their factor value is the complement `1 - x`. */
  function Candidates(data: IndicatorVector): seq<Factor>
    requires RankingFieldsPresent(data)
  {
    var ai, co := data.aiDependence.value, data.cognitiveOffloading.value;
    var na, mr := data.neuralActivity.value, data.memoryRetention.value;
    var psd := data.problemSolvingDecline.value;
    [ Factor("AI Dependence", ai, ai > 0.7),
      Factor("Cognitive Offloading", co, co > 0.6),
      Factor("Neural Activity", 1.0 - na, na < 0.4),
      Factor("Memory Retention", 1.0 - mr, mr < 0.5),
      Factor("Problem Solving Decline", psd, psd > 0.6) ]
  }

  /** The fixed threshold above which each candidate's value is flagged as a risk. */
  function FlagThreshold(i: nat): real
    requires i < 5
  {
    [0.7, 0.6, 0.6, 0.5, 0.6][i]
  }

  /** Every flag marks a factor value beyond its own fixed threshold, and the names differ. */
  lemma CandidateFlags(data: IndicatorVector)
    requires RankingFieldsPresent(data)
    ensures |Candidates(data)| == 5
    ensures forall i :: 0 <= i < 5 ==> Candidates(data)[i].risk == (Candidates(data)[i].value > FlagThreshold(i))
    ensures Distinct(Candidates(data))
  {
    var c := Candidates(data);
    assert c[0].name != c[1].name && c[0].name != c[2].name && c[0].name != c[3].name && c[0].name != c[4].name;
    assert c[1].name != c[2].name && c[1].name != c[3].name && c[1].name != c[4].name;
    assert c[2].name != c[3].name && c[2].name != c[4].name && c[3].name != c[4].name;
  }

  /** No element occurs twice. */
  predicate Distinct(s: seq<Factor>) {
    forall i, j :: 0 <= i < j < |s| ==> s[i] != s[j]
  }

  /** Values never increase from left to right. */
  predicate NonIncreasing(s: seq<Factor>) {
    forall i, j :: 0 <= i < j < |s| ==> s[i].value >= s[j].value
  }

  /** `x` inserted into `t` right after the last element, counted from the end, whose value is
      at least x's: the insertion step of a stable descending insertion sort. */
  function Insert(t: seq<Factor>, x: Factor): (r: seq<Factor>)
    ensures |r| == |t| + 1
  {
    if t == [] || t[|t| - 1].value >= x.value then t + [x]
    else Insert(t[..|t| - 1], x) + [t[|t| - 1]]
  }

  /** The stable descending insertion sort of `s`. */
  function SortDesc(s: seq<Factor>): (r: seq<Factor>)
    ensures |r| == |s|
  {
    if s == [] then [] else Insert(SortDesc(s[..|s| - 1]), s[|s| - 1])
  }

  /** Sorting a sequence that is already in non-increasing order leaves it unchanged. */
  lemma {:induction false} SortedIsFixed(s: seq<Factor>)
    requires NonIncreasing(s)
    ensures SortDesc(s) == s
  {
    if s != [] {
      var init := s[..|s| - 1];
      assert NonIncreasing(init);
      SortedIsFixed(init);
      assert init + [s[|s| - 1]] == s;
    }
  }

  /** The elements of `s` whose value is `v`, in their order in `s`. */
  function WithValue(s: seq<Factor>, v: real): seq<Factor> {
    if s == [] then []
    else WithValue(s[..|s| - 1], v) + (if s[|s| - 1].value == v then [s[|s| - 1]] else [])
  }

  /** Insertion adds exactly the inserted element. */
  lemma {:induction false} InsertPermutes(t: seq<Factor>, x: Factor)
    ensures multiset(Insert(t, x)) == multiset(t) + multiset{x}
  {
    if !(t == [] || t[|t| - 1].value >= x.value) {
      var init, last := t[..|t| - 1], t[|t| - 1];
      InsertPermutes(init, x);
      assert t == init + [last];
    }
  }

  /** Sorting only reorders. */
  lemma {:induction false} SortPermutes(s: seq<Factor>)
    ensures multiset(SortDesc(s)) == multiset(s)
  {
    if s != [] {
      var init, last := s[..|s| - 1], s[|s| - 1];
      SortPermutes(init);
      InsertPermutes(SortDesc(init), last);
      assert s == init + [last];
    }
  }

  /** Insertion into a non-increasing list keeps it non-increasing. */
  lemma {:induction false} InsertSorted(t: seq<Factor>, x: Factor)
    requires NonIncreasing(t)
    ensures NonIncreasing(Insert(t, x))
  {
    if t == [] || t[|t| - 1].value >= x.value {
      var r := t + [x];
      assert forall i :: 0 <= i < |t| ==> t[i].value >= x.value by {
        forall i | 0 <= i < |t| ensures t[i].value >= x.value {
          assert t[i].value >= t[|t| - 1].value || i == |t| - 1;
        }
      }
    } else {
      var init, last := t[..|t| - 1], t[|t| - 1];
      InsertSorted(init, x);
      InsertPermutes(init, x);
      var ins := Insert(init, x);
      forall i | 0 <= i < |ins| ensures ins[i].value >= last.value {
        assert ins[i] in multiset(ins);
        if ins[i] != x {
          assert ins[i] in multiset(init);
          var k :| 0 <= k < |init| && init[k] == ins[i];
          assert t[k] == init[k];
        }
      }
    }
  }

  /** The sort's output has non-increasing values. */
  lemma {:induction false} SortSorted(s: seq<Factor>)
    ensures NonIncreasing(SortDesc(s))
  {
    if s != [] {
      SortSorted(s[..|s| - 1]);
      InsertSorted(SortDesc(s[..|s| - 1]), s[|s| - 1]);
    }
  }

  /** Selecting by value distributes over concatenation. */
  lemma {:induction false} WithValueAppend(a: seq<Factor>, b: seq<Factor>, v: real)
    ensures WithValue(a + b, v) == WithValue(a, v) + WithValue(b, v)
  {
    if b != [] {
      var init, last := b[..|b| - 1], b[|b| - 1];
      WithValueAppend(a, init, v);
      assert (a + b)[..|a + b| - 1] == a + init;
      assert (a + b)[|a + b| - 1] == last;
      var tail := if last.value == v then [last] else [];
      assert WithValue(a + b, v) == WithValue(a + init, v) + tail;
      assert WithValue(b, v) == WithValue(init, v) + tail;
    } else {
      assert a + b == a;
    }
  }

  /** Insertion puts `x` after every element of equal value. */
  lemma {:induction false} InsertStable(t: seq<Factor>, x: Factor, v: real)
    ensures WithValue(Insert(t, x), v) == WithValue(t, v) + WithValue([x], v)
  {
    if t == [] || t[|t| - 1].value >= x.value {
      WithValueAppend(t, [x], v);
    } else {
      var init, last := t[..|t| - 1], t[|t| - 1];
      InsertStable(init, x, v);
      WithValueAppend(Insert(init, x), [last], v);
      WithValueAppend(init, [last], v);
      assert t == init + [last];
      assert WithValue([x], v) == [] || WithValue([last], v) == [];
    }
  }

  /** The sort is stable: for every value, the elements with that value keep their order. */
  lemma {:induction false} SortStable(s: seq<Factor>, v: real)
    ensures WithValue(SortDesc(s), v) == WithValue(s, v)
  {
    if s != [] {
      var init, last := s[..|s| - 1], s[|s| - 1];
      SortStable(init, v);
      InsertStable(SortDesc(init), last, v);
      WithValueAppend(init, [last], v);
      assert s == init + [last];
      assert SortDesc(s) == Insert(SortDesc(init), last);
    }
  }

  /** The comparator sort of the source on a freshly built array: an element moves in front of
      its predecessor while the predecessor's value is strictly smaller, which keeps ties in order. */
  method SortByValueDesc(a: array<Factor>)
    modifies a
    ensures a[..] == SortDesc(old(a[..]))
  {
    ghost var orig := a[..];
    var i := 0;
    while i < a.Length
      invariant 0 <= i <= a.Length
      invariant a[..i] == SortDesc(orig[..i])
      invariant a[i..] == orig[i..]
    {
      ghost var rest := orig[i + 1..];
      SortStep(orig, i);
      Tail(a[..], i, orig);
      InsertAt(a, i);
      Split(a[..], SortDesc(orig[..i + 1]), rest);
      i := i + 1;
    }
    assert orig[..a.Length] == orig;
    assert a[..a.Length] == a[..];
  }

  /** One pass of the sort: the element at position `i` moves down past every predecessor of
      strictly smaller value, so the first `i + 1` elements become the insertion of that element
      into the first `i`, and the rest of the array stays as it was. */
  method InsertAt(a: array<Factor>, i: nat)
    requires i < a.Length
    modifies a
    ensures a[..] == Insert(old(a[..i]), old(a[i])) + old(a[i + 1..])
  {
    ghost var t, rest := a[..i], a[i + 1..];
    var x := a[i];
    var j := i;
    assert a[..] == t[..j] + [x] + t[j..] + rest by {
      assert t[..j] == t && t[j..] == [];
      assert a[..] == a[..i] + [a[i]] + a[i + 1..];
    }
    while j > 0 && a[j - 1].value < a[j].value
      invariant 0 <= j <= i
      invariant a[..] == t[..j] + [x] + t[j..] + rest
      invariant Insert(t, x) == Insert(t[..j], x) + t[j..]
    {
      SwapDown(a[..], t, j, x, rest);
      InsertStep(t, j, x);
      ghost var before := a[..];
      a[j - 1], a[j] := a[j], a[j - 1];
      assert a[..] == before[j - 1 := x][j := t[j - 1]];
      j := j - 1;
    }
    Layout(a[..], t, j, x, rest);
    InsertStop(t, j, x);
  }

  /** Sorting one more element inserts it into the sorted prefix. */
  lemma SortStep(s: seq<Factor>, i: nat)
    requires i < |s|
    ensures SortDesc(s[..i + 1]) == Insert(SortDesc(s[..i]), s[i])
  {
    assert s[..i + 1][..i] == s[..i];
  }

  /** The untouched part of the array, seen from position `i`. */
  lemma Tail(s: seq<Factor>, i: nat, orig: seq<Factor>)
    requires i < |s| == |orig| && s[i..] == orig[i..]
    ensures s[i] == orig[i] && s[i + 1..] == orig[i + 1..]
  {
    assert s[i..][0] == s[i] && orig[i..][0] == orig[i];
    assert s[i + 1..] == s[i..][1..] && orig[i + 1..] == orig[i..][1..];
  }

  /** Where `x` and its predecessor sit while it moves down. */
  lemma Layout(s: seq<Factor>, t: seq<Factor>, j: nat, x: Factor, rest: seq<Factor>)
    requires j <= |t| && s == t[..j] + [x] + t[j..] + rest
    ensures s[j] == x && (j > 0 ==> s[j - 1] == t[j - 1])
  {
  }

  /** The two parts of a concatenation. */
  lemma Split(s: seq<Factor>, p: seq<Factor>, rest: seq<Factor>)
    requires s == p + rest
    ensures s[..|p|] == p && s[|p|..] == rest
  {
  }

  /** Moving `x` in front of an element of smaller value keeps the insertion result. */
  lemma InsertStep(t: seq<Factor>, j: nat, x: Factor)
    requires 0 < j <= |t| && t[j - 1].value < x.value
    requires Insert(t, x) == Insert(t[..j], x) + t[j..]
    ensures Insert(t, x) == Insert(t[..j - 1], x) + t[j - 1..]
  {
    assert t[..j][..j - 1] == t[..j - 1];
    assert Insert(t[..j], x) == Insert(t[..j - 1], x) + [t[j - 1]];
    assert t[j - 1..] == [t[j - 1]] + t[j..];
  }

  /** When `x`'s predecessor is not smaller, insertion puts `x` right there. */
  lemma InsertStop(t: seq<Factor>, j: nat, x: Factor)
    requires j <= |t| && (j == 0 || t[j - 1].value >= x.value)
    ensures Insert(t[..j], x) == t[..j] + [x]
  {
  }

  /** The swap of the inner loop, as a statement about the array's contents. */
  lemma SwapDown(s: seq<Factor>, t: seq<Factor>, j: nat, x: Factor, rest: seq<Factor>)
    requires 0 < j <= |t|
    requires s == t[..j] + [x] + t[j..] + rest
    ensures s[j - 1] == t[j - 1] && s[j] == x
    ensures s[j - 1 := x][j := t[j - 1]] == t[..j - 1] + [x] + t[j - 1..] + rest
  {
    assert t[..j] == t[..j - 1] + [t[j - 1]];
    assert t[j - 1..] == [t[j - 1]] + t[j..];
  }

  /** The three highest-valued candidates, ties in declaration order. */
  function TopFactors(data: IndicatorVector): seq<Factor>
    requires RankingFieldsPresent(data)
  {
    SortDesc(Candidates(data))[..3]
  }

  /** The source's ranking: build the candidates, sort them in place, keep the first three. */
  method IdentifyTopFactors(data: IndicatorVector) returns (top: seq<Factor>)
    requires RankingFieldsPresent(data)
    ensures top == TopFactors(data)
  {
    var ai, co := data.aiDependence.value, data.cognitiveOffloading.value;
    var na, mr := data.neuralActivity.value, data.memoryRetention.value;
    var psd := data.problemSolvingDecline.value;
    var factors := new Factor[] [
      Factor("AI Dependence", ai, ai > 0.7),
      Factor("Cognitive Offloading", co, co > 0.6),
      Factor("Neural Activity", 1.0 - na, na < 0.4),
      Factor("Memory Retention", 1.0 - mr, mr < 0.5),
      Factor("Problem Solving Decline", psd, psd > 0.6)];
    assert factors[..] == Candidates(data);
    SortPermutes(Candidates(data));
    SortByValueDesc(factors);
    top := factors[..3];
  }

  /** A permutation of a list without repetitions has none either. */
  lemma DistinctPermutation(a: seq<Factor>, b: seq<Factor>)
    requires multiset(a) == multiset(b) && Distinct(a)
    ensures Distinct(b)
  {
    forall i, j | 0 <= i < j < |b| ensures b[i] != b[j] {
      if b[i] == b[j] {
        TwiceInMultiset(b, i, j);
        AtMostOnce(a, b[i]);
        assert false;
      }
    }
  }

  /** An element at two positions occurs at least twice. */
  lemma TwiceInMultiset(s: seq<Factor>, i: nat, j: nat)
    requires i < j < |s| && s[i] == s[j]
    ensures multiset(s)[s[i]] >= 2
  {
    assert s == s[..j] + [s[j]] + s[j + 1..];
    assert s[i] in multiset(s[..j]) by {
      assert s[..j][i] == s[i];
    }
  }

  /** In a list without repetitions every element occurs at most once. */
  lemma {:induction false} AtMostOnce(s: seq<Factor>, e: Factor)
    requires Distinct(s)
    ensures multiset(s)[e] <= 1
  {
    if s != [] {
      var init, last := s[..|s| - 1], s[|s| - 1];
      AtMostOnce(init, e);
      assert s == init + [last];
      if last == e {
        assert e !in init;
      }
    }
  }

  /** The first three of the sorted list of distinct elements: distinct, in non-increasing
      order, taken from the list, and worth at least every element left out. */
  lemma TopOfSorted(s: seq<Factor>)
    requires |s| >= 3 && Distinct(s)
    ensures Distinct(SortDesc(s)[..3])
    ensures NonIncreasing(SortDesc(s)[..3])
    ensures forall f :: f in SortDesc(s)[..3] ==> f in s
    ensures forall c :: c in s && c !in SortDesc(s)[..3] ==> c.value <= SortDesc(s)[..3][2].value
  {
    var sorted := SortDesc(s);
    SortPermutes(s);
    SortSorted(s);
    DistinctPermutation(s, sorted);
    var top := sorted[..3];
    forall f | f in top ensures f in s {
      assert f in multiset(sorted);
    }
    forall c | c in s && c !in top ensures c.value <= top[2].value {
      assert c in multiset(sorted);
      var k :| 0 <= k < |sorted| && sorted[k] == c;
    }
  }

  /** The ranking keeps exactly three distinct candidates in non-increasing order; every
      candidate left out is worth at most the third one kept; ties keep declaration order. */
  lemma TopFactorsShape(data: IndicatorVector)
    requires RankingFieldsPresent(data)
    ensures |TopFactors(data)| == 3
    ensures Distinct(TopFactors(data))
    ensures NonIncreasing(TopFactors(data))
    ensures forall f :: f in TopFactors(data) ==> f in Candidates(data)
    ensures forall c :: c in Candidates(data) && c !in TopFactors(data) ==> c.value <= TopFactors(data)[2].value
    ensures forall v :: WithValue(SortDesc(Candidates(data)), v) == WithValue(Candidates(data), v)
  {
    CandidateFlags(data);
    TopOfSorted(Candidates(data));
    forall v ensures WithValue(SortDesc(Candidates(data)), v) == WithValue(Candidates(data), v) {
      SortStable(Candidates(data), v);
    }
  }
}
