/** The outlier filter of benchmark/internal/stats and the figure script that reads its indexes back. */
module IqrFilter {
  import opened Reals
  import opened Sorting
  import opened Quantile

  datatype Fence = Fence(low: real, high: real) {
    predicate Has(x: real) { low <= x <= high }
  }

  /** One and a half interquartile ranges around the quartiles. */
  function FenceFrom(q1: real, q3: real): Fence {
    Fence(q1 - 1.5 * (q3 - q1), q3 + 1.5 * (q3 - q1))
  }

  function FenceOf(values: seq<real>): Fence {
    FenceFrom(Percentile(Sort(values), 0.25), Percentile(Sort(values), 0.75))
  }

  function Select(s: seq<real>, f: Fence): (r: seq<real>)
    ensures forall x :: x in r ==> x in s && f.Has(x)
  {
    if s == [] then []
    else if f.Has(s[0]) then [s[0]] + Select(s[1..], f)
    else Select(s[1..], f)
  }

  /** The samples that the filter keeps, ascending; small samples pass through in their own order. */
  function Kept(values: seq<real>): seq<real> {
    if |values| < 5 then values else Select(Sort(values), FenceOf(values))
  }

  /** The 1-based positions of the samples outside the fence. */
  predicate IsOutlier(values: seq<real>, i: nat) {
    |values| >= 5 && 1 <= i <= |values| && !FenceOf(values).Has(values[i - 1])
  }

  ghost function OutlierSet(values: seq<real>): set<nat> {
    set i: nat | i <= |values| && IsOutlier(values, i)
  }

  /** A sample is an outlier when it lies further outside the quartiles than one and a half times their distance; with
      fewer than five samples none is. */
  lemma OutlierIsFar(values: seq<real>, i: nat)
    ensures var q1, q3 := Percentile(Sort(values), 0.25), Percentile(Sort(values), 0.75);
            i in OutlierSet(values) <==>
              && |values| >= 5 && 1 <= i <= |values|
              && (q1 - values[i - 1] > 1.5 * (q3 - q1) || values[i - 1] - q3 > 1.5 * (q3 - q1))
  {
    hide Percentile;
  }

  // ----- Selecting

  lemma {:induction false} SelectCounts(s: seq<real>, f: Fence, x: real)
    ensures multiset(Select(s, f))[x] == if f.Has(x) then multiset(s)[x] else 0
  {
    if s != [] {
      HeadAndTail(s);
      SelectCounts(s[1..], f, x);
    }
  }

  lemma SelectPermutes(s: seq<real>, t: seq<real>, f: Fence)
    requires multiset(s) == multiset(t)
    ensures multiset(Select(s, f)) == multiset(Select(t, f))
  {
    forall x
      ensures multiset(Select(s, f))[x] == multiset(Select(t, f))[x]
    {
      SelectCounts(s, f, x);
      SelectCounts(t, f, x);
    }
  }

  lemma {:induction false} SelectAppends(s: seq<real>, t: seq<real>, f: Fence)
    ensures Select(s + t, f) == Select(s, f) + Select(t, f)
  {
    if s == [] {
      assert s + t == t;
    } else {
      assert (s + t)[1..] == s[1..] + t;
      SelectAppends(s[1..], t, f);
    }
  }

  /** Ascending data that starts above the lower bound is kept up to the first value above the upper one. */
  lemma {:induction false} SelectIsPrefix(s: seq<real>, f: Fence) returns (b: nat)
    requires Sorted(s) && (s != [] ==> f.low <= s[0])
    ensures b <= |s| && Select(s, f) == s[..b]
    ensures forall i :: 0 <= i < |s| ==> (i < b <==> f.Has(s[i]))
  {
    if s == [] || !f.Has(s[0]) {
      b := 0;
      SelectNone(s, f);
    } else {
      var t := s[1..];
      b := SelectIsPrefix(t, f);
      assert [s[0]] + t[..b] == s[..b + 1];
      forall i | 0 <= i < |s|
        ensures i < b + 1 <==> f.Has(s[i])
      {
        assert i > 0 ==> t[i - 1] == s[i];
      }
      b := b + 1;
    }
  }

  lemma {:induction false} SelectNone(s: seq<real>, f: Fence)
    requires forall i :: 0 <= i < |s| ==> !f.Has(s[i])
    ensures Select(s, f) == []
  {
    if s != [] {
      SelectNone(s[1..], f);
    }
  }

  /** The stretch [a, b) of the data is what lies inside the fence. */
  ghost predicate Stretch(s: seq<real>, f: Fence, a: nat, b: nat) {
    a <= b <= |s| && forall i :: 0 <= i < |s| ==> (a <= i < b <==> f.Has(s[i]))
  }

  lemma StretchShifts(s: seq<real>, f: Fence, a: nat, b: nat)
    requires s != [] && !f.Has(s[0]) && Stretch(s[1..], f, a, b)
    ensures Stretch(s, f, a + 1, b + 1) && s[1..][a..b] == s[a + 1..b + 1]
  {
    var t := s[1..];
    forall i | 0 <= i < |s|
      ensures a + 1 <= i < b + 1 <==> f.Has(s[i])
    {
      assert i > 0 ==> t[i - 1] == s[i];
    }
  }

  /** On ascending data the fence cuts out one contiguous stretch. */
  lemma {:induction false} SelectIsSlice(s: seq<real>, f: Fence) returns (a: nat, b: nat)
    requires Sorted(s)
    ensures a <= b <= |s| && Select(s, f) == s[a..b]
    ensures forall i :: 0 <= i < |s| ==> (a <= i < b <==> f.Has(s[i]))
  {
    if s == [] || f.low <= s[0] {
      a := 0;
      b := SelectIsPrefix(s, f);
    } else {
      a, b := SelectIsSlice(s[1..], f);
      StretchShifts(s, f, a, b);
      a, b := a + 1, b + 1;
    }
  }

  // ----- What survives

  /** The order statistics between the quartile ranks lie inside the fence. */
  lemma MiddleIsInside(values: seq<real>, i: nat)
    requires i < |values|
    requires 0.25 * (|values| - 1) as real <= i as real <= 0.75 * (|values| - 1) as real
    ensures FenceOf(values).Has(Sort(values)[i])
  {
    var s := Sort(values);
    PercentileSplits(s, 0.25, i);
    PercentileSplits(s, 0.75, i);
    PercentileMonotone(s, 0.25, 0.75);
  }

  /** The filter keeps one contiguous stretch of the ascending sample that contains every order statistic
      from the lower to the upper quartile rank; so it never comes out empty, and loses at most half
      of the sample and one. */
  lemma FilterSurvival(values: seq<real>) returns (a: nat, b: nat)
    requires |values| >= 5
    ensures a <= b <= |values| && Kept(values) == Sort(values)[a..b]
    ensures a <= Ceil(0.25 * (|values| - 1) as real) && (0.75 * (|values| - 1) as real).Floor < b
    ensures |Kept(values)| > 0 && 2 * |Kept(values)| >= |values| - 2
  {
    a, b := SelectIsSlice(Sort(values), FenceOf(values));
    var m := (|values| - 1) as real;
    MiddleIsInside(values, Ceil(0.25 * m));
    MiddleIsInside(values, (0.75 * m).Floor);
  }

  // ----- The filter as the program runs it

  datatype Indexed = Indexed(val: real, idx: nat)

  function ValOf(it: Indexed): real { it.val }

  ghost predicate SortedByVal(s: seq<Indexed>) {
    forall i, j :: 0 <= i < j < |s| ==> s[i].val <= s[j].val
  }

  /** The library sort by value. Nothing is promised about the order of equal values. */
  method SortItems(items: seq<Indexed>) returns (sorted: seq<Indexed>)
    ensures SortedByVal(sorted) && multiset(sorted) == multiset(items)
  {
    sorted := SortBy(ValOf, items);
    assert forall i, j :: 0 <= i < j < |sorted| ==> ValOf(sorted[i]) <= ValOf(sorted[j]);
  }

  ghost predicate Distinct<T>(s: seq<T>) {
    forall i, j :: 0 <= i < j < |s| ==> s[i] != s[j]
  }

  lemma {:induction false} DistinctCounts<T>(s: seq<T>, x: T)
    requires Distinct(s)
    ensures multiset(s)[x] <= 1
  {
    if s != [] {
      HeadAndTail(s);
      DistinctCounts(s[1..], x);
    }
  }

  lemma DistinctPermutes<T>(s: seq<T>, t: seq<T>)
    requires Distinct(s) && multiset(s) == multiset(t)
    ensures Distinct(t)
  {
    forall i, j | 0 <= i < j < |t|
      ensures t[i] != t[j]
    {
      if t[i] == t[j] {
        TakenOut(t, i);
        var rest := t[..i] + t[i + 1..];
        assert rest[j - 1] == t[j];
        DistinctCounts(s, t[i]);
      }
    }
  }

  ghost predicate ItemsOf(values: seq<real>, items: seq<Indexed>) {
    && |items| == |values|
    && Distinct(items)
    && (forall k :: 0 <= k < |items| ==> 1 <= items[k].idx <= |values| && items[k].val == values[items[k].idx - 1])
    && (forall i: nat :: HasItem(values, items, i))
  }

  ghost predicate HasItem(values: seq<real>, items: seq<Indexed>, i: nat) {
    1 <= i <= |values| ==> Indexed(values[i - 1], i) in items
  }

  /** The values at the given positions. */
  function Picked(values: seq<real>, idxs: seq<nat>): seq<real>
    requires forall k :: 0 <= k < |idxs| ==> 1 <= idxs[k] <= |values|
  {
    seq(|idxs|, k requires 0 <= k < |idxs| => values[idxs[k] - 1])
  }

  lemma SortedItems(values: seq<real>, items: seq<Indexed>, sorted: seq<Indexed>)
    requires |items| == |values| && forall i :: 0 <= i < |values| ==> items[i] == Indexed(values[i], i + 1)
    requires SortedByVal(sorted) && multiset(sorted) == multiset(items)
    ensures ItemsOf(values, sorted) && Map(ValOf, sorted) == Sort(values)
  {
    PermutationMembers(sorted, items);
    DistinctPermutes(items, sorted);
    forall k | 0 <= k < |sorted|
      ensures 1 <= sorted[k].idx <= |values| && sorted[k].val == values[sorted[k].idx - 1]
    {
      assert sorted[k] in items;
    }
    forall i: nat
      ensures HasItem(values, sorted, i)
    {
      if 1 <= i <= |values| {
        assert items[i - 1] in items;
      }
    }
    MapPermutes(ValOf, sorted, items);
    assert Map(ValOf, items) == values;
    SortIsDetermined(values, Map(ValOf, sorted));
  }

  /** What the loop has sent to `outliers` after the first k items. */
  ghost predicate Rejected(items: seq<Indexed>, k: nat, f: Fence, outliers: seq<nat>) {
    && k <= |items|
    && Distinct(outliers)
    && forall i :: i in outliers <==> exists j :: 0 <= j < k && items[j].idx == i && !f.Has(items[j].val)
  }

  lemma RejectMore(values: seq<real>, items: seq<Indexed>, k: nat, f: Fence, outliers: seq<nat>)
    requires ItemsOf(values, items) && k < |items| && Rejected(items, k, f, outliers)
    ensures Rejected(items, k + 1, f, if f.Has(items[k].val) then outliers else outliers + [items[k].idx])
  {
    if !f.Has(items[k].val) {
      var more := outliers + [items[k].idx];
      assert items[k].idx !in outliers;
      forall i
        ensures i in more <==> exists j :: 0 <= j < k + 1 && items[j].idx == i && !f.Has(items[j].val)
      {
        if i == items[k].idx {
          assert more[|more| - 1] == i;
        } else if i in outliers {
          var j :| 0 <= j < k && items[j].idx == i && !f.Has(items[j].val);
        }
      }
    } else {
      forall i | exists j :: 0 <= j < k + 1 && items[j].idx == i && !f.Has(items[j].val)
        ensures i in outliers
      {
        var j :| 0 <= j < k + 1 && items[j].idx == i && !f.Has(items[j].val);
        assert j < k;
      }
    }
  }

  lemma RejectedAll(values: seq<real>, items: seq<Indexed>, outliers: seq<nat>)
    requires |values| >= 5 && ItemsOf(values, items) && Rejected(items, |items|, FenceOf(values), outliers)
    ensures forall i :: i in outliers <==> i in OutlierSet(values)
  {
    var f := FenceOf(values);
    forall i: nat
      ensures i in outliers <==> i in OutlierSet(values)
    {
      if i in OutlierSet(values) {
        assert HasItem(values, items, i);
        var j :| 0 <= j < |items| && items[j] == Indexed(values[i - 1], i);
        assert items[j].idx == i && !f.Has(items[j].val);
      }
    }
  }

  ghost predicate Positions(idxs: seq<nat>, n: nat) {
    forall k :: 0 <= k < |idxs| ==> 1 <= idxs[k] <= n
  }

  lemma TakeOneMore<T>(s: seq<T>, k: nat)
    requires k < |s|
    ensures s[..k + 1] == s[..k] + [s[k]]
  {
  }

  lemma SelectOneMore(s: seq<real>, k: nat, f: Fence)
    requires k < |s|
    ensures Select(s[..k + 1], f) == if f.Has(s[k]) then Select(s[..k], f) + [s[k]] else Select(s[..k], f)
  {
    TakeOneMore(s, k);
    SelectAppends(s[..k], [s[k]], f);
    assert [s[k]][1..] == [];
  }

  /** Ascending values of the items, split between the kept ones and the rejected positions. */
  ghost predicate SplitAt(values: seq<real>, items: seq<Indexed>, k: nat, f: Fence,
                          filtered: seq<real>, outliers: seq<nat>)
    requires k <= |items|
  {
    && Positions(outliers, |values|)
    && filtered == Select(Map(ValOf, items)[..k], f)
    && Conserved(values, filtered, outliers, Map(ValOf, items)[..k])
  }

  ghost predicate Conserved(values: seq<real>, filtered: seq<real>, outliers: seq<nat>, seen: seq<real>)
    requires Positions(outliers, |values|)
  {
    multiset(filtered) + multiset(Picked(values, outliers)) == multiset(seen)
  }

  lemma ConserveReject(values: seq<real>, filtered: seq<real>, outliers: seq<nat>, seen: seq<real>, i: nat)
    requires Positions(outliers, |values|) && Conserved(values, filtered, outliers, seen) && 1 <= i <= |values|
    ensures Positions(outliers + [i], |values|)
    ensures Conserved(values, filtered, outliers + [i], seen + [values[i - 1]])
  {
    assert Picked(values, outliers + [i]) == Picked(values, outliers) + [values[i - 1]];
  }

  lemma SplitKeep(values: seq<real>, items: seq<Indexed>, k: nat, f: Fence, filtered: seq<real>, outliers: seq<nat>)
    requires ItemsOf(values, items) && k < |items| && SplitAt(values, items, k, f, filtered, outliers)
    requires f.Has(items[k].val)
    ensures SplitAt(values, items, k + 1, f, filtered + [items[k].val], outliers)
  {
    SelectOneMore(Map(ValOf, items), k, f);
    TakeOneMore(Map(ValOf, items), k);
  }

  lemma SplitReject(values: seq<real>, items: seq<Indexed>, k: nat, f: Fence, filtered: seq<real>, outliers: seq<nat>)
    requires ItemsOf(values, items) && k < |items| && SplitAt(values, items, k, f, filtered, outliers)
    requires !f.Has(items[k].val)
    ensures SplitAt(values, items, k + 1, f, filtered, outliers + [items[k].idx])
  {
    var s := Map(ValOf, items);
    assert Select(s[..k + 1], f) == filtered by {
      SelectOneMore(s, k, f);
    }
    TakeOneMore(s, k);
    ConserveReject(values, filtered, outliers, s[..k], items[k].idx);
    assert values[items[k].idx - 1] == s[k];
  }

  /** The loop over the sorted items. */
  method SplitByFence(values: seq<real>, items: seq<Indexed>, low: real, high: real)
    returns (filtered: seq<real>, outliers: seq<nat>)
    requires ItemsOf(values, items)
    ensures SplitAt(values, items, |items|, Fence(low, high), filtered, outliers)
    ensures Rejected(items, |items|, Fence(low, high), outliers)
  {
    filtered, outliers := [], [];
    for k := 0 to |items|
      invariant SplitAt(values, items, k, Fence(low, high), filtered, outliers)
      invariant Rejected(items, k, Fence(low, high), outliers)
    {
      RejectMore(values, items, k, Fence(low, high), outliers);
      if items[k].val >= low && items[k].val <= high {
        SplitKeep(values, items, k, Fence(low, high), filtered, outliers);
        filtered := filtered + [items[k].val];
      } else {
        SplitReject(values, items, k, Fence(low, high), filtered, outliers);
        outliers := outliers + [items[k].idx];
      }
    }
  }

  method Enumerate(values: seq<real>) returns (items: seq<Indexed>)
    ensures |items| == |values| && forall i :: 0 <= i < |values| ==> items[i] == Indexed(values[i], i + 1)
  {
    items := [];
    for i := 0 to |values|
      invariant |items| == i && forall k :: 0 <= k < i ==> items[k] == Indexed(values[k], k + 1)
    {
      items := items + [Indexed(values[i], i + 1)];
    }
  }

  lemma SplitIsFilter(values: seq<real>, items: seq<Indexed>, filtered: seq<real>, outliers: seq<nat>)
    requires |values| >= 5 && ItemsOf(values, items) && Map(ValOf, items) == Sort(values)
    requires SplitAt(values, items, |items|, FenceOf(values), filtered, outliers)
    requires Rejected(items, |items|, FenceOf(values), outliers)
    ensures filtered == Kept(values) && |filtered| > 0
    ensures Distinct(outliers) && forall i :: i in outliers <==> i in OutlierSet(values)
    ensures multiset(filtered) + multiset(Picked(values, outliers)) == multiset(values)
  {
    var s := Map(ValOf, items);
    assert s[..|items|] == s;
    RejectedAll(values, items, outliers);
    var a, b := FilterSurvival(values);
  }

  /** The outlier indexes are the positions outside the fence, each once; the kept values are ascending; the
      two together are the input. The branch for an empty result is dead. */
  method FilterIQRIndexed(values: seq<real>) returns (filtered: seq<real>, outliers: seq<nat>)
    ensures filtered == Kept(values)
    ensures Distinct(outliers) && forall i :: i in outliers <==> i in OutlierSet(values)
    ensures Positions(outliers, |values|)
    ensures multiset(filtered) + multiset(Picked(values, outliers)) == multiset(values)
  {
    if |values| < 5 {
      return values, [];
    }
    var items := Enumerate(values);
    var sorted := SortItems(items);
    SortedItems(values, items, sorted);
    var sortedVals := Map(ValOf, sorted);
    var q1 := Percentile(sortedVals, 0.25);
    var q3 := Percentile(sortedVals, 0.75);
    var iqr := q3 - q1;
    var low := q1 - 1.5 * iqr;
    var high := q3 + 1.5 * iqr;
    filtered, outliers := SplitByFence(values, sorted, low, high);
    assert FenceOf(values) == Fence(low, high);
    SplitIsFilter(values, sorted, filtered, outliers);
    if |filtered| == 0 {
      assert false;
    }
  }

  // ----- Change of unit

  function FenceIn(u: real -> real, f: Fence): Fence {
    Fence(u(f.low), u(f.high))
  }

  /** The fence lies on the line through the quartiles. */
  lemma FenceIsMix(q1: real, q3: real)
    ensures FenceFrom(q1, q3) == Fence(Mix(q1, q3, -1.5), Mix(q1, q3, 2.5))
  {
  }

  lemma FenceMaps(u: real -> real, values: seq<real>)
    requires ChangeOfUnit(u) && values != []
    ensures FenceOf(Map(u, values)) == FenceIn(u, FenceOf(values))
  {
    var s := Sort(values);
    SortMaps(u, values);
    PercentileMaps(u, s, 0.25);
    PercentileMaps(u, s, 0.75);
    FenceIsMix(Percentile(s, 0.25), Percentile(s, 0.75));
    FenceIsMix(u(Percentile(s, 0.25)), u(Percentile(s, 0.75)));
    assert Mixes(u, Percentile(s, 0.25), Percentile(s, 0.75), -1.5);
    assert Mixes(u, Percentile(s, 0.25), Percentile(s, 0.75), 2.5);
  }

  lemma OutlierMaps(u: real -> real, values: seq<real>, i: nat)
    requires ChangeOfUnit(u)
    ensures IsOutlier(Map(u, values), i) <==> IsOutlier(values, i)
  {
    if |values| >= 5 && 1 <= i <= |values| {
      FenceMaps(u, values);
    }
  }

  lemma {:induction false} SelectMaps(u: real -> real, s: seq<real>, f: Fence)
    requires forall x, y :: x <= y <==> u(x) <= u(y)
    ensures Select(Map(u, s), FenceIn(u, f)) == Map(u, Select(s, f))
  {
    if s != [] {
      SelectMaps(u, s[1..], f);
      assert Map(u, s)[1..] == Map(u, s[1..]);
      assert Map(u, [s[0]] + Select(s[1..], f)) == [u(s[0])] + Map(u, Select(s[1..], f));
    }
  }

  lemma OutliersMap(u: real -> real, values: seq<real>)
    requires ChangeOfUnit(u)
    ensures OutlierSet(Map(u, values)) == OutlierSet(values)
  {
    forall i: nat
      ensures i in OutlierSet(Map(u, values)) <==> i in OutlierSet(values)
    {
      OutlierMaps(u, values, i);
    }
  }

  /** In another unit the filter keeps the same samples and reports the same positions. */
  lemma FilterMaps(u: real -> real, values: seq<real>)
    requires ChangeOfUnit(u)
    ensures Kept(Map(u, values)) == Map(u, Kept(values))
    ensures OutlierSet(Map(u, values)) == OutlierSet(values)
  {
    hide Mixes;
    OutliersMap(u, values);
    if |values| >= 5 {
      FenceMaps(u, values);
      SortMaps(u, values);
      SelectMaps(u, Sort(values), FenceOf(values));
    }
  }

  // ----- The figure script

  /** The values of the runs that are not listed, in run order. */
  function Unlisted(values: seq<real>, listed: set<nat>, k: nat): seq<real>
    requires k <= |values|
  {
    if k == 0 then []
    else Unlisted(values, listed, k - 1) + (if k in listed then [] else [values[k - 1]])
  }

  /** The script walks the values in run order, in its own unit, and splits them by the listed positions. */
  method SplitFilteredRuns(us: real -> real, valuesNs: seq<real>, outlierIndexes: set<nat>)
    returns (filtered: seq<real>, outliers: seq<(nat, real)>)
    ensures filtered == Unlisted(Map(us, valuesNs), outlierIndexes, |valuesNs|)
    ensures forall i, v :: (i, v) in outliers <==>
              i in outlierIndexes && 1 <= i <= |valuesNs| && v == us(valuesNs[i - 1])
  {
    var values := Map(us, valuesNs);
    filtered, outliers := [], [];
    for k := 0 to |values|
      invariant filtered == Unlisted(values, outlierIndexes, k)
      invariant forall i, v :: (i, v) in outliers <==> i in outlierIndexes && 1 <= i <= k && v == values[i - 1]
    {
      if k + 1 in outlierIndexes {
        outliers := outliers + [(k + 1, values[k])];
      } else {
        filtered := filtered + [values[k]];
      }
    }
  }

  lemma {:induction false} UnlistedIsSelected(values: seq<real>, f: Fence, listed: set<nat>, k: nat)
    requires k <= |values|
    requires forall i :: 1 <= i <= |values| ==> (i in listed <==> !f.Has(values[i - 1]))
    ensures Unlisted(values, listed, k) == Select(values[..k], f)
  {
    if k > 0 {
      UnlistedIsSelected(values, f, listed, k - 1);
      SelectOneMore(values, k - 1, f);
    }
  }

  lemma {:induction false} UnlistedIsAll(values: seq<real>, k: nat)
    requires k <= |values|
    ensures Unlisted(values, {}, k) == values[..k]
  {
    if k > 0 {
      UnlistedIsAll(values, k - 1);
      TakeOneMore(values, k - 1);
    }
  }

  /** On the positions that the Go filter reports, the script recovers exactly the filtered sample in its unit. */
  lemma SplitRecoversFilter(us: real -> real, values: seq<real>)
    requires ChangeOfUnit(us)
    ensures multiset(Unlisted(Map(us, values), OutlierSet(values), |values|)) == multiset(Map(us, Kept(values)))
  {
    FilterMaps(us, values);
    ListedAreOutliers(Map(us, values));
  }

  lemma ListedAreOutliers(values: seq<real>)
    ensures multiset(Unlisted(values, OutlierSet(values), |values|)) == multiset(Kept(values))
  {
    assert values[..|values|] == values;
    if |values| < 5 {
      assert OutlierSet(values) == {};
      UnlistedIsAll(values, |values|);
    } else {
      forall i: nat | 1 <= i <= |values|
        ensures i in OutlierSet(values) <==> !FenceOf(values).Has(values[i - 1])
      {
        assert i in OutlierSet(values) <==> IsOutlier(values, i);
      }
      UnlistedIsSelected(values, FenceOf(values), OutlierSet(values), |values|);
      SelectPermutes(values, Sort(values), FenceOf(values));
    }
  }
}
