// core::TimeSeries: a named series of (timestamp, value) points kept in two
// parallel vectors.  TimeSeries is a value type in C++ (copied, never
// shared), so its mutators are modelled as methods returning the new value.
module TimeSeriesCore {
  import opened Wrappers
  import opened DateTimes

  datatype TimeSeries = TimeSeries(timestamps: seq<DateTime>, values: seq<real>, name: string)
  {
    /** The two vectors have the same length (every constructor enforces it). */
    predicate Wf() { |timestamps| == |values| }

    function Size(): nat { |timestamps| }
  }

  /** The default and name-only constructors: an empty series. */
  function Named(name: string): (s: TimeSeries)
    ensures s.Wf() && s.Size() == 0 && s.name == name
  {
    TimeSeries([], [], name)
  }

  /** The vector constructor, which rejects vectors of different lengths. */
  function New(timestamps: seq<DateTime>, values: seq<real>, name: string): (r: Result<TimeSeries>)
    ensures r.Ok? <==> |timestamps| == |values|
    ensures r.Ok? ==> r.value.Wf() && r.value.timestamps == timestamps && r.value.values == values
                      && r.value.name == name
    ensures r.Err? ==> r.error == InvalidArgument
  {
    if |timestamps| != |values| then Err(InvalidArgument) else Ok(TimeSeries(timestamps, values, name))
  }

  predicate StrictlyIncreasing(ts: seq<DateTime>)
  {
    forall i, j :: 0 <= i < j < |ts| ==> Less(ts[i], ts[j])
  }

  /** The precondition of std::lower_bound: the points before `t` come first. */
  predicate PartitionedBy(ts: seq<DateTime>, t: DateTime)
  {
    forall i, j :: 0 <= i < j < |ts| && Less(ts[j], t) ==> Less(ts[i], t)
  }

  lemma SortedIsPartitioned(ts: seq<DateTime>, t: DateTime)
    requires StrictlyIncreasing(ts)
    ensures PartitionedBy(ts, t)
  {
    forall i, j | 0 <= i < j < |ts| && Less(ts[j], t) ensures Less(ts[i], t) {
      LessIsStrictTotalOrder(ts[i], ts[j], t);
    }
  }

  /** std::find: the first index holding `t`. */
  function IndexOf(ts: seq<DateTime>, t: DateTime): (k: nat)
    requires t in ts
    ensures k < |ts| && ts[k] == t
    ensures forall i :: 0 <= i < k ==> ts[i] != t
  {
    if ts[0] == t then 0 else 1 + IndexOf(ts[1..], t)
  }

  /** std::lower_bound: the first index whose timestamp is not before `t`. */
  function LowerBound(ts: seq<DateTime>, t: DateTime): (k: nat)
    ensures k <= |ts|
    ensures forall i :: 0 <= i < k ==> Less(ts[i], t)
    ensures k < |ts| ==> !Less(ts[k], t)
  {
    if ts == [] || !Less(ts[0], t) then 0 else 1 + LowerBound(ts[1..], t)
  }

  /** The series after addDataPoint(t, v): overwrite at the first `t`, or insert at the lower bound. */
  function WithPoint(s: TimeSeries, t: DateTime, v: real): TimeSeries
    requires s.Wf()
  {
    if t in s.timestamps then
      s.(values := s.values[IndexOf(s.timestamps, t) := v])
    else
      var k := LowerBound(s.timestamps, t);
      s.(timestamps := s.timestamps[..k] + [t] + s.timestamps[k..],
         values := s.values[..k] + [v] + s.values[k..])
  }

  method AddDataPoint(s: TimeSeries, t: DateTime, v: real) returns (r: TimeSeries)
    requires s.Wf() && (t !in s.timestamps ==> PartitionedBy(s.timestamps, t))
    ensures r == WithPoint(s, t, v)
  {
    var ts := s.timestamps;
    var i := 0;
    while i < |ts| && ts[i] != t
      invariant 0 <= i <= |ts|
      invariant forall j :: 0 <= j < i ==> ts[j] != t
    {
      i := i + 1;
    }
    if i < |ts| {
      assert i == IndexOf(ts, t);
      r := s.(values := s.values[i := v]);
      return;
    }
    assert t !in ts;
    var lo, hi := 0, |ts|;
    while lo < hi
      invariant 0 <= lo <= hi <= |ts|
      invariant forall j :: 0 <= j < lo ==> Less(ts[j], t)
      invariant forall j :: hi <= j < |ts| ==> !Less(ts[j], t)
      decreases hi - lo
    {
      var mid := lo + (hi - lo) / 2;
      if Less(ts[mid], t) {
        lo := mid + 1;
      } else {
        hi := mid;
      }
    }
    ghost var k := LowerBound(ts, t);
    assert k < |ts| ==> !Less(ts[k], t);
    assert lo < |ts| ==> !Less(ts[lo], t);
    assert lo == k;
    r := s.(timestamps := ts[..lo] + [t] + ts[lo..], values := s.values[..lo] + [v] + s.values[lo..]);
  }

  /** Joining two sorted runs, every element of the first before every element of the second, stays sorted. */
  lemma JoinSorted(a: seq<DateTime>, b: seq<DateTime>)
    requires StrictlyIncreasing(a) && StrictlyIncreasing(b)
    requires forall i, j :: 0 <= i < |a| && 0 <= j < |b| ==> Less(a[i], b[j])
    ensures StrictlyIncreasing(a + b)
  {
    var c := a + b;
    forall i, j | 0 <= i < j < |c| ensures Less(c[i], c[j]) {
      if j < |a| {
        assert c[i] == a[i] && c[j] == a[j];
      } else if i >= |a| {
        assert c[i] == b[i - |a|] && c[j] == b[j - |a|];
      } else {
        assert c[i] == a[i] && c[j] == b[j - |a|];
      }
    }
  }

  /** Inserting a new timestamp at its lower bound keeps a sorted sequence sorted. */
  lemma InsertKeepsSorted(ts: seq<DateTime>, t: DateTime)
    requires StrictlyIncreasing(ts) && t !in ts
    ensures var k := LowerBound(ts, t); StrictlyIncreasing(ts[..k] + [t] + ts[k..])
  {
    var k := LowerBound(ts, t);
    var a, b := ts[..k], ts[k..];
    assert StrictlyIncreasing(a) by {
      forall i, j | 0 <= i < j < |a| ensures Less(a[i], a[j]) { assert a[i] == ts[i] && a[j] == ts[j]; }
    }
    assert StrictlyIncreasing(b) by {
      forall i, j | 0 <= i < j < |b| ensures Less(b[i], b[j]) { assert b[i] == ts[k + i] && b[j] == ts[k + j]; }
    }
    JoinSorted(a, [t]);
    forall j | 0 <= j < |b| ensures Less(t, b[j]) {
      assert b[j] == ts[k + j];
      if j > 0 {
        LessIsStrictTotalOrder(ts[k], ts[k + j], t);
      }
      LessIsStrictTotalOrder(t, ts[k + j], t);
    }
    forall i, j | 0 <= i < |a + [t]| && 0 <= j < |b| ensures Less((a + [t])[i], b[j]) {
      if i < |a| {
        LessIsStrictTotalOrder(a[i], t, b[j]);
      }
    }
    JoinSorted(a + [t], b);
  }

  /**
   * addDataPoint keeps the size for a timestamp already present and grows it
   * by one otherwise, adds exactly `t` to the timestamps, and keeps a sorted,
   * duplicate-free series so.
   */
  lemma WithPointShape(s: TimeSeries, t: DateTime, v: real)
    requires s.Wf()
    ensures WithPoint(s, t, v).Wf() && WithPoint(s, t, v).name == s.name
    ensures WithPoint(s, t, v).Size() == if t in s.timestamps then s.Size() else s.Size() + 1
    ensures forall u :: u in WithPoint(s, t, v).timestamps <==> u == t || u in s.timestamps
    ensures StrictlyIncreasing(s.timestamps) ==> StrictlyIncreasing(WithPoint(s, t, v).timestamps)
  {
    var ts := s.timestamps;
    if t !in ts {
      var k := LowerBound(ts, t);
      assert ts == ts[..k] + ts[k..];
      if StrictlyIncreasing(ts) {
        InsertKeepsSorted(ts, t);
      }
    }
  }

  /** After addDataPoint(t, v), looking up `t` gives `v` and every other timestamp keeps its value. */
  lemma WithPointLookup(s: TimeSeries, t: DateTime, v: real, u: DateTime)
    requires s.Wf()
    ensures ValueAt(WithPoint(s, t, v), t) == Ok(v)
    ensures u != t ==> ValueAt(WithPoint(s, t, v), u) == ValueAt(s, u)
  {
    if t !in s.timestamps {
      InsertedLookup(s, t, v, u);
    } else if u != t && u in s.timestamps {
      var r := WithPoint(s, t, v);
      assert IndexOf(r.timestamps, u) == IndexOf(s.timestamps, u);
    }
  }

  lemma InsertedLookup(s: TimeSeries, t: DateTime, v: real, u: DateTime)
    requires s.Wf() && t !in s.timestamps
    ensures ValueAt(WithPoint(s, t, v), t) == Ok(v)
    ensures u != t ==> ValueAt(WithPoint(s, t, v), u) == ValueAt(s, u)
  {
    var k := LowerBound(s.timestamps, t);
    InsertAt(s.timestamps, k, t);
    InsertAt(s.values, k, v);
    FirstIndex(WithPoint(s, t, v).timestamps, t, k);
    if u != t {
      InsertedOther(s, t, v, u);
    }
  }

  lemma InsertedOther(s: TimeSeries, t: DateTime, v: real, u: DateTime)
    requires s.Wf() && t !in s.timestamps && u != t
    ensures ValueAt(WithPoint(s, t, v), u) == ValueAt(s, u)
  {
    var ts := s.timestamps;
    var k := LowerBound(ts, t);
    var r := WithPoint(s, t, v);
    InsertAt(ts, k, t);
    InsertAt(s.values, k, v);
    if u in ts {
      var j := IndexOf(ts, u);
      var j' := if j < k then j else j + 1;
      FirstIndex(r.timestamps, u, j');
    } else {
      assert u !in r.timestamps;
    }
  }

  /** The positions of a sequence after inserting `x` at index `k`. */
  lemma InsertAt<T>(xs: seq<T>, k: nat, x: T)
    requires k <= |xs|
    ensures var ys := xs[..k] + [x] + xs[k..];
      && |ys| == |xs| + 1 && ys[k] == x
      && (forall i :: 0 <= i < k ==> ys[i] == xs[i])
      && (forall i :: k < i < |ys| ==> ys[i] == xs[i - 1])
  {
  }

  /** An index holding `t` with no `t` before it is the one std::find returns. */
  lemma FirstIndex(ts: seq<DateTime>, t: DateTime, k: nat)
    requires k < |ts| && ts[k] == t && forall i :: 0 <= i < k ==> ts[i] != t
    ensures IndexOf(ts, t) == k
  {
  }

  /** clear(): both vectors emptied, the name kept. */
  function Clear(s: TimeSeries): (r: TimeSeries)
    ensures r.Wf() && r.Size() == 0 && r.name == s.name
  {
    s.(timestamps := [], values := [])
  }

  /** getValue(index). */
  function ValueAtIndex(s: TimeSeries, index: nat): (r: Result<real>)
    requires s.Wf()
    ensures r.Ok? <==> index < s.Size()
    ensures r.Ok? ==> r.value == s.values[index]
    ensures r.Err? ==> r.error == OutOfRange
  {
    if index >= |s.values| then Err(OutOfRange) else Ok(s.values[index])
  }

  /** getValue(timestamp): the value at the first occurrence of `t`. */
  function ValueAt(s: TimeSeries, t: DateTime): (r: Result<real>)
    requires s.Wf()
    ensures r.Ok? <==> t in s.timestamps
    ensures r.Ok? ==> exists i :: 0 <= i < s.Size() && s.timestamps[i] == t && r.value == s.values[i]
                                  && forall j :: 0 <= j < i ==> s.timestamps[j] != t
    ensures r.Err? ==> r.error == InvalidArgument
  {
    if t in s.timestamps then Ok(s.values[IndexOf(s.timestamps, t)]) else Err(InvalidArgument)
  }

  /** getTimestamp(index). */
  function TimestampAt(s: TimeSeries, index: nat): (r: Result<DateTime>)
    requires s.Wf()
    ensures r.Ok? <==> index < s.Size()
    ensures r.Ok? ==> r.value == s.timestamps[index]
    ensures r.Err? ==> r.error == OutOfRange
  {
    if index >= |s.timestamps| then Err(OutOfRange) else Ok(s.timestamps[index])
  }

  /** getDataPoint(index). */
  function DataPointAt(s: TimeSeries, index: nat): (r: Result<(DateTime, real)>)
    requires s.Wf()
    ensures r.Ok? <==> index < s.Size()
    ensures r.Ok? ==> r.value == (s.timestamps[index], s.values[index])
    ensures r.Err? ==> r.error == OutOfRange
  {
    if index >= |s.timestamps| then Err(OutOfRange) else Ok((s.timestamps[index], s.values[index]))
  }

  // ---- Sub-series ---------------------------------------------------------

  predicate InWindow(t: DateTime, start: DateTime, end: DateTime)
  {
    GreaterEq(t, start) && LessEq(t, end)
  }

  /** The indices below `n` whose timestamp lies in [start, end], in increasing order. */
  function Kept(ts: seq<DateTime>, start: DateTime, end: DateTime, n: nat): (idx: seq<nat>)
    requires n <= |ts|
    ensures forall k :: 0 <= k < |idx| ==> idx[k] < n
  {
    if n == 0 then [] else Kept(ts, start, end, n - 1) + (if InWindow(ts[n - 1], start, end) then [n - 1] else [])
  }

  /** `Kept` lists exactly the in-window indices, each once, in increasing order. */
  lemma {:induction false} KeptFacts(ts: seq<DateTime>, start: DateTime, end: DateTime, n: nat)
    requires n <= |ts|
    ensures forall k, l :: 0 <= k < l < |Kept(ts, start, end, n)| ==> Kept(ts, start, end, n)[k] < Kept(ts, start, end, n)[l]
    ensures forall i :: 0 <= i < n ==> (i in Kept(ts, start, end, n) <==> InWindow(ts[i], start, end))
  {
    if n > 0 {
      KeptFacts(ts, start, end, n - 1);
    }
  }

  function Pick<T>(xs: seq<T>, idx: seq<nat>): (r: seq<T>)
    requires forall k :: 0 <= k < |idx| ==> idx[k] < |xs|
    ensures |r| == |idx|
    ensures forall k :: 0 <= k < |idx| ==> r[k] == xs[idx[k]]
  {
    seq(|idx|, k requires 0 <= k < |idx| => xs[idx[k]])
  }

  /** getSubseries(start, end): the points with start <= t <= end, in order. */
  method SubseriesByTime(s: TimeSeries, start: DateTime, end: DateTime) returns (r: TimeSeries)
    requires s.Wf()
    ensures r.Wf() && r.name == s.name + "_subseries"
    ensures var idx := Kept(s.timestamps, start, end, s.Size());
      r.timestamps == Pick(s.timestamps, idx) && r.values == Pick(s.values, idx)
  {
    var ts, vs := [], [];
    var i := 0;
    while i < |s.timestamps|
      invariant 0 <= i <= |s.timestamps|
      invariant ts == Pick(s.timestamps, Kept(s.timestamps, start, end, i))
      invariant vs == Pick(s.values, Kept(s.timestamps, start, end, i))
    {
      if GreaterEq(s.timestamps[i], start) && LessEq(s.timestamps[i], end) {
        ts := ts + [s.timestamps[i]];
        vs := vs + [s.values[i]];
      }
      i := i + 1;
    }
    r := TimeSeries(ts, vs, s.name + "_subseries");
  }

  /** A time window of a sorted series holds exactly its in-window timestamps, still sorted. */
  lemma SubseriesByTimeMeaning(s: TimeSeries, start: DateTime, end: DateTime, r: TimeSeries)
    requires s.Wf()
    requires var idx := Kept(s.timestamps, start, end, s.Size());
      r.timestamps == Pick(s.timestamps, idx) && r.values == Pick(s.values, idx)
    ensures forall t :: t in r.timestamps <==> t in s.timestamps && InWindow(t, start, end)
    ensures StrictlyIncreasing(s.timestamps) ==> StrictlyIncreasing(r.timestamps)
  {
    var idx := Kept(s.timestamps, start, end, s.Size());
    KeptFacts(s.timestamps, start, end, s.Size());
    PickMembers(s.timestamps, idx, start, end);
    if StrictlyIncreasing(s.timestamps) {
      PickIncreasing(s.timestamps, idx);
    }
  }

  lemma PickMembers(ts: seq<DateTime>, idx: seq<nat>, start: DateTime, end: DateTime)
    requires forall k :: 0 <= k < |idx| ==> idx[k] < |ts|
    requires forall i :: 0 <= i < |ts| ==> (i in idx <==> InWindow(ts[i], start, end))
    ensures forall t :: t in Pick(ts, idx) <==> t in ts && InWindow(t, start, end)
  {
    var p := Pick(ts, idx);
    forall t | t in ts && InWindow(t, start, end) ensures t in p {
      var i :| 0 <= i < |ts| && ts[i] == t;
      var k :| 0 <= k < |idx| && idx[k] == i;
      assert p[k] == t;
    }
  }

  lemma PickIncreasing(ts: seq<DateTime>, idx: seq<nat>)
    requires forall k :: 0 <= k < |idx| ==> idx[k] < |ts|
    requires forall k, l :: 0 <= k < l < |idx| ==> idx[k] < idx[l]
    requires StrictlyIncreasing(ts)
    ensures StrictlyIncreasing(Pick(ts, idx))
  {
  }

  /** getSubseries(startIndex, endIndex): points startIndex..endIndex inclusive. */
  function SubseriesByIndex(s: TimeSeries, startIndex: nat, endIndex: nat): (r: Result<TimeSeries>)
    requires s.Wf()
    ensures r.Ok? <==> startIndex <= endIndex < s.Size()
    ensures r.Ok? ==> r.value.Wf() && r.value.Size() == endIndex - startIndex + 1
                      && r.value.name == s.name + "_subseries"
                      && forall k :: 0 <= k < r.value.Size() ==>
                           r.value.timestamps[k] == s.timestamps[startIndex + k] && r.value.values[k] == s.values[startIndex + k]
    ensures r.Err? ==> r.error == OutOfRange
  {
    if startIndex >= s.Size() || endIndex >= s.Size() || startIndex > endIndex then Err(OutOfRange)
    else Ok(TimeSeries(s.timestamps[startIndex..endIndex + 1], s.values[startIndex..endIndex + 1], s.name + "_subseries"))
  }

  // ---- Statistics and transformations -------------------------------------

  /** std::accumulate from 0.0, a left fold. */
  function Sum(xs: seq<real>): real
  {
    if xs == [] then 0.0 else Sum(xs[..|xs| - 1]) + xs[|xs| - 1]
  }

  lemma {:induction false} SumConcat(a: seq<real>, b: seq<real>)
    ensures Sum(a + b) == Sum(a) + Sum(b)
    decreases |b|
  {
    if b == [] {
      assert a + b == a;
    } else {
      var c := a + b;
      assert c[..|c| - 1] == a + b[..|b| - 1];
      assert c[|c| - 1] == b[|b| - 1];
      SumConcat(a, b[..|b| - 1]);
      assert Sum(c) == Sum(c[..|c| - 1]) + c[|c| - 1];
      assert Sum(b) == Sum(b[..|b| - 1]) + b[|b| - 1];
    }
  }

  function Mean(s: TimeSeries): (r: Result<real>)
    ensures r.Ok? <==> |s.values| > 0
    ensures r.Ok? ==> r.value * (|s.values| as real) == Sum(s.values)
    ensures r.Err? ==> r.error == RuntimeError
  {
    if |s.values| == 0 then Err(RuntimeError) else Ok(Sum(s.values) / (|s.values| as real))
  }

  method Diff(s: TimeSeries) returns (r: Result<TimeSeries>)
    requires s.Wf()
    ensures r.Ok? <==> s.Size() >= 2
    ensures r.Err? ==> r.error == RuntimeError
    ensures r.Ok? ==> r.value.Wf() && r.value.timestamps == s.timestamps[1..] && r.value.name == s.name + "_diff"
    ensures r.Ok? ==> forall i :: 0 <= i < |r.value.values| ==> r.value.values[i] == s.values[i + 1] - s.values[i]
  {
    if |s.values| < 2 {
      return Err(RuntimeError);
    }
    var out := [];
    var i := 1;
    while i < |s.values|
      invariant 1 <= i <= |s.values|
      invariant |out| == i - 1
      invariant forall k :: 0 <= k < i - 1 ==> out[k] == s.values[k + 1] - s.values[k]
    {
      out := out + [s.values[i] - s.values[i - 1]];
      i := i + 1;
    }
    r := Ok(TimeSeries(s.timestamps[1..], out, s.name + "_diff"));
  }

  /** Differencing is undone by a running sum from the first value. */
  lemma {:induction false} DiffInverse(xs: seq<real>, d: seq<real>, k: nat)
    requires |d| == |xs| - 1 && k < |xs|
    requires forall i :: 0 <= i < |d| ==> d[i] == xs[i + 1] - xs[i]
    ensures xs[0] + Sum(d[..k]) == xs[k]
  {
    if k > 0 {
      DiffInverse(xs, d, k - 1);
      assert d[..k][..k - 1] == d[..k - 1];
    }
  }

  method PctChange(s: TimeSeries) returns (r: Result<TimeSeries>)
    requires s.Wf()
    ensures r.Ok? <==> s.Size() >= 2 && forall i :: 0 <= i < s.Size() - 1 ==> s.values[i] != 0.0
    ensures r.Err? ==> r.error == RuntimeError
    ensures r.Ok? ==> r.value.Wf() && r.value.timestamps == s.timestamps[1..] && r.value.name == s.name + "_pctchange"
    ensures r.Ok? ==> forall i :: 0 <= i < |r.value.values| ==>
                        s.values[i] != 0.0 && r.value.values[i] == (s.values[i + 1] - s.values[i]) / s.values[i]
  {
    if |s.values| < 2 {
      return Err(RuntimeError);
    }
    var out := [];
    var i := 1;
    while i < |s.values|
      invariant 1 <= i <= |s.values|
      invariant |out| == i - 1
      invariant forall k :: 0 <= k < i - 1 ==> s.values[k] != 0.0 && out[k] == (s.values[k + 1] - s.values[k]) / s.values[k]
    {
      if s.values[i - 1] == 0.0 {
        return Err(RuntimeError);
      }
      out := out + [(s.values[i] - s.values[i - 1]) / s.values[i - 1]];
      i := i + 1;
    }
    r := Ok(TimeSeries(s.timestamps[1..], out, s.name + "_pctchange"));
  }

  /** Compounding each percentage change onto its base value gives the next value back. */
  lemma PctChangeInverse(xs: seq<real>, p: seq<real>, i: nat)
    requires |p| == |xs| - 1 && i < |p|
    requires forall k :: 0 <= k < |p| ==> xs[k] != 0.0 && p[k] == (xs[k + 1] - xs[k]) / xs[k]
    ensures xs[i] * (1.0 + p[i]) == xs[i + 1]
  {
    assert xs[i] * p[i] == xs[i + 1] - xs[i];
  }

  method RollingMean(s: TimeSeries, window: nat) returns (r: Result<TimeSeries>)
    requires s.Wf()
    ensures r.Ok? <==> 1 <= window <= s.Size()
    ensures r.Err? ==> r.error == InvalidArgument
    ensures r.Ok? ==> r.value.Wf() && r.value.timestamps == s.timestamps[window - 1..]
                      && r.value.name == s.name + "_rolling_mean"
    ensures r.Ok? ==> |r.value.values| == s.Size() - window + 1 && WindowMeans(r.value.values, s.values, window)
  {
    if window == 0 || window > |s.values| {
      return Err(InvalidArgument);
    }
    var vs := s.values;
    var out := [];
    var i := window - 1;
    while i < |vs|
      invariant window - 1 <= i <= |vs|
      invariant |out| == i - (window - 1)
      invariant WindowMeans(out, vs, window)
    {
      var first := i - window + 1;
      var sum := WindowSum(vs, first, i + 1);
      QuotientTimes(sum, window as real);
      MeansAppend(vs, window, out, sum / (window as real));
      out := out + [sum / (window as real)];
      i := i + 1;
    }
    r := Ok(TimeSeries(s.timestamps[window - 1..], out, s.name + "_rolling_mean"));
  }

  /** The inner accumulation loop of rollingMean. */
  method WindowSum(xs: seq<real>, first: nat, end: nat) returns (sum: real)
    requires first <= end <= |xs|
    ensures sum == Sum(xs[first..end])
  {
    sum := 0.0;
    var j := first;
    while j < end
      invariant first <= j <= end
      invariant sum == Sum(xs[first..j])
    {
      SumExtend(xs, first, j);
      sum := sum + xs[j];
      j := j + 1;
    }
  }

  /** Entry k times the window length is the sum of the window starting at k: each entry is that window's mean. */
  ghost predicate WindowMeans(out: seq<real>, xs: seq<real>, window: nat)
  {
    forall k :: 0 <= k < |out| ==> k + window <= |xs| && out[k] * (window as real) == Sum(xs[k..k + window])
  }

  /** Appending the mean of the next window keeps every entry the mean of its window. */
  lemma MeansAppend(xs: seq<real>, window: nat, out: seq<real>, m: real)
    requires |out| + window <= |xs| && WindowMeans(out, xs, window)
    requires m * (window as real) == Sum(xs[|out|..|out| + window])
    ensures WindowMeans(out + [m], xs, window)
  {
    forall k | 0 <= k < |out| + 1
      ensures k + window <= |xs| && (out + [m])[k] * (window as real) == Sum(xs[k..k + window])
    {
      if k < |out| {
        assert (out + [m])[k] == out[k];
      }
    }
  }

  lemma QuotientTimes(x: real, w: real)
    requires w > 0.0
    ensures (x / w) * w == x
  {
  }

  lemma SumExtend(xs: seq<real>, a: nat, j: nat)
    requires a <= j < |xs|
    ensures Sum(xs[a..j + 1]) == Sum(xs[a..j]) + xs[j]
  {
    assert xs[a..j + 1][..j - a] == xs[a..j];
  }

  /**
   * Consecutive rolling means differ by the value entering the window minus
   * the value leaving it, divided by the window length.
   */
  lemma RollingMeanSlides(xs: seq<real>, m: seq<real>, window: nat, k: nat)
    requires 1 <= window <= |xs| && |m| == |xs| - window + 1 && k + 1 < |m|
    requires WindowMeans(m, xs, window)
    ensures (m[k + 1] - m[k]) * (window as real) == xs[k + window] - xs[k]
  {
    WindowSlide(xs, k, window);
    ScaledDifference(m[k], m[k + 1], window as real, Sum(xs[k..k + window]), Sum(xs[k + 1..k + 1 + window]));
  }

  /** Sliding a window by one adds the entering value and drops the leaving one. */
  lemma WindowSlide(xs: seq<real>, k: nat, window: nat)
    requires 1 <= window && k + window < |xs|
    ensures Sum(xs[k + 1..k + 1 + window]) - Sum(xs[k..k + window]) == xs[k + window] - xs[k]
  {
    SumConcat([xs[k]], xs[k + 1..k + window]);
    SumConcat(xs[k + 1..k + window], [xs[k + window]]);
    assert xs[k..k + window] == [xs[k]] + xs[k + 1..k + window];
    assert xs[k + 1..k + 1 + window] == xs[k + 1..k + window] + [xs[k + window]];
    assert Sum([xs[k]]) == xs[k] by { assert [xs[k]][..0] == []; }
    assert Sum([xs[k + window]]) == xs[k + window] by { assert [xs[k + window]][..0] == []; }
  }

  lemma ScaledDifference(p: real, q: real, w: real, a: real, b: real)
    requires p * w == a && q * w == b
    ensures (q - p) * w == b - a
  {
  }
}
