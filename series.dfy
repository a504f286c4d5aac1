/**
 * Price series as the data manager of trading.data.manager sees them: OHLCV bars
 * indexed by timestamp, the validation every stored series passes, the latest
 * timestamp of a series, and the detection of gaps (maximal runs of missing
 * points of the interval's time grid) over a requested range.
 *
 * Timestamps are whole seconds since the epoch.
 */
module Series {
  import opened Wrappers

  /** One OHLCV record. */
  datatype Bar = Bar(time: int, open: real, high: real, low: real, close: real, volume: real)

  /** A data frame as callers hand it over: its column names, whether its index holds datetimes, and its rows. */
  datatype Frame = Frame(columns: set<string>, datetimeIndex: bool, bars: seq<Bar>)

  /** The ValueError cases. */
  datatype Error =
    | EmptySeries
    | MissingColumns(missing: set<string>)
    | NonTemporalIndex
    | UnknownInterval(interval: string)

  /** A gap: the first and the last missing grid point of one run, both included. */
  datatype Gap = Gap(first: int, last: int)

  const RequiredColumns: set<string> := {"open", "high", "low", "close", "volume"}

  /**
   * The checks save_data and update_data apply to their input: not empty, every
   * OHLCV column present, a datetime index. None when the frame passes.
   */
  function Validate(f: Frame): (r: Option<Error>)
    ensures r.None? <==> |f.bars| > 0 && RequiredColumns <= f.columns && f.datetimeIndex
    ensures r == Some(EmptySeries) ==> |f.bars| == 0
    ensures r.Some? && r.value.MissingColumns? ==> r.value.missing == RequiredColumns - f.columns != {}
    ensures r == Some(NonTemporalIndex) ==> !f.datetimeIndex
    ensures r.Some? ==> !r.value.UnknownInterval?
  {
    if |f.bars| == 0 then Some(EmptySeries)
    else if !(RequiredColumns <= f.columns) then
      NotSubsetLeavesSome(RequiredColumns, f.columns);
      Some(MissingColumns(RequiredColumns - f.columns))
    else if !f.datetimeIndex then Some(NonTemporalIndex)
    else None
  }

  lemma NotSubsetLeavesSome(a: set<string>, b: set<string>)
    requires !(a <= b)
    ensures a - b != {}
  {
    var c :| c in a && c !in b;
    assert c in a - b;
  }

  predicate Valid(f: Frame) {
    Validate(f).None?
  }

  /** The bar length of each recognised interval, in seconds. */
  function IntervalSeconds(interval: string): (r: Option<int>)
    ensures r.Some? <==> interval in {"1m", "5m", "15m", "1h", "1d"}
    ensures r.Some? ==> r.value > 0
    ensures interval == "1d" ==> r == Some(86400)
  {
    match interval
    case "1m" => Some(60)
    case "5m" => Some(300)
    case "15m" => Some(900)
    case "1h" => Some(3600)
    case "1d" => Some(86400)
    case _ => None
  }

  function Times(bars: seq<Bar>): set<int> {
    set b | b in bars :: b.time
  }

  /** get_latest_data on a stored series: its greatest timestamp. */
  function Latest(bars: seq<Bar>): (t: int)
    requires |bars| > 0
    ensures t in Times(bars)
    ensures forall i :: 0 <= i < |bars| ==> bars[i].time <= t
    decreases |bars|
  {
    if |bars| == 1 then bars[0].time
    else
      var rest := Latest(bars[1..]);
      assert forall i :: 1 <= i < |bars| ==> bars[i] == bars[1..][i - 1];
      if bars[0].time >= rest then bars[0].time else rest
  }

  predicate Increasing(g: seq<int>) {
    forall i, j :: 0 <= i < j < |g| ==> g[i] < g[j]
  }

  /** A point of the interval grid over [start, end]. */
  predicate OnGrid(t: int, start: int, end: int, step: int)
    requires step > 0
  {
    start <= t <= end && (t - start) % step == 0
  }

  /** The expected timestamps: start, start + step, ... up to end. */
  function Grid(start: int, end: int, step: int): (g: seq<int>)
    requires step > 0
    ensures Increasing(g)
    ensures forall i :: 0 <= i < |g| ==> OnGrid(g[i], start, end, step)
    ensures start <= end ==> |g| > 0 && g[0] == start
    decreases end - start
  {
    if start > end then []
    else
      var rest := Grid(start + step, end, step);
      assert forall i :: 0 <= i < |rest| ==> OnGrid(rest[i], start, end, step) by {
        forall i | 0 <= i < |rest| ensures OnGrid(rest[i], start, end, step) {
          ShiftMod(rest[i] - (start + step), step);
        }
      }
      [start] + rest
  }

  lemma MulAtLeast(d: int, n: int)
    requires d > 0 && n >= 1
    ensures d * n >= d
  {
  }

  /** Euclidean division is unique: a remainder in [0, d) with a matching quotient is the remainder. */
  lemma DivModUnique(a: int, d: int, q: int, m: int)
    requires d > 0 && a == d * q + m && 0 <= m < d
    ensures a % d == m
  {
    var q', m' := a / d, a % d;
    assert a == d * q' + m';
    assert d * q - d * q' == m' - m;
    assert d * (q - q') == m' - m;
    if q > q' {
      MulAtLeast(d, q - q');
    } else if q < q' {
      MulAtLeast(d, q' - q);
    }
  }

  lemma ShiftMod(x: int, step: int)
    requires step > 0
    ensures (x + step) % step == x % step
  {
    var q, m := x / step, x % step;
    assert x == step * q + m;
    assert x + step == step * (q + 1) + m;
    DivModUnique(x + step, step, q + 1, m);
  }

  /** A positive multiple of the step is at least the step. */
  lemma MultipleAtLeastStep(x: int, step: int)
    requires step > 0 && x > 0 && x % step == 0
    ensures x >= step
  {
    assert x == step * (x / step);
    assert x / step >= 1;
    MulAtLeast(step, x / step);
  }

  /** Every point of the range that lies on the interval grid is in the grid. */
  lemma {:induction false} GridComplete(start: int, end: int, step: int, t: int)
    requires step > 0 && OnGrid(t, start, end, step)
    ensures t in Grid(start, end, step)
    decreases end - start
  {
    if t != start {
      ShiftMod(t - (start + step), step);
      MultipleAtLeastStep(t - start, step);
      GridComplete(start + step, end, step, t);
    }
  }

  /** A point of an increasing sequence other than its head is in its tail, and every point of the tail is above the head. */
  lemma InTail(g: seq<int>, t: int)
    requires Increasing(g) && |g| > 0
    ensures t in g && t != g[0] ==> t in g[1..]
    ensures t in g[1..] ==> t in g && t > g[0]
  {
    if t in g && t != g[0] {
      var i :| 0 <= i < |g| && g[i] == t;
      assert g[1..][i - 1] == t;
    }
    if t in g[1..] {
      var i :| 0 <= i < |g| - 1 && g[1..][i] == t;
      assert g[i + 1] == t;
    }
  }

  /**
   * The maximal runs of points of `g` that are not in `present`, in order, each as
   * its first and last point.
   */
  function Runs(g: seq<int>, present: set<int>): (r: seq<Gap>)
    ensures |g| > 0 && g[0] !in present ==> |r| > 0 && r[0].first == g[0]
    decreases |g|
  {
    if g == [] then []
    else
      var rest := Runs(g[1..], present);
      if g[0] in present then rest
      else if |g| > 1 && g[1] !in present then [Gap(g[0], rest[0].last)] + rest[1..]
      else [Gap(g[0], g[0])] + rest
  }

  /** Each gap starts and ends at a missing point of `g`, its start no later than its end. */
  lemma {:induction false} RunsEnds(g: seq<int>, present: set<int>, k: nat)
    requires Increasing(g) && k < |Runs(g, present)|
    ensures Runs(g, present)[k].first in g && Runs(g, present)[k].first !in present
    ensures Runs(g, present)[k].last in g && Runs(g, present)[k].last !in present
    ensures Runs(g, present)[k].first <= Runs(g, present)[k].last
    decreases |g|
  {
    var r := Runs(g, present);
    var rest := Runs(g[1..], present);
    if g[0] in present {
      RunsEnds(g[1..], present, k);
      InTail(g, r[k].first);
      InTail(g, r[k].last);
    } else if |g| > 1 && g[1] !in present {
      RunsEnds(g[1..], present, k);
      InTail(g, rest[k].first);
      InTail(g, rest[k].last);
    } else if k > 0 {
      RunsEnds(g[1..], present, k - 1);
      InTail(g, rest[k - 1].first);
      InTail(g, rest[k - 1].last);
    }
  }

  /** Every point of `g` inside a reported gap is missing. */
  lemma {:induction false} RunsMissing(g: seq<int>, present: set<int>, k: nat, t: int)
    requires Increasing(g) && k < |Runs(g, present)|
    requires t in g && Runs(g, present)[k].first <= t <= Runs(g, present)[k].last
    ensures t !in present
    decreases |g|
  {
    var rest := Runs(g[1..], present);
    if g[0] in present {
      RunsEnds(g[1..], present, k);
      InTail(g, rest[k].first);
      InTail(g, t);
      RunsMissing(g[1..], present, k, t);
    } else if t != g[0] {
      InTail(g, t);
      if |g| > 1 && g[1] !in present {
        if k == 0 {
          InTail(g, rest[0].first);
          assert rest[0].first == g[1];
          assert g[1] <= t by {
            var i :| 0 <= i < |g| && g[i] == t;
          }
        }
        RunsMissing(g[1..], present, k, t);
      } else if k > 0 {
        RunsMissing(g[1..], present, k - 1, t);
      }
    }
  }

  /** Every missing point of `g` lies in a reported gap. */
  lemma {:induction false} RunsCover(g: seq<int>, present: set<int>, t: int)
    requires Increasing(g) && t in g && t !in present
    ensures exists k :: 0 <= k < |Runs(g, present)| && Runs(g, present)[k].first <= t <= Runs(g, present)[k].last
    decreases |g|
  {
    var r := Runs(g, present);
    if t == g[0] {
      RunsEnds(g, present, 0);
      assert r[0].first <= t <= r[0].last;
    } else {
      InTail(g, t);
      RunsCover(g[1..], present, t);
      var rest := Runs(g[1..], present);
      var k :| 0 <= k < |rest| && rest[k].first <= t <= rest[k].last;
      if g[0] in present {
        assert r[k] == rest[k];
      } else if |g| > 1 && g[1] !in present {
        if k == 0 {
          assert r[0].first <= t <= r[0].last;
        } else {
          assert r[k] == rest[k];
        }
      } else {
        assert r[k + 1] == rest[k];
      }
    }
  }

  /** Between two consecutive gaps lies a present point of `g`: the gaps are maximal and in order. */
  lemma {:induction false} RunsSeparated(g: seq<int>, present: set<int>, k: nat)
    requires Increasing(g) && k + 1 < |Runs(g, present)|
    ensures exists t :: t in g && t in present && Runs(g, present)[k].last < t < Runs(g, present)[k + 1].first
    decreases |g|
  {
    if g[0] !in present && |g| > 1 && g[1] in present && k == 0 {
      RunsSeparated0(g, present);
    } else {
      var rest := Runs(g[1..], present);
      var j := RunsStep(g, present, k);
      RunsSeparated(g[1..], present, j);
      var t :| t in g[1..] && t in present && rest[j].last < t < rest[j + 1].first;
      InTail(g, t);
      assert t in g && t in present && Runs(g, present)[k].last < t < Runs(g, present)[k + 1].first;
    }
  }

  /** Outside the case of RunsSeparated0, two consecutive gaps of `g` end and start as two consecutive gaps of its tail. */
  lemma RunsStep(g: seq<int>, present: set<int>, k: nat) returns (j: nat)
    requires k + 1 < |Runs(g, present)|
    requires !(g[0] !in present && |g| > 1 && g[1] in present && k == 0)
    ensures j + 1 < |Runs(g[1..], present)|
    ensures Runs(g, present)[k].last == Runs(g[1..], present)[j].last
    ensures Runs(g, present)[k + 1] == Runs(g[1..], present)[j + 1]
  {
    var r := Runs(g, present);
    var rest := Runs(g[1..], present);
    if g[0] in present {
      j := k;
    } else if |g| > 1 && g[1] !in present {
      j := k;
      assert r == [Gap(g[0], rest[0].last)] + rest[1..];
    } else {
      j := k - 1;
      assert r == [Gap(g[0], g[0])] + rest;
    }
  }

  /** The case of RunsSeparated where a single missing point is followed by a present one. */
  lemma RunsSeparated0(g: seq<int>, present: set<int>)
    requires Increasing(g) && |g| > 1 && g[0] !in present && g[1] in present
    requires 1 < |Runs(g, present)|
    ensures g[1] in g && g[1] in present && Runs(g, present)[0].last < g[1] < Runs(g, present)[1].first
  {
    var r := Runs(g, present);
    var rest := Runs(g[1..], present);
    assert r == [Gap(g[0], g[0])] + rest;
    RunsEnds(g[1..], present, 0);
    var f := rest[0].first;
    InTail(g, f);
    var i :| 0 <= i < |g[1..]| && g[1..][i] == f;
    assert i > 0;
    assert g[1] < f;
  }

  /** No gap is reported exactly when every point of `g` is present. */
  lemma {:induction false} RunsEmpty(g: seq<int>, present: set<int>)
    requires Increasing(g)
    ensures Runs(g, present) == [] <==> forall t :: t in g ==> t in present
    decreases |g|
  {
    var r := Runs(g, present);
    if r != [] {
      RunsEnds(g, present, 0);
    } else if g != [] {
      RunsEmpty(g[1..], present);
      forall t | t in g ensures t in present {
        InTail(g, t);
      }
    }
  }

  /** get_data_gaps on stored data: the runs of missing points of the interval grid over [start, end]. */
  function Gaps(present: set<int>, start: int, end: int, step: int): seq<Gap>
    requires step > 0
  {
    Runs(Grid(start, end, step), present)
  }

  /** A gap runs from a missing grid point to a missing grid point, with only missing grid points between. */
  lemma GapsAreMissingRuns(present: set<int>, start: int, end: int, step: int, k: nat)
    requires step > 0 && k < |Gaps(present, start, end, step)|
    ensures var gap := Gaps(present, start, end, step)[k];
      OnGrid(gap.first, start, end, step) && gap.first !in present &&
      OnGrid(gap.last, start, end, step) && gap.last !in present &&
      gap.first <= gap.last &&
      forall t :: OnGrid(t, start, end, step) && gap.first <= t <= gap.last ==> t !in present
  {
    var g := Grid(start, end, step);
    var gap := Runs(g, present)[k];
    RunsEnds(g, present, k);
    forall t | OnGrid(t, start, end, step) && gap.first <= t <= gap.last
      ensures t !in present
    {
      GridComplete(start, end, step, t);
      RunsMissing(g, present, k, t);
    }
  }

  /** Every missing grid point of the range lies in a reported gap. */
  lemma GapsCoverMissing(present: set<int>, start: int, end: int, step: int, t: int)
    requires step > 0 && OnGrid(t, start, end, step) && t !in present
    ensures exists k :: (0 <= k < |Gaps(present, start, end, step)| &&
      Gaps(present, start, end, step)[k].first <= t <= Gaps(present, start, end, step)[k].last)
  {
    var g := Grid(start, end, step);
    var r := Runs(g, present);
    GridComplete(start, end, step, t);
    RunsCover(g, present, t);
    var k :| 0 <= k < |r| && r[k].first <= t <= r[k].last;
    assert Gaps(present, start, end, step) == r;
  }

  /** Consecutive gaps are separated by a present grid point, so each gap is a maximal run. */
  lemma GapsSeparated(present: set<int>, start: int, end: int, step: int, k: nat)
    requires step > 0 && k + 1 < |Gaps(present, start, end, step)|
    ensures exists t :: (OnGrid(t, start, end, step) && t in present &&
      Gaps(present, start, end, step)[k].last < t < Gaps(present, start, end, step)[k + 1].first)
  {
    var g := Grid(start, end, step);
    var r := Runs(g, present);
    RunsSeparated(g, present, k);
    var t :| t in g && t in present && r[k].last < t < r[k + 1].first;
    assert OnGrid(t, start, end, step);
  }

  /** No gap is reported exactly when every grid point of the range is present. */
  lemma NoGapsIffComplete(present: set<int>, start: int, end: int, step: int)
    requires step > 0
    ensures Gaps(present, start, end, step) == [] <==> forall t :: OnGrid(t, start, end, step) ==> t in present
  {
    var g := Grid(start, end, step);
    RunsEmpty(g, present);
    forall t | OnGrid(t, start, end, step) ensures t in g {
      GridComplete(start, end, step, t);
    }
  }
}
