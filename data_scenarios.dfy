/**
 * The observable behaviour of the DataManager, one method per behaviour: each
 * builds a fresh manager, as a caller starting from empty storage would, runs
 * the calls in order and states what they return. Each holds for every overlap
 * rule and either expiry boundary.
 */
module DataScenarios {
  import opened Wrappers
  import opened Series
  import opened DataStore

  /** 2024-01-01 00:00 UTC and one day, in seconds. */
  const Jan1: int := 1704067200
  const OneDay: int := 86400

  function DailyBar(t: int): Bar {
    Bar(t, 100.0, 105.0, 95.0, 102.0, 1000.0)
  }

  /** Daily bars for 2024-01-01 .. 2024-01-10 without 2024-01-03 and 2024-01-04. */
  function DaysWithGap(): seq<Bar> {
    [DailyBar(1704067200), DailyBar(1704153600), DailyBar(1704412800), DailyBar(1704499200),
     DailyBar(1704585600), DailyBar(1704672000), DailyBar(1704758400), DailyBar(1704844800)]
  }

  lemma DaysWithGapTimes()
    ensures Times(DaysWithGap()) == {1704067200, 1704153600, 1704412800, 1704499200, 1704585600, 1704672000, 1704758400, 1704844800}
  {
    var bars := DaysWithGap();
    forall t | t in {1704067200, 1704153600, 1704412800, 1704499200, 1704585600, 1704672000, 1704758400, 1704844800}
      ensures t in Times(bars)
    {
      assert DailyBar(t) in bars;
    }
  }

  /** Over 2024-01-01 .. 2024-01-10 with the 3rd and 4th missing there is one gap, from the 3rd to the 4th. */
  lemma JanuaryGaps()
    ensures Gaps(Times(DaysWithGap()), Jan1, Jan1 + 9 * OneDay, OneDay) == [Gap(Jan1 + 2 * OneDay, Jan1 + 3 * OneDay)]
  {
    DaysWithGapTimes();
    JanuaryGrid();
  }

  lemma JanuaryGrid()
    ensures Gaps({1704067200, 1704153600, 1704412800, 1704499200, 1704585600, 1704672000, 1704758400, 1704844800}, 1704067200, 1704844800, 86400)
      == [Gap(1704240000, 1704326400)]
  {
    var present := {1704067200, 1704153600, 1704412800, 1704499200, 1704585600, 1704672000, 1704758400, 1704844800};
    var g := [1704067200, 1704153600, 1704240000, 1704326400, 1704412800, 1704499200, 1704585600, 1704672000, 1704758400, 1704844800];
    JanuaryDays();
    assert Runs(g[4..], present) == [] by {
      assert Runs(g[10..], present) == [];
      assert Runs(g[9..], present) == [];
      assert Runs(g[8..], present) == [];
      assert Runs(g[7..], present) == [];
      assert Runs(g[6..], present) == [];
      assert Runs(g[5..], present) == [];
    }
    assert Runs(g[3..], present) == [Gap(1704326400, 1704326400)];
    assert Runs(g[2..], present) == [Gap(1704240000, 1704326400)];
    assert Runs(g[1..], present) == [Gap(1704240000, 1704326400)];
    assert Runs(g, present) == [Gap(1704240000, 1704326400)];
  }

  /** The daily grid over 2024-01-01 .. 2024-01-10. */
  lemma JanuaryDays()
    ensures Grid(1704067200, 1704844800, 86400) ==
      [1704067200, 1704153600, 1704240000, 1704326400, 1704412800, 1704499200, 1704585600, 1704672000, 1704758400, 1704844800]
  {
    var g := [1704067200, 1704153600, 1704240000, 1704326400, 1704412800, 1704499200, 1704585600, 1704672000, 1704758400, 1704844800];
    assert Grid(1704844800 + 86400, 1704844800, 86400) == [];
    assert Grid(1704844800, 1704844800, 86400) == g[9..];
    assert Grid(1704758400, 1704844800, 86400) == g[8..];
    assert Grid(1704672000, 1704844800, 86400) == g[7..];
    assert Grid(1704585600, 1704844800, 86400) == g[6..];
    assert Grid(1704499200, 1704844800, 86400) == g[5..];
    assert Grid(1704412800, 1704844800, 86400) == g[4..];
    assert Grid(1704326400, 1704844800, 86400) == g[3..];
    assert Grid(1704240000, 1704844800, 86400) == g[2..];
    assert Grid(1704153600, 1704844800, 86400) == g[1..];
    assert Grid(1704067200, 1704844800, 86400) == g;
  }

  /** A saved series loads back unchanged. */
  method SaveThenLoad(f: Frame, symbol: string, interval: string, overlap: OverlapRule, strictExpiry: bool)
    returns (loaded: Option<Frame>)
    requires Series.Valid(f)
    ensures loaded == Some(f)
  {
    var dm := new DataManager(overlap, strictExpiry);
    var _ := dm.SaveData(f, symbol, interval);
    loaded := dm.LoadData(symbol, interval);
  }

  /** Updating with a series that starts after the stored one ends stores the two one after the other. */
  method SaveThenUpdate(first: Frame, second: Frame, symbol: string, interval: string, overlap: OverlapRule, strictExpiry: bool)
    returns (loaded: Option<Frame>)
    requires Series.Valid(first) && Series.Valid(second) && first.columns == second.columns
    requires forall i, j :: 0 <= i < |first.bars| && 0 <= j < |second.bars| ==> first.bars[i].time < second.bars[j].time
    ensures loaded == Some(Frame(first.columns, true, first.bars + second.bars))
  {
    var dm := new DataManager(overlap, strictExpiry);
    var _ := dm.SaveData(first, symbol, interval);
    var _ := dm.UpdateData(second, symbol, interval);
    MergeAppendsLater(first.bars, second.bars, overlap);
    assert Combine(first, second, overlap) == Frame(first.columns, true, first.bars + second.bars);
    loaded := dm.LoadData(symbol, interval);
  }

  /** A cached series is returned when read at once and is absent once more than its ttl has passed. */
  method CacheThenExpire(f: Frame, symbol: string, interval: string, ttl: real, cachedAt: real, waited: real,
                         overlap: OverlapRule, strictExpiry: bool)
    returns (atOnce: Option<Frame>, expired: Option<Frame>)
    requires ttl > 0.0 && waited > ttl
    ensures atOnce == Some(f)
    ensures expired == None
  {
    var dm := new DataManager(overlap, strictExpiry);
    dm.CacheData(f, symbol, interval, ttl, cachedAt);
    atOnce := dm.GetCachedData(symbol, interval, cachedAt);
    FreshBounds(CacheEntry(f, cachedAt, ttl), cachedAt + waited, strictExpiry);
    expired := dm.GetCachedData(symbol, interval, cachedAt + waited);
  }

  /** The latest timestamp of a saved series is its greatest; an unsaved key has none. */
  method SaveThenLatest(f: Frame, symbol: string, other: string, interval: string, overlap: OverlapRule, strictExpiry: bool)
    returns (latest: Option<int>, missing: Option<int>)
    requires Series.Valid(f) && other != symbol
    ensures latest.Some? && latest.value in Times(f.bars)
    ensures forall b :: b in f.bars ==> b.time <= latest.value
    ensures missing == None
  {
    var dm := new DataManager(overlap, strictExpiry);
    var _ := dm.SaveData(f, symbol, interval);
    latest := dm.GetLatestData(symbol, interval);
    missing := dm.GetLatestData(other, interval);
  }

  /**
   * Gaps of the daily series with two days removed: an unknown interval is
   * refused, the stored series has the one gap of the two removed days, and a
   * symbol without data is one gap over the whole range.
   */
  method GapsOfDailySeries(overlap: OverlapRule, strictExpiry: bool)
    returns (refused: Result<seq<Gap>, Error>, gaps: Result<seq<Gap>, Error>, unknown: Result<seq<Gap>, Error>)
    ensures refused == Failure(UnknownInterval("invalid"))
    ensures gaps == Success([Gap(Jan1 + 2 * OneDay, Jan1 + 3 * OneDay)])
    ensures unknown == Success([Gap(Jan1, Jan1 + 9 * OneDay)])
  {
    var dm := new DataManager(overlap, strictExpiry);
    refused := dm.GetDataGaps("AAPL", "invalid", Jan1, Jan1 + 9 * OneDay);
    var _ := dm.SaveData(Frame(RequiredColumns, true, DaysWithGap()), "AAPL", "1d");
    JanuaryGaps();
    gaps := dm.GetDataGaps("AAPL", "1d", Jan1, Jan1 + 9 * OneDay);
    unknown := dm.GetDataGaps("NONEXISTENT", "1d", Jan1, Jan1 + 9 * OneDay);
  }

  /**
   * save_data refuses an empty frame, a frame with only an open column and a
   * frame with an integer index, and the store stays empty.
   */
  method InvalidSaves(overlap: OverlapRule, strictExpiry: bool)
    returns (empty: Option<Error>, columns: Option<Error>, index: Option<Error>, loaded: Option<Frame>)
    ensures empty == Some(EmptySeries)
    ensures columns == Some(MissingColumns({"high", "low", "close", "volume"}))
    ensures index == Some(NonTemporalIndex)
    ensures loaded == None
  {
    var dm := new DataManager(overlap, strictExpiry);
    empty := dm.SaveData(Frame({}, false, []), "AAPL", "1d");
    assert RequiredColumns - {"open"} == {"high", "low", "close", "volume"};
    columns := dm.SaveData(Frame({"open"}, false, [Bar(0, 100.0, 0.0, 0.0, 0.0, 0.0)]), "AAPL", "1d");
    index := dm.SaveData(Frame(RequiredColumns, false, [Bar(0, 100.0, 105.0, 95.0, 102.0, 1000.0)]), "AAPL", "1d");
    loaded := dm.LoadData("AAPL", "1d");
  }
}
