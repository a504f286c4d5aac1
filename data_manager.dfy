/**
 * The DataManager of trading.data.manager: a durable store of OHLCV series keyed
 * by (symbol, interval), a time-to-live cache beside it, and the read-only
 * queries (load, latest timestamp, gaps) over the store.
 *
 * The clock is the explicit parameter `now` (seconds, a real so that fractions
 * of a second count). How update_data resolves a timestamp present in both the
 * stored and the new series, and whether an entry is still fresh when exactly
 * `ttl` seconds have passed, are not fixed by the system's observable behaviour:
 * both are chosen when the manager is constructed.
 */
module DataStore {
  import opened Wrappers
  import opened Series

  /** The storage and cache slot of one series. */
  datatype Key = Key(symbol: string, interval: string)

  /** A cached snapshot, the time it was cached and its time to live, in seconds. */
  datatype CacheEntry = CacheEntry(frame: Frame, insertedAt: real, ttl: real)

  /** The resolution of a timestamp present in both the stored and the new series. */
  datatype OverlapRule = NewWins | OldWins | KeepBoth

  /**
   * Whether a cache entry may still be returned at `now`. With `strictExpiry` the
   * entry expires when `ttl` seconds have passed; otherwise only after that.
   */
  predicate Fresh(e: CacheEntry, now: real, strictExpiry: bool) {
    if strictExpiry then now - e.insertedAt < e.ttl else now - e.insertedAt <= e.ttl
  }

  /** Under either boundary, an entry read at once is fresh and an entry read after its ttl is not. */
  lemma FreshBounds(e: CacheEntry, now: real, strictExpiry: bool)
    requires e.ttl > 0.0
    ensures now == e.insertedAt ==> Fresh(e, now, strictExpiry)
    ensures now - e.insertedAt > e.ttl ==> !Fresh(e, now, strictExpiry)
    ensures now - e.insertedAt < e.ttl ==> Fresh(e, now, strictExpiry)
  {
  }

  /** The bars of `bars` whose timestamp is not in `times`, in their order. */
  function Without(bars: seq<Bar>, times: set<int>): (r: seq<Bar>)
    ensures forall b :: b in r <==> b in bars && b.time !in times
    ensures |r| <= |bars|
    decreases |bars|
  {
    if bars == [] then []
    else if bars[0].time in times then Without(bars[1..], times)
    else
      assert forall b :: b in bars <==> b == bars[0] || b in bars[1..];
      [bars[0]] + Without(bars[1..], times)
  }

  /** Removing timestamps that no bar carries removes nothing. */
  lemma {:induction false} WithoutNothing(bars: seq<Bar>, times: set<int>)
    requires forall i :: 0 <= i < |bars| ==> bars[i].time !in times
    ensures Without(bars, times) == bars
    decreases |bars|
  {
    if bars != [] {
      WithoutNothing(bars[1..], times);
    }
  }

  lemma TimesWithout(bars: seq<Bar>, times: set<int>)
    ensures Times(Without(bars, times)) == Times(bars) - times
  {
    var w := Without(bars, times);
    forall t | t in Times(bars) - times ensures t in Times(w) {
      var b :| b in bars && b.time == t;
      assert b in w;
    }
  }

  lemma TimesAppend(a: seq<Bar>, b: seq<Bar>)
    ensures Times(a + b) == Times(a) + Times(b)
  {
    assert forall x :: x in a + b <==> x in a || x in b;
  }

  /** The bars of update_data: the stored series followed by the incoming one, overlaps resolved by `rule`. */
  function MergeBars(stored: seq<Bar>, incoming: seq<Bar>, rule: OverlapRule): seq<Bar> {
    match rule
    case NewWins => Without(stored, Times(incoming)) + incoming
    case OldWins => stored + Without(incoming, Times(stored))
    case KeepBoth => stored + incoming
  }

  /** Whatever the overlap rule, the merged series holds exactly the timestamps of both. */
  lemma MergeTimes(stored: seq<Bar>, incoming: seq<Bar>, rule: OverlapRule)
    ensures Times(MergeBars(stored, incoming, rule)) == Times(stored) + Times(incoming)
  {
    match rule
    case NewWins =>
      TimesAppend(Without(stored, Times(incoming)), incoming);
      TimesWithout(stored, Times(incoming));
    case OldWins =>
      TimesAppend(stored, Without(incoming, Times(stored)));
      TimesWithout(incoming, Times(stored));
    case KeepBoth =>
      TimesAppend(stored, incoming);
  }

  /** With incoming values winning, every incoming bar is kept and a stored bar is kept exactly when its timestamp is not renewed. */
  lemma NewWinsKeeps(stored: seq<Bar>, incoming: seq<Bar>)
    ensures forall b :: b in incoming ==> b in MergeBars(stored, incoming, NewWins)
    ensures forall b :: b in stored ==> (b in MergeBars(stored, incoming, NewWins) <==> b.time !in Times(incoming) || b in incoming)
  {
    var w := Without(stored, Times(incoming));
    assert forall b :: b in w + incoming <==> b in w || b in incoming;
  }

  /** When every incoming timestamp follows every stored one, update_data appends, whatever the overlap rule. */
  lemma MergeAppendsLater(stored: seq<Bar>, incoming: seq<Bar>, rule: OverlapRule)
    requires forall i, j :: 0 <= i < |stored| && 0 <= j < |incoming| ==> stored[i].time < incoming[j].time
    ensures MergeBars(stored, incoming, rule) == stored + incoming
  {
    assert forall i :: 0 <= i < |stored| ==> stored[i].time !in Times(incoming);
    assert forall j :: 0 <= j < |incoming| ==> incoming[j].time !in Times(stored);
    WithoutNothing(stored, Times(incoming));
    WithoutNothing(incoming, Times(stored));
  }

  /** The series update_data stores: columns of both, bars merged. */
  function Combine(stored: Frame, incoming: Frame, rule: OverlapRule): Frame {
    Frame(stored.columns + incoming.columns, stored.datetimeIndex && incoming.datetimeIndex, MergeBars(stored.bars, incoming.bars, rule))
  }

  /** Merging two valid series gives a valid series. */
  lemma CombineValid(stored: Frame, incoming: Frame, rule: OverlapRule)
    requires Series.Valid(stored) && Series.Valid(incoming)
    ensures Series.Valid(Combine(stored, incoming, rule))
  {
    match rule
    case NewWins =>
      assert |MergeBars(stored.bars, incoming.bars, rule)| >= |incoming.bars|;
    case OldWins =>
      assert |MergeBars(stored.bars, incoming.bars, rule)| >= |stored.bars|;
    case KeepBoth =>
  }

  class DataManager {
    /** The durable store: one series per key. */
    var store: map<Key, Frame>
    /** The cache: at most one snapshot per key. */
    var cache: map<Key, CacheEntry>
    const overlap: OverlapRule
    const strictExpiry: bool

    /** Every stored series passed validation and every cached entry has a positive ttl. */
    ghost predicate Valid()
      reads this
    {
      (forall k :: k in store ==> Series.Valid(store[k])) &&
      (forall k :: k in cache ==> cache[k].ttl > 0.0)
    }

    constructor(overlap: OverlapRule, strictExpiry: bool)
      ensures Valid()
      ensures store == map[] && cache == map[]
      ensures this.overlap == overlap && this.strictExpiry == strictExpiry
    {
      store := map[];
      cache := map[];
      this.overlap := overlap;
      this.strictExpiry := strictExpiry;
    }

    /** save_data: a valid series replaces the slot of its key; an invalid one is refused and nothing changes. */
    method SaveData(f: Frame, symbol: string, interval: string) returns (err: Option<Error>)
      requires Valid()
      modifies this
      ensures Valid()
      ensures err == Validate(f)
      ensures err.None? ==> store == old(store)[Key(symbol, interval) := f]
      ensures err.Some? ==> store == old(store)
      ensures cache == old(cache)
    {
      err := Validate(f);
      if err.None? {
        store := store[Key(symbol, interval) := f];
      }
    }

    /** load_data: the stored series of the key, absent when none was saved. */
    function LoadData(symbol: string, interval: string): (r: Option<Frame>)
      reads this
      ensures r.Some? <==> Key(symbol, interval) in store
      ensures r.Some? ==> r.value == store[Key(symbol, interval)]
    {
      var k := Key(symbol, interval);
      if k in store then Some(store[k]) else None
    }

    /**
     * update_data: a valid series is merged into the stored one (or stored as it
     * is when the key has none); an invalid one is refused and nothing changes.
     */
    method UpdateData(f: Frame, symbol: string, interval: string) returns (err: Option<Error>)
      requires Valid()
      modifies this
      ensures Valid()
      ensures err == Validate(f)
      ensures err.None? && Key(symbol, interval) in old(store) ==>
        store == old(store)[Key(symbol, interval) := Combine(old(store)[Key(symbol, interval)], f, overlap)]
      ensures err.None? && Key(symbol, interval) !in old(store) ==> store == old(store)[Key(symbol, interval) := f]
      ensures err.Some? ==> store == old(store)
      ensures cache == old(cache)
    {
      err := Validate(f);
      if err.None? {
        var k := Key(symbol, interval);
        if k in store {
          CombineValid(store[k], f, overlap);
          store := store[k := Combine(store[k], f, overlap)];
        } else {
          store := store[k := f];
        }
      }
    }

    /** cache_data: a snapshot of the series replaces the key's cache slot, stamped with `now` and `ttl`. */
    method CacheData(f: Frame, symbol: string, interval: string, ttl: real, now: real)
      requires Valid() && ttl > 0.0
      modifies this
      ensures Valid()
      ensures cache == old(cache)[Key(symbol, interval) := CacheEntry(f, now, ttl)]
      ensures store == old(store)
    {
      cache := cache[Key(symbol, interval) := CacheEntry(f, now, ttl)];
    }

    /**
     * get_cached_data: the cached snapshot while it is fresh; absent when there
     * is none or it has expired, in which case the stale entry is dropped.
     */
    method GetCachedData(symbol: string, interval: string, now: real) returns (r: Option<Frame>)
      requires Valid()
      modifies this
      ensures Valid()
      ensures r.Some? <==> Key(symbol, interval) in old(cache) && Fresh(old(cache)[Key(symbol, interval)], now, strictExpiry)
      ensures r.Some? ==> r.value == old(cache)[Key(symbol, interval)].frame
      ensures r.None? ==> cache == old(cache) - {Key(symbol, interval)}
      ensures r.Some? ==> cache == old(cache)
      ensures store == old(store)
    {
      var k := Key(symbol, interval);
      if k in cache && Fresh(cache[k], now, strictExpiry) {
        r := Some(cache[k].frame);
      } else {
        r := None;
        cache := cache - {k};
      }
    }

    /** get_latest_data: the greatest timestamp of the stored series, absent when the key has none. */
    function GetLatestData(symbol: string, interval: string): (r: Option<int>)
      requires Valid()
      reads this
      ensures r.None? <==> Key(symbol, interval) !in store
      ensures r.Some? ==> r.value in Times(store[Key(symbol, interval)].bars)
      ensures r.Some? ==> forall b :: b in store[Key(symbol, interval)].bars ==> b.time <= r.value
    {
      var k := Key(symbol, interval);
      if k in store then Some(Latest(store[k].bars)) else None
    }

    /**
     * get_data_gaps: an unknown interval is refused; without stored data the
     * whole range is one gap; otherwise the gaps of the stored timestamps on the
     * interval's grid over [start, end].
     */
    function GetDataGaps(symbol: string, interval: string, start: int, end: int): (r: Result<seq<Gap>, Error>)
      reads this
      ensures r.Failure? <==> IntervalSeconds(interval).None?
      ensures r.Failure? ==> r.error == UnknownInterval(interval)
      ensures r.Success? && Key(symbol, interval) !in store ==> r.value == [Gap(start, end)]
      ensures r.Success? && Key(symbol, interval) in store ==>
        r.value == Gaps(Times(store[Key(symbol, interval)].bars), start, end, IntervalSeconds(interval).value)
    {
      var step :- match IntervalSeconds(interval) {
        case None => Failure(UnknownInterval(interval))
        case Some(s) => Success(s)
      };
      var k := Key(symbol, interval);
      if k !in store then Success([Gap(start, end)])
      else Success(Gaps(Times(store[k].bars), start, end, step))
    }
  }
}
