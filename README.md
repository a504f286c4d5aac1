# Trading research scaffold: time-series data manager and configuration trees

This project models the parts of the `omarinho/trading` repository that carry real rules, and proves properties about them. Those parts are the time-series **DataManager** and the **configuration trees** that the rest of the system reads.

**The DataManager.** Its behaviour is fixed by `tests/test_data_manager.py`. It keeps OHLCV price series (open, high, low, close, volume, indexed by timestamp) keyed by symbol and interval. It provides:

- `save_data`, `load_data`, and an appending `update_data`;
- a time-to-live cache: `cache_data` and `get_cached_data`;
- `get_latest_data`, the greatest stored timestamp;
- `get_data_gaps`: the maximal runs of missing points of the interval's time grid over a requested range, each given as its first and last missing point.

Input validation refuses:

- empty series;
- series that lack an OHLCV column;
- series whose index is not a datetime index;
- unknown intervals (in `get_data_gaps`).

The recognised intervals are the timeframes of the generated configuration: `1m`, `5m`, `15m`, `1h`, `1d`. Time is passed in explicitly: bar timestamps are whole seconds, and the cache clock `now` is a real number of seconds.

**The configuration trees.** There are three configuration holders:

- `src/trading/utils/config.py` (module `DictConfig`):
  - built-in defaults with the YAML document deep-merged over them (`update_dict`);
  - dotted-key `get`, which falls back to a default;
  - dotted-key `set`, which creates missing intermediate dictionaries;
  - the item accessors.
- `src/trading/utils/config_manager.py` (module `ValidatedConfig`):
  - four pydantic models with integer range and ordering rules;
  - loading with defaults when the file is missing;
  - a dotted `get` that steps into dictionary entries and into model attributes.
- `src/utils/config.py` (module `PlainConfig`): the raw document, or defaults, read by a dotted `get`.

A configuration document is a `ConfigTree.Node`: a dictionary, a model object (`Obj`, whose entries are attributes) or a scalar leaf.

Modules:

| file | module | flavour |
|---|---|---|
| `wrappers.dfy` | `Wrappers` | `Option` and `Result` |
| `series.dfy` | `Series` | pure: bars, validation, intervals, latest timestamp, grid, gap runs |
| `data_manager.dfy` | `DataStore` | class `DataManager` with the store and cache maps; merge rules for `update_data` |
| `data_scenarios.dfy` | `DataScenarios` | the observable behaviours, each run on a fresh manager |
| `config_tree.dfy` | `ConfigTree` | tree datatype, dotted-key split and join, strict path lookup |
| `dict_config.dfy` | `DictConfig` | deep merge, `get`/`set` loops, class `ConfigManager` |
| `validated_config.dfy` | `ValidatedConfig` | model rules, loading, attribute-aware `get`, class `ConfigManager` |
| `plain_config.dfy` | `PlainConfig` | defaults, loading, `get` loop, class `Config` |

Choices where the code differs from its docstrings, or where neither the code nor the tests fix the behaviour:

- **Overlapping timestamps in `update_data`.** No code or test in the repository fixes which value is kept for a timestamp that is both stored and new. The model makes this a constructor parameter (`OverlapRule`: `NewWins`, `OldWins`, `KeepBoth`). Every rule-independent property of update (`MergeTimes`, `MergeAppendsLater`, `CombineValid`, `UpdateData`) is proved for all three rules. `NewWinsKeeps` describes `NewWins` alone.
- **The cache's expiry boundary.** No code or test fixes whether an entry is still fresh after exactly `ttl` seconds. The model makes this the constructor parameter `strictExpiry`. Both settings return an entry read at once and drop one read after more than `ttl` seconds, which is all the tests fix.
- **Order of the validation checks in `save_data`.** The model checks empty, then columns, then index. The tests only fix that each of these raises `ValueError`.
- **`get_data_gaps` checks the interval first.** It does so even for a key with no data, which is what the invalid-interval test requires.
- **`update_data` validates its input as `save_data` does.** This is the model's own choice; the tests do not exercise it.
- **Indexing a missing key.** The docstring of `__getitem__` in `src/trading/utils/config.py` promises a `KeyError`. The code returns `get(key)`, so a missing key yields `None`. The model follows the code.
- **`get` into a missing key.** In `src/trading/utils/config_manager.py` and `src/utils/config.py`, `get` rebinds the cursor with `dict.get(k, default)` and keeps walking. A missing segment followed by more segments therefore walks into `default` itself. The model keeps this behaviour (`MissingSegmentEntersDefault`). For the usual scalar default the result is the default.

## Model

| member | source | states |
|---|---|---|
| Series.Validate | tests/test_data_manager.py:156-176 | A frame is accepted exactly when it is non-empty, has all five OHLCV columns and has a datetime index. An `EmptySeries` error means no rows. `MissingColumns` names exactly the absent OHLCV columns, and that set is non-empty. `NonTemporalIndex` means the index is not a datetime index. |
| Series.IntervalSeconds | scripts/setup.py:82-87 | Recognises exactly `1m`, `5m`, `15m`, `1h` and `1d`, each with a positive bar length; `1d` is 86400 seconds. |
| Series.Latest | tests/test_data_manager.py:110-119 | The latest timestamp is a timestamp of the series and is at least every bar's timestamp. |
| Series.Grid | tests/test_data_manager.py:127-143 | The expected timestamps are strictly increasing. Each lies in [start, end] at a whole number of steps from start. The grid starts at start when the range is non-empty. |
| Series.GridComplete | tests/test_data_manager.py:127-143 | Every point of [start, end] a whole number of steps from start is in the grid. |
| Series.Runs | tests/test_data_manager.py:124-143 | When the first point is missing, the first run starts there. |
| Series.RunsEnds | tests/test_data_manager.py:141-143 | Every run starts and ends at a missing point of the sequence, and its start is no later than its end. |
| Series.RunsMissing | tests/test_data_manager.py:124-143 | Every point of the sequence inside a run is missing. |
| Series.RunsCover | tests/test_data_manager.py:124-143 | Every missing point of the sequence lies inside some run. |
| Series.RunsSeparated | tests/test_data_manager.py:124-143 | Between two consecutive runs lies a present point, so runs are maximal and in chronological order. |
| Series.RunsEmpty | tests/test_data_manager.py:124-143 | There are no runs exactly when every point is present. |
| Series.Gaps | tests/test_data_manager.py:124-143 | The gaps of the stored timestamps over [start, end] (no contract of its own): the missing runs of the interval's grid. The four lemmas below characterise them completely. |
| Series.GapsAreMissingRuns | tests/test_data_manager.py:124-143 | Each gap starts and ends at a missing grid point of the range. Every grid point between its ends is missing. |
| Series.GapsCoverMissing | tests/test_data_manager.py:124-143 | Every missing grid point of the range lies in a reported gap. |
| Series.GapsSeparated | tests/test_data_manager.py:124-143 | Consecutive gaps are separated by a present grid point. |
| Series.NoGapsIffComplete | tests/test_data_manager.py:124-143 | No gap is reported exactly when every grid point of the range is present. |
| DataStore.Fresh | tests/test_data_manager.py:91-108 | Whether a cache entry may still be returned (no contract of its own): less than, or with `strictExpiry` false at most, `ttl` seconds since it was cached. `FreshBounds` states what the tests fix. |
| DataStore.FreshBounds | tests/test_data_manager.py:91-108 | Under either expiry boundary, an entry read at once is fresh and an entry read more than `ttl` seconds later is not. |
| DataStore.Without | tests/test_data_manager.py:82-89 | Removing a set of timestamps keeps exactly the bars whose timestamp is not in it, and never lengthens the series. |
| DataStore.MergeBars | tests/test_data_manager.py:82-89 | The bars `update_data` stores under each overlap rule (no contract of its own); `MergeTimes`, `NewWinsKeeps` and `MergeAppendsLater` state its properties. |
| DataStore.MergeTimes | tests/test_data_manager.py:82-89 | Under every overlap rule, the updated series holds exactly the union of the stored and new timestamps. |
| DataStore.NewWinsKeeps | tests/test_data_manager.py:82-89 | When new values win, every new bar is kept. A stored bar survives exactly when its timestamp is not renewed (or the same bar is renewed). |
| DataStore.MergeAppendsLater | tests/test_data_manager.py:66-89 | When every new timestamp follows every stored one, the update is the stored bars followed by the new ones, under every overlap rule. |
| DataStore.Combine | tests/test_data_manager.py:82-89 | The series `update_data` stores (no contract of its own): the columns of both and the merged bars. `CombineValid` and `MergeAppendsLater` state its properties. |
| DataStore.CombineValid | tests/test_data_manager.py:82 | Merging two valid series gives a valid series. |
| DataStore.DataManager.constructor | tests/test_data_manager.py:38-53 | A new manager has an empty store and an empty cache. |
| DataStore.DataManager.SaveData | tests/test_data_manager.py:55-64 | Returns exactly the validation outcome. A valid series replaces its key's slot and nothing else. An invalid one leaves the store unchanged. The cache is untouched. |
| DataStore.DataManager.LoadData | tests/test_data_manager.py:60-64 | Returns the key's stored series, or absent when none was saved. |
| DataStore.DataManager.UpdateData | tests/test_data_manager.py:66-89 | Returns exactly the validation outcome. A valid series is merged into the key's stored series, or stored as is when the key has none. Other keys and the cache are untouched. An invalid series changes nothing. |
| DataStore.DataManager.CacheData | tests/test_data_manager.py:91-94 | The key's cache slot becomes the snapshot stamped with `now` and `ttl`. The store is untouched. |
| DataStore.DataManager.GetCachedData | tests/test_data_manager.py:96-108 | Returns the snapshot exactly when the key is cached and still fresh. Otherwise it returns absent and the key's stale entry is dropped. |
| DataStore.DataManager.GetLatestData | tests/test_data_manager.py:110-122 | Absent exactly for a key without data. Otherwise the result is a stored timestamp at least every stored bar's timestamp. |
| DataStore.DataManager.GetDataGaps | tests/test_data_manager.py:124-154 | Fails exactly for an unknown interval, with `UnknownInterval`. A key without data gives the single gap (start, end). Otherwise the result is the gaps of the stored timestamps on the interval's grid. |
| DataScenarios.JanuaryGaps | tests/test_data_manager.py:124-143 | Daily data for 2024-01-01..10 without the 3rd and 4th has exactly one gap over that range, from the 3rd to the 4th. |
| DataScenarios.SaveThenLoad | tests/test_data_manager.py:55-64 | A valid saved series loads back unchanged. |
| DataScenarios.SaveThenUpdate | tests/test_data_manager.py:66-89 | Saving S1, then updating with a later S2 of the same columns, loads S1's bars followed by S2's. |
| DataScenarios.CacheThenExpire | tests/test_data_manager.py:91-108 | A cached series is returned when read at once and is absent when read after more than `ttl`. |
| DataScenarios.SaveThenLatest | tests/test_data_manager.py:110-122 | The latest timestamp is a timestamp of the saved series and at least all of them. A symbol never saved gives absent. |
| DataScenarios.GapsOfDailySeries | tests/test_data_manager.py:124-186 | `invalid` as interval is refused. The saved January series has the one gap (Jan 3, Jan 4). `NONEXISTENT` gives (Jan 1, Jan 10). |
| DataScenarios.InvalidSaves | tests/test_data_manager.py:156-176 | The empty frame, the open-only frame and the integer-indexed frame are each refused with their error, and nothing is stored. |
| ConfigTree.Split | src/trading/utils/config.py:89 | Splitting on '.' gives at least one segment, and no segment contains '.'. |
| ConfigTree.JoinSplit | src/trading/utils/config.py:89 | Joining the segments with '.' gives back the key. |
| ConfigTree.SplitJoin | src/trading/utils/config.py:89 | Splitting the join of dot-free segments gives back the segments. |
| ConfigTree.Find | src/trading/utils/config.py:89-97 | Strict indexing along the path (no contract of its own): the value reached through dictionaries, or nothing on a missing key or a non-dictionary. `FindAppend` and the get lemmas state its properties. |
| ConfigTree.FindAppend | src/trading/utils/config.py:93-94 | Looking up p + q is looking up p, then q from there. |
| DictConfig.Merge | src/trading/utils/config.py:70-75 | `update_dict` as a function of the two trees (no contract of its own); `MergeEntries` and the lemmas below state what it computes. |
| DictConfig.MergeEntries | src/trading/utils/config.py:70-75 | The merged key set is the union of both. Keys only in the target keep their value. Keys where both sides are dictionaries are merged recursively. Any other key of the update takes the update's value. |
| DictConfig.MergeSelf | src/trading/utils/config.py:70-75 | Merging a tree into itself changes nothing. |
| DictConfig.MergeIdempotent | src/trading/utils/config.py:70-77 | Merging the same update twice equals merging it once. |
| DictConfig.MergeOverrides | src/trading/utils/config.py:72-75 | Every non-dictionary value the update holds at a path is what the merged tree holds there. |
| DictConfig.MergeKeeps | src/trading/utils/config.py:70-75 | A value of the target at a path the update does not reach survives the merge, as long as the update holds only dictionaries along the way, in trees with no shared sub-trees. |
| DictConfig.Loaded | src/trading/utils/config.py:26-62 | The configuration after loading (no contract of its own): the defaults with a non-empty mapping from the file merged over them. `LoadedSections` states its content. |
| DictConfig.LoadedSections | src/trading/utils/config.py:28-58 | After loading, the `api`, `data` and `logging` sections exist. Without a non-empty mapping in the file, the configuration is exactly the defaults. |
| DictConfig.DefaultsContent | src/trading/utils/config.py:29-50 | The defaults hold the three data directories and the API key taken from the environment. |
| DictConfig.SetIn | src/trading/utils/config.py:106-114 | A successful set adds at most the path's first key at the top, and leaves every other top-level key unchanged. |
| DictConfig.SetThenFind | src/trading/utils/config.py:106-114 | After a successful set, reading the same path gives the value set. |
| DictConfig.SetFrame | src/trading/utils/config.py:106-114 | A set leaves unchanged every path that neither extends nor is a prefix of its path, in a tree with no shared sub-trees. |
| DictConfig.SetInFresh | src/trading/utils/config.py:109-112 | Setting along missing entries always succeeds: the intermediate dictionaries are created. |
| DictConfig.SetSucceedsIff | src/trading/utils/config.py:109-114 | A set succeeds exactly when every existing proper prefix of the path holds a dictionary. |
| DictConfig.ConfigManager.constructor | src/trading/utils/config.py:26-62 | The configuration is the defaults, with the file deep-merged in when it parsed to a non-empty mapping. |
| DictConfig.ConfigManager.UpdateConfig | src/trading/utils/config.py:64-77 | The configuration becomes the deep merge of the old configuration and the update. |
| DictConfig.ConfigManager.Get | src/trading/utils/config.py:79-97 | Returns the value at the dotted path when every segment indexes a dictionary. Otherwise it returns `default`. |
| DictConfig.ConfigManager.Set | src/trading/utils/config.py:99-114 | Succeeds exactly as the path-level set does, and the configuration becomes its result. On failure (Python's TypeError) nothing has changed. |
| DictConfig.ConfigManager.GetItem | src/trading/utils/config.py:125-137 | `self[key]` is `get(key)` with default None, so a missing key yields None. |
| DictConfig.ConfigManager.SetItem | src/trading/utils/config.py:139-146 | `self[key] = value` is exactly `set(key, value)`. |
| DictConfig.UpdateDict | src/trading/utils/config.py:70-75 | The in-place loop with recursion computes exactly the deep merge. |
| ValidatedConfig.MakeApiConfig | src/trading/utils/config_manager.py:12-23 | Accepted exactly when 1 <= timeout <= 60, 1 <= retries <= 10 and rate_limit >= 1. A refusal is a ValueError. |
| ValidatedConfig.MakeDatabaseConfig | src/trading/utils/config_manager.py:25-37 | Accepted exactly when 1 <= port <= 65535. |
| ValidatedConfig.MakeStrategyConfig | src/trading/utils/config_manager.py:39-67 | Accepted exactly when both windows are present and short < long. The error is a KeyError exactly when a window is missing. |
| ValidatedConfig.MakeMlConfig | src/trading/utils/config_manager.py:69-85 | Accepted exactly when batch_size, epochs and early_stopping_patience are each at least 1. |
| ValidatedConfig.IntField | src/trading/utils/config_manager.py:14-16 | An absent field takes its default. A present field is accepted exactly when it is an integer leaf, and the value read is that integer. Any integer the section describes is the one returned. A refusal is a ValueError naming the field. |
| ValidatedConfig.StrField | src/trading/utils/config_manager.py:27-29 | An absent field takes its default. A present field is accepted exactly when it is a string leaf, and the value read is that string. A refusal is a ValueError naming the field. |
| ValidatedConfig.RealField | src/trading/utils/config_manager.py:72-73 | An absent field takes its default. A present field is accepted exactly when it is a float or an integer leaf, and the value read is the number it denotes. A refusal is a ValueError naming the field. |
| ValidatedConfig.IntMapField | src/trading/utils/config_manager.py:41-60 | A `Dict[str, int]` field is accepted exactly when it is a mapping of integers. The value read has the same keys and the same integers. An absent field takes its default. |
| ValidatedConfig.StrMapField | src/trading/utils/config_manager.py:30-37 | A `Dict[str, str]` field is accepted exactly when it is a mapping of strings. The value read has the same keys and the same strings. An absent field takes its default. |
| ValidatedConfig.BuildApi | src/trading/utils/config_manager.py:12-23 | The model built holds the section's timeout, retries and rate_limit, with defaults for the absent ones, and satisfies the API rules. Whenever the section describes a model that keeps the rules, that model is the result. Every refusal is a ValueError. |
| ValidatedConfig.BuildDatabase | src/trading/utils/config_manager.py:25-37 | The model built holds the section's host, port, name and collections, with defaults for the absent ones, and its port is in range. Whenever the section describes a model that keeps the rule, that model is the result. Every refusal is a ValueError. |
| ValidatedConfig.BuildStrategy | src/trading/utils/config_manager.py:39-67 | The model built holds the section's moving_averages, rsi and macd, with defaults for the absent ones, and has short window < long window. Whenever the section describes a model that keeps the rule, that model is the result. A refusal is a KeyError exactly when the supplied moving averages lack a window, whatever the later fields hold. Otherwise a refusal is a ValueError. |
| ValidatedConfig.KeyErrorBeforeLaterFields | src/trading/utils/config_manager.py:62-67 | Moving averages without a short window, followed by a malformed rsi, raise KeyError for the missing window. |
| ValidatedConfig.BuildMl | src/trading/utils/config_manager.py:69-85 | The model built holds the section's six fields, with defaults for the absent ones, and satisfies the integer ML rules. Whenever the section describes a model that keeps those rules, that model is the result. Every refusal is a ValueError. |
| ValidatedConfig.Section | src/trading/utils/config_manager.py:112-115 | `raw_config.get(name, {})` unpacked with `**` succeeds exactly when the entry is absent or a mapping, and gives that mapping or the empty one. Anything else is a TypeError. |
| ValidatedConfig.SectionOrEmpty | src/trading/utils/config_manager.py:116-119 | A present entry is kept as it is; an absent one is the empty dictionary. |
| ValidatedConfig.LoadConfig | src/trading/utils/config_manager.py:104-127 | A missing file gives exactly the defaults. Any other failure to read the file is raised. A document that is not a mapping fails with AttributeError. Otherwise a successful load is the configuration the document describes: each model built from its section, and the other four sections kept as they are. Whenever the document describes a configuration that keeps every rule, that configuration is the result. Every loaded configuration satisfies every rule. |
| ValidatedConfig.LoadsDescribed | src/trading/utils/config_manager.py:104-120 | A document that describes a configuration keeping every rule loads as exactly that configuration. |
| ValidatedConfig.LoadingTestValues | src/trading/utils/config_manager.py:104-120 | The loading test's document loads as its own values: timeout 5, retries 2, rate limit 1000, test_host:27018, test_db, windows 10 and 30, splits 0.7 and 0.15, batch size 64. The absent macd and patience take their defaults. |
| ValidatedConfig.DefaultsAreValid | src/trading/utils/config_manager.py:129-157 | The defaults satisfy every rule, with timeout 10, retries 3, host localhost and port 27017. |
| ValidatedConfig.Resolve | src/trading/utils/config_manager.py:159-170 | The traversal of `get` (no contract of its own): a dictionary steps into the entry or into `default`, a model object into the attribute or gives `default`, a scalar gives `default`. Its lemmas below state what it returns. |
| ValidatedConfig.ResolveFound | src/trading/utils/config_manager.py:159-170 | Along a chain of dictionaries, `get` returns the stored value. |
| ValidatedConfig.MissingSegmentGivesDefault | src/trading/utils/config_manager.py:163-169 | A missing first segment with a scalar default gives the default. |
| ValidatedConfig.MissingSegmentEntersDefault | src/trading/utils/config_manager.py:164-165 | A missing segment makes the default the cursor, and the remaining segments are walked into it. |
| ValidatedConfig.ApiTimeoutByDottedKey | src/trading/utils/config_manager.py:159-170 | `api.timeout` reaches the timeout attribute of the API model. |
| ValidatedConfig.DatabaseHostByDottedKey | src/trading/utils/config_manager.py:159-170 | `database.host` reaches the host attribute of the database model. |
| ValidatedConfig.NonexistentKeyGivesDefault | src/trading/utils/config_manager.py:163-169 | `nonexistent.key` with a scalar default gives that default. |
| ValidatedConfig.ConfigManager.constructor | src/trading/utils/config_manager.py:98-102 | A manager holds a configuration that satisfies every model rule. |
| ValidatedConfig.ConfigManager.Create | src/trading/utils/config_manager.py:98-127 | Construction fails exactly when loading fails, with the same error. Otherwise the manager holds the loaded, valid configuration. |
| ValidatedConfig.ConfigManager.Get | src/trading/utils/config_manager.py:159-170 | The loop over the segments computes the traversal over dictionary entries and model attributes. |
| ValidatedConfig.ConfigManager.GetApiConfig | src/trading/utils/config_manager.py:187-189 | The API model returned satisfies the API rules. |
| ValidatedConfig.ConfigManager.GetDatabaseConfig | src/trading/utils/config_manager.py:191-193 | The database model returned satisfies the port rule. |
| ValidatedConfig.ConfigManager.GetStrategyConfig | src/trading/utils/config_manager.py:195-197 | The strategy model returned has short window < long window. |
| ValidatedConfig.ConfigManager.GetMlConfig | src/trading/utils/config_manager.py:199-201 | The ML model returned satisfies the integer ML rules. |
| ValidatedConfig.DefaultsWhenFileMissing | src/trading/utils/config_manager.py:122-157 | Without a file, the API config has timeout 10 and retries 3, and the database is localhost:27017. |
| ValidatedConfig.ValuesFromFile | src/trading/utils/config_manager.py:187-201 | A manager built from the loading test's document returns models holding the file's timeout, retries, rate limit, host, port, name, windows, splits and batch size. |
| PlainConfig.Load | src/utils/config.py:27-34 | A missing file gives the defaults. A parsed file gives its document as is. Any other read failure is raised. |
| PlainConfig.Lookup | src/utils/config.py:61-70 | The traversal of `get` (no contract of its own): a dictionary steps into the entry or into `default`, anything else gives `default`. Its lemmas below state what it returns. |
| PlainConfig.LookupFound | src/utils/config.py:61-70 | Along a chain of dictionaries, `get` returns the stored value. |
| PlainConfig.LookupThroughScalar | src/utils/config.py:66-69 | Reaching a non-dictionary with segments remaining gives `default`. |
| PlainConfig.LookupMissing | src/utils/config.py:66-67 | A missing segment with a non-dictionary default gives `default`. |
| PlainConfig.DefaultSections | src/utils/config.py:36-59 | The defaults hold `data`, `backtest`, `logging` and `api`, with `api.yfinance` timeout 10 and retries 3. |
| PlainConfig.Config.Create | src/utils/config.py:21-34 | Construction succeeds exactly when loading does, and the object holds the loaded document. |
| PlainConfig.Config.Get | src/utils/config.py:61-70 | The loop over the segments computes the lookup and leaves the tree unchanged (the method has no `modifies` clause). |

## Left out

- **File, environment and logging I/O.**
  - YAML parsing and `save` (`src/trading/utils/config.py:116-123`). A file is modelled as `Missing`, `Unreadable` or `Parsed(document)`.
  - `load_dotenv`, `get_env` and `os.getenv`. The API key from the environment is a parameter.
  - `get_path` directory creation, the logging setup, and the `validate` re-check of the models.
  - The DataManager's on-disk format and its configuration of directories.
- **The real clock.** The cache takes `now` as a parameter.
- **Concurrency and locking around the store.** The model is sequential.
- **The data manager implementation itself.** `trading.data.manager` is not part of this model. The DataManager is modelled from its tests only; where they fix nothing, the model's choices are listed above.
- **The merged series' order when new timestamps precede stored ones.** The model keeps the stored part before the new part (a concatenation). The tests fix only the case where the new data comes later.
- **Extra data-frame columns, dtypes and index frequency.** Columns are a set of names and every bar carries the five OHLCV values.
- **Lists.** Lists inside configuration documents are not modelled: a leaf holds null, bool, int, real or string. The generated configuration itself has lists, `data.symbols` and `data.timeframes` (`scripts/setup.py:76-87`), so that file cannot be expressed as a `Node` as it stands. All three loaders treat a list like any other value that is not a mapping: `get` cannot step into it, and `update_dict` replaces it whole.
- **Sharing by reference.** The model treats every configuration value as a plain value. In Python, values are shared by reference:
  - `set` stores the caller's object as it is (`src/trading/utils/config.py:114`), and so does `update_dict` (line 75), through which `_update_config` merges;
  - `get` returns the live sub-dictionary (lines 89-94), and so does `get` in the other two holders;
  - YAML anchors make two sub-trees of a parsed document the same object.

  So a later in-place change is seen wherever the object is shared. With `x = {}`, `set("a", x)`, `set("b", x)` and then `set("a.c", 1)` make `get("b.c")` return 1. Likewise, `get("data")["x"] = 1` changes the stored configuration. The model's `Get` leaves the state unchanged, and nothing outside `Set` and `UpdateConfig` can reach the tree. `SetFrame`, `MergeKeeps` and the `Get` and `Set` contracts therefore describe alias-free trees only.
- SetFrame: holds for trees without sharing; when two paths hold the same Python object, a set below one of them is also seen through the other.
- MergeKeeps: holds for trees without sharing; `update_dict` stores the update's objects themselves, so a later in-place change to them is seen in the merged configuration.
- **Non-field attributes of model objects.** In `get` of `src/trading/utils/config_manager.py` (lines 166-167), `hasattr` on a pydantic model is also true of its methods and class attributes (`model_dump`, `model_fields`, `copy`, and so on), so `get("api.model_fields")` returns one of them. An `Obj` holds only the model's fields, so for such a key `Resolve` gives `default`.
- **Non-string keys.** Configuration dictionaries are `map<string, Node>`, so a YAML key that is not a string (the integer key of `1: x`) cannot be expressed. Written as the string key `"1"` instead, the model's `get("1")` finds `x`, while Python's lookup of the string `"1"` in the real document misses and gives the default.
- **`hasattr` on scalars.** In `get` of `src/trading/utils/config_manager.py`, the model treats every scalar as having no attributes. Python's scalars do have attributes (methods such as `real` on an int), and `get` would return those.
- MakeMlConfig: does not check the floating-point rules of `MLConfig` (each split strictly between 0 and 1, and their sum below 1), because they are floating-point comparisons. Only the three integer rules are modelled.
- IntField: does not model pydantic's lax coercion (for example a float with no fractional part, a numeric string or a bool accepted as an int). Only an integer leaf is accepted. `StrField`, `RealField`, `IntMapField` and `StrMapField` likewise accept only leaves of their own type.
- **Grid alignment in `get_data_gaps`.** The expected timestamps are `start`, `start + step`, and so on up to `end`. A stored timestamp off that grid does not fill a grid point. Alignment to calendar or trading-session boundaries is not modelled.
