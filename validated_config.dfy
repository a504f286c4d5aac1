/**
 * The validated configuration manager of src/trading/utils/config_manager.py:
 * four model objects (API, database, strategy, machine learning) whose integer
 * fields carry range and ordering rules, built from the YAML file's sections or
 * from defaults when the file is missing, and a dotted-key `get` that steps into
 * dictionary entries and into model attributes.
 */
module ValidatedConfig {
  import opened Wrappers
  import opened ConfigTree

  /** The exception a caller sees. Pydantic's ValidationError is a ValueError. */
  datatype Error =
    | ValueError(reason: string)
    | KeyError(key: string)
    | TypeError(reason: string)
    | AttributeError(reason: string)
    | FileError

  datatype ApiConfig = ApiConfig(timeout: int, retries: int, rateLimit: int)

  datatype DatabaseConfig = DatabaseConfig(host: string, port: int, name: string, collections: map<string, string>)

  datatype StrategyConfig = StrategyConfig(movingAverages: map<string, int>, rsi: map<string, int>, macd: map<string, int>)

  datatype MlConfig = MlConfig(
    modelDir: string,
    trainTestSplit: real,
    validationSplit: real,
    batchSize: int,
    epochs: int,
    earlyStoppingPatience: int)

  /** The whole configuration as _load_config leaves it. */
  datatype LoadedConfig = LoadedConfig(
    api: ApiConfig,
    database: DatabaseConfig,
    strategy: StrategyConfig,
    ml: MlConfig,
    data: Node,
    backtest: Node,
    logging: Node,
    visualization: Node)

  // ---------------------------------------------------------------------------
  // Field rules

  predicate ApiRules(c: ApiConfig) {
    1 <= c.timeout <= 60 && 1 <= c.retries <= 10 && c.rateLimit >= 1
  }

  predicate DatabaseRules(c: DatabaseConfig) {
    1 <= c.port <= 65535
  }

  predicate StrategyRules(c: StrategyConfig) {
    "short_window" in c.movingAverages && "long_window" in c.movingAverages &&
    c.movingAverages["short_window"] < c.movingAverages["long_window"]
  }

  predicate MlRules(c: MlConfig) {
    c.batchSize >= 1 && c.epochs >= 1 && c.earlyStoppingPatience >= 1
  }

  predicate ConfigRules(c: LoadedConfig) {
    ApiRules(c.api) && DatabaseRules(c.database) && StrategyRules(c.strategy) && MlRules(c.ml)
  }

  /** APIConfig(timeout, retries, rate_limit). */
  function MakeApiConfig(timeout: int, retries: int, rateLimit: int): (r: Result<ApiConfig, Error>)
    ensures r.Success? <==> 1 <= timeout <= 60 && 1 <= retries <= 10 && rateLimit >= 1
    ensures r.Success? ==> r.value == ApiConfig(timeout, retries, rateLimit) && ApiRules(r.value)
    ensures r.Failure? ==> r.error.ValueError?
  {
    if !(1 <= timeout <= 60) then Failure(ValueError("timeout"))
    else if !(1 <= retries <= 10) then Failure(ValueError("retries"))
    else if rateLimit < 1 then Failure(ValueError("rate_limit"))
    else Success(ApiConfig(timeout, retries, rateLimit))
  }

  /** DatabaseConfig(host, port, name, collections). */
  function MakeDatabaseConfig(host: string, port: int, name: string, collections: map<string, string>): (r: Result<DatabaseConfig, Error>)
    ensures r.Success? <==> 1 <= port <= 65535
    ensures r.Success? ==> r.value == DatabaseConfig(host, port, name, collections) && DatabaseRules(r.value)
  {
    if 1 <= port <= 65535 then Success(DatabaseConfig(host, port, name, collections))
    else Failure(ValueError("port"))
  }

  /**
   * StrategyConfig(moving_averages, rsi, macd). The moving-average validator indexes
   * both windows, so a mapping without one of them raises KeyError, not ValueError.
   */
  function MakeStrategyConfig(movingAverages: map<string, int>, rsi: map<string, int>, macd: map<string, int>): (r: Result<StrategyConfig, Error>)
    ensures r.Success? <==>
      "short_window" in movingAverages && "long_window" in movingAverages &&
      movingAverages["short_window"] < movingAverages["long_window"]
    ensures r.Success? ==> r.value == StrategyConfig(movingAverages, rsi, macd) && StrategyRules(r.value)
    ensures r.Failure? ==> (r.error.KeyError? <==> !("short_window" in movingAverages && "long_window" in movingAverages))
  {
    if "short_window" !in movingAverages then Failure(KeyError("short_window"))
    else if "long_window" !in movingAverages then Failure(KeyError("long_window"))
    else if movingAverages["short_window"] >= movingAverages["long_window"] then
      Failure(ValueError("Short window must be less than long window"))
    else Success(StrategyConfig(movingAverages, rsi, macd))
  }

  /** MLConfig(...); only the integer rules are checked here. */
  function MakeMlConfig(modelDir: string, trainTestSplit: real, validationSplit: real, batchSize: int, epochs: int, patience: int): (r: Result<MlConfig, Error>)
    ensures r.Success? <==> batchSize >= 1 && epochs >= 1 && patience >= 1
    ensures r.Success? ==> r.value == MlConfig(modelDir, trainTestSplit, validationSplit, batchSize, epochs, patience) && MlRules(r.value)
  {
    if batchSize < 1 then Failure(ValueError("batch_size"))
    else if epochs < 1 then Failure(ValueError("epochs"))
    else if patience < 1 then Failure(ValueError("early_stopping_patience"))
    else Success(MlConfig(modelDir, trainTestSplit, validationSplit, batchSize, epochs, patience))
  }

  // ---------------------------------------------------------------------------
  // Defaults

  const DefaultApi := ApiConfig(10, 3, 2000)

  const DefaultDatabase := DatabaseConfig("localhost", 27017, "trading", map[
    "raw_data" := "raw_data",
    "processed_data" := "processed_data",
    "backtest_results" := "backtest_results",
    "model_metrics" := "model_metrics"])

  const DefaultStrategy := StrategyConfig(
    map["short_window" := 20, "long_window" := 50],
    map["period" := 14, "overbought" := 70, "oversold" := 30],
    map["fast_period" := 12, "slow_period" := 26, "signal_period" := 9])

  const DefaultMl := MlConfig("models/", 0.8, 0.1, 32, 100, 10)

  /** _get_default_config, with the repository root `root` joined into the paths. */
  function DefaultConfig(root: string): LoadedConfig {
    LoadedConfig(
      DefaultApi, DefaultDatabase, DefaultStrategy, DefaultMl,
      Dict(map[
        "raw_data_dir" := Leaf(Str(root + "/data/raw")),
        "processed_data_dir" := Leaf(Str(root + "/data/processed")),
        "cache_dir" := Leaf(Str(root + "/data/cache"))]),
      Dict(map[
        "initial_capital" := Leaf(Real(100000.0)),
        "commission" := Leaf(Real(0.001)),
        "slippage" := Leaf(Real(0.0005))]),
      Dict(map[
        "level" := Leaf(Str("INFO")),
        "file" := Leaf(Str(root + "/logs/trading.log"))]),
      Dict(map[
        "style" := Leaf(Str("seaborn")),
        "context" := Leaf(Str("paper")),
        "palette" := Leaf(Str("deep")),
        "dpi" := Leaf(Int(300)),
        "save_dir" := Leaf(Str(root + "/plots"))]))
  }

  // ---------------------------------------------------------------------------
  // Building the models from the file's sections

  /** `x` is the integer field `name` of the section, or `default` when the section has none. */
  predicate IntFrom(raw: map<string, Node>, name: string, x: int, default: int) {
    if name in raw then raw[name] == Leaf(Int(x)) else x == default
  }

  predicate StrFrom(raw: map<string, Node>, name: string, x: string, default: string) {
    if name in raw then raw[name] == Leaf(Str(x)) else x == default
  }

  /** A float field also takes an integer, as the number it denotes. */
  predicate RealFrom(raw: map<string, Node>, name: string, x: real, default: real) {
    if name in raw then raw[name] == Leaf(Real(x)) || (raw[name].Leaf? && raw[name].v.Int? && raw[name].v.i as real == x)
    else x == default
  }

  predicate IntMapFrom(raw: map<string, Node>, name: string, x: map<string, int>, default: map<string, int>) {
    if name in raw then raw[name] == IntMapNode(x) else x == default
  }

  predicate StrMapFrom(raw: map<string, Node>, name: string, x: map<string, string>, default: map<string, string>) {
    if name in raw then raw[name] == StrMapNode(x) else x == default
  }

  function IntMapNode(m: map<string, int>): Node {
    Dict(map k | k in m :: Leaf(Int(m[k])))
  }

  function StrMapNode(m: map<string, string>): Node {
    Dict(map k | k in m :: Leaf(Str(m[k])))
  }

  /** An integer field of a section: its default when absent, a ValueError when it is not an integer. */
  function IntField(raw: map<string, Node>, name: string, default: int): (r: Result<int, Error>)
    ensures r.Success? <==> (name in raw ==> raw[name].Leaf? && raw[name].v.Int?)
    ensures r.Success? ==> IntFrom(raw, name, r.value, default)
    ensures forall x :: IntFrom(raw, name, x, default) ==> r == Success(x)
    ensures r.Failure? ==> r.error == ValueError(name)
  {
    if name !in raw then Success(default)
    else match raw[name]
      case Leaf(Int(i)) => Success(i)
      case _ => Failure(ValueError(name))
  }

  /** A string field of a section. */
  function StrField(raw: map<string, Node>, name: string, default: string): (r: Result<string, Error>)
    ensures r.Success? <==> (name in raw ==> raw[name].Leaf? && raw[name].v.Str?)
    ensures r.Success? ==> StrFrom(raw, name, r.value, default)
    ensures forall x :: StrFrom(raw, name, x, default) ==> r == Success(x)
    ensures r.Failure? ==> r.error == ValueError(name)
  {
    if name !in raw then Success(default)
    else match raw[name]
      case Leaf(Str(s)) => Success(s)
      case _ => Failure(ValueError(name))
  }

  /** A float field of a section; an integer is accepted too. */
  function RealField(raw: map<string, Node>, name: string, default: real): (r: Result<real, Error>)
    ensures r.Success? <==> (name in raw ==> raw[name].Leaf? && (raw[name].v.Real? || raw[name].v.Int?))
    ensures r.Success? ==> RealFrom(raw, name, r.value, default)
    ensures forall x :: RealFrom(raw, name, x, default) ==> r == Success(x)
    ensures r.Failure? ==> r.error == ValueError(name)
  {
    if name !in raw then Success(default)
    else match raw[name]
      case Leaf(Real(x)) => Success(x)
      case Leaf(Int(i)) => Success(i as real)
      case _ => Failure(ValueError(name))
  }

  /** A `Dict[str, int]` field of a section: a mapping whose every value is an integer. */
  function IntMapField(raw: map<string, Node>, name: string, default: map<string, int>): (r: Result<map<string, int>, Error>)
    ensures r.Success? <==> (name in raw ==> raw[name].Dict? && forall k :: k in raw[name].entries ==> raw[name].entries[k].Leaf? && raw[name].entries[k].v.Int?)
    ensures r.Success? ==> IntMapFrom(raw, name, r.value, default)
    ensures forall x :: IntMapFrom(raw, name, x, default) ==> r == Success(x)
    ensures r.Failure? ==> r.error == ValueError(name)
  {
    if name !in raw then Success(default)
    else match raw[name]
      case Dict(m) =>
        if forall k :: k in m ==> m[k].Leaf? && m[k].v.Int? then
          var x := map k | k in m :: m[k].v.i;
          assert IntMapNode(x) == Dict(m) by {
            assert IntMapNode(x).entries == m;
          }
          IntMapNodeInjective(x);
          Success(x)
        else Failure(ValueError(name))
      case _ => IntMapNodeInjective(default); Failure(ValueError(name))
  }

  /** A `Dict[str, str]` field of a section: a mapping whose every value is a string. */
  function StrMapField(raw: map<string, Node>, name: string, default: map<string, string>): (r: Result<map<string, string>, Error>)
    ensures r.Success? <==> (name in raw ==> raw[name].Dict? && forall k :: k in raw[name].entries ==> raw[name].entries[k].Leaf? && raw[name].entries[k].v.Str?)
    ensures r.Success? ==> StrMapFrom(raw, name, r.value, default)
    ensures forall x :: StrMapFrom(raw, name, x, default) ==> r == Success(x)
    ensures r.Failure? ==> r.error == ValueError(name)
  {
    if name !in raw then Success(default)
    else match raw[name]
      case Dict(m) =>
        if forall k :: k in m ==> m[k].Leaf? && m[k].v.Str? then
          var x := map k | k in m :: m[k].v.s;
          assert StrMapNode(x) == Dict(m) by {
            assert StrMapNode(x).entries == m;
          }
          StrMapNodeInjective(x);
          Success(x)
        else Failure(ValueError(name))
      case _ => StrMapNodeInjective(default); Failure(ValueError(name))
  }

  /** The mapping a section describes is the only one with that node. */
  lemma IntMapNodeInjective(x: map<string, int>)
    ensures forall y :: IntMapNode(y) == IntMapNode(x) ==> y == x
    ensures forall k :: k in IntMapNode(x).entries ==> IntMapNode(x).entries[k].Leaf? && IntMapNode(x).entries[k].v.Int?
  {
    forall y | IntMapNode(y) == IntMapNode(x) ensures y == x {
      assert y.Keys == IntMapNode(y).entries.Keys;
      forall k | k in y ensures y[k] == x[k] {
        assert IntMapNode(y).entries[k] == Leaf(Int(y[k]));
      }
    }
  }

  lemma StrMapNodeInjective(x: map<string, string>)
    ensures forall y :: StrMapNode(y) == StrMapNode(x) ==> y == x
    ensures forall k :: k in StrMapNode(x).entries ==> StrMapNode(x).entries[k].Leaf? && StrMapNode(x).entries[k].v.Str?
  {
    forall y | StrMapNode(y) == StrMapNode(x) ensures y == x {
      assert y.Keys == StrMapNode(y).entries.Keys;
      forall k | k in y ensures y[k] == x[k] {
        assert StrMapNode(y).entries[k] == Leaf(Str(y[k]));
      }
    }
  }

  /** `c` is the API model the section describes, defaults filling the absent fields. */
  predicate ApiFrom(raw: map<string, Node>, c: ApiConfig) {
    IntFrom(raw, "timeout", c.timeout, DefaultApi.timeout) &&
    IntFrom(raw, "retries", c.retries, DefaultApi.retries) &&
    IntFrom(raw, "rate_limit", c.rateLimit, DefaultApi.rateLimit)
  }

  predicate DatabaseFrom(raw: map<string, Node>, c: DatabaseConfig) {
    StrFrom(raw, "host", c.host, DefaultDatabase.host) &&
    IntFrom(raw, "port", c.port, DefaultDatabase.port) &&
    StrFrom(raw, "name", c.name, DefaultDatabase.name) &&
    StrMapFrom(raw, "collections", c.collections, DefaultDatabase.collections)
  }

  predicate StrategyFrom(raw: map<string, Node>, c: StrategyConfig) {
    IntMapFrom(raw, "moving_averages", c.movingAverages, DefaultStrategy.movingAverages) &&
    IntMapFrom(raw, "rsi", c.rsi, DefaultStrategy.rsi) &&
    IntMapFrom(raw, "macd", c.macd, DefaultStrategy.macd)
  }

  predicate MlFrom(raw: map<string, Node>, c: MlConfig) {
    StrFrom(raw, "model_dir", c.modelDir, DefaultMl.modelDir) &&
    RealFrom(raw, "train_test_split", c.trainTestSplit, DefaultMl.trainTestSplit) &&
    RealFrom(raw, "validation_split", c.validationSplit, DefaultMl.validationSplit) &&
    IntFrom(raw, "batch_size", c.batchSize, DefaultMl.batchSize) &&
    IntFrom(raw, "epochs", c.epochs, DefaultMl.epochs) &&
    IntFrom(raw, "early_stopping_patience", c.earlyStoppingPatience, DefaultMl.earlyStoppingPatience)
  }

  /**
   * APIConfig(**section): the model the section describes when it keeps the
   * rules; a ValueError otherwise.
   */
  function BuildApi(raw: map<string, Node>): (r: Result<ApiConfig, Error>)
    ensures r.Success? ==> ApiFrom(raw, r.value) && ApiRules(r.value)
    ensures forall c :: ApiFrom(raw, c) && ApiRules(c) ==> r == Success(c)
    ensures r.Failure? ==> r.error.ValueError?
  {
    var timeout :- IntField(raw, "timeout", DefaultApi.timeout);
    var retries :- IntField(raw, "retries", DefaultApi.retries);
    var rateLimit :- IntField(raw, "rate_limit", DefaultApi.rateLimit);
    MakeApiConfig(timeout, retries, rateLimit)
  }

  /** DatabaseConfig(**section). */
  function BuildDatabase(raw: map<string, Node>): (r: Result<DatabaseConfig, Error>)
    ensures r.Success? ==> DatabaseFrom(raw, r.value) && DatabaseRules(r.value)
    ensures forall c :: DatabaseFrom(raw, c) && DatabaseRules(c) ==> r == Success(c)
    ensures r.Failure? ==> r.error.ValueError?
  {
    var host :- StrField(raw, "host", DefaultDatabase.host);
    var port :- IntField(raw, "port", DefaultDatabase.port);
    var name :- StrField(raw, "name", DefaultDatabase.name);
    var collections :- StrMapField(raw, "collections", DefaultDatabase.collections);
    MakeDatabaseConfig(host, port, name, collections)
  }

  /** Both windows are present, so the moving-average validator can index them. */
  predicate HasWindows(movingAverages: map<string, int>) {
    "short_window" in movingAverages && "long_window" in movingAverages
  }

  /**
   * StrategyConfig(**section). Fields are validated in declaration order, and the
   * moving-average validator runs right after its own field, before rsi and macd.
   * A KeyError it raises is not collected as a validation error but propagates at
   * once. The validator runs only on a value that was supplied, never on the default.
   */
  function BuildStrategy(raw: map<string, Node>): (r: Result<StrategyConfig, Error>)
    ensures r.Success? ==> StrategyFrom(raw, r.value) && StrategyRules(r.value)
    ensures forall c :: StrategyFrom(raw, c) && StrategyRules(c) ==> r == Success(c)
    ensures r.Failure? ==> r.error.ValueError? || r.error.KeyError?
    ensures r.Failure? ==>
      (r.error.KeyError? <==> var ma := IntMapField(raw, "moving_averages", DefaultStrategy.movingAverages); ma.Success? && !HasWindows(ma.value))
  {
    var movingAverages :- IntMapField(raw, "moving_averages", DefaultStrategy.movingAverages);
    var _ :- if "short_window" !in movingAverages then Failure(KeyError("short_window"))
             else if "long_window" !in movingAverages then Failure(KeyError("long_window"))
             else Success(());
    var rsi :- IntMapField(raw, "rsi", DefaultStrategy.rsi);
    var macd :- IntMapField(raw, "macd", DefaultStrategy.macd);
    MakeStrategyConfig(movingAverages, rsi, macd)
  }

  /** A missing window raises KeyError even when a later field is malformed too. */
  lemma KeyErrorBeforeLaterFields()
    ensures BuildStrategy(map[
      "moving_averages" := Dict(map["long_window" := Leaf(Int(5))]),
      "rsi" := Leaf(Str("x"))]) == Failure(KeyError("short_window"))
  {
    var raw := map["moving_averages" := Dict(map["long_window" := Leaf(Int(5))]), "rsi" := Leaf(Str("x"))];
    assert IntMapField(raw, "moving_averages", DefaultStrategy.movingAverages) == Success(map["long_window" := 5]) by {
      assert IntMapNode(map["long_window" := 5]).entries == raw["moving_averages"].entries;
    }
  }

  /** MLConfig(**section); only the integer rules are checked. */
  function BuildMl(raw: map<string, Node>): (r: Result<MlConfig, Error>)
    ensures r.Success? ==> MlFrom(raw, r.value) && MlRules(r.value)
    ensures forall c :: MlFrom(raw, c) && MlRules(c) ==> r == Success(c)
    ensures r.Failure? ==> r.error.ValueError?
  {
    var modelDir :- StrField(raw, "model_dir", DefaultMl.modelDir);
    var trainTestSplit :- RealField(raw, "train_test_split", DefaultMl.trainTestSplit);
    var validationSplit :- RealField(raw, "validation_split", DefaultMl.validationSplit);
    var batchSize :- IntField(raw, "batch_size", DefaultMl.batchSize);
    var epochs :- IntField(raw, "epochs", DefaultMl.epochs);
    var patience :- IntField(raw, "early_stopping_patience", DefaultMl.earlyStoppingPatience);
    MakeMlConfig(modelDir, trainTestSplit, validationSplit, batchSize, epochs, patience)
  }

  /** raw_config.get(name, {}) unpacked with `**`: absent is empty, and anything but a mapping is a TypeError. */
  function Section(raw: map<string, Node>, name: string): (r: Result<map<string, Node>, Error>)
    ensures r.Success? <==> (name in raw ==> raw[name].Dict?)
    ensures r.Success? ==> Dict(r.value) == SectionOrEmpty(raw, name)
    ensures r.Failure? ==> r.error == TypeError(name)
  {
    if name !in raw then Success(map[])
    else match raw[name]
      case Dict(m) => Success(m)
      case _ => Failure(TypeError(name))
  }

  /** raw_config.get(name, {}) kept as it is. */
  function SectionOrEmpty(raw: map<string, Node>, name: string): (r: Node)
    ensures name in raw ==> r == raw[name]
    ensures name !in raw ==> r == Dict(map[])
  {
    if name in raw then raw[name] else Dict(map[])
  }

  /**
   * `c` is the configuration the document describes: each model built from its
   * section, the other four sections kept as they are.
   */
  predicate FromDocument(raw: map<string, Node>, c: LoadedConfig) {
    Section(raw, "api").Success? && ApiFrom(Section(raw, "api").value, c.api) &&
    Section(raw, "database").Success? && DatabaseFrom(Section(raw, "database").value, c.database) &&
    Section(raw, "strategy").Success? && StrategyFrom(Section(raw, "strategy").value, c.strategy) &&
    Section(raw, "ml").Success? && MlFrom(Section(raw, "ml").value, c.ml) &&
    c.data == SectionOrEmpty(raw, "data") && c.backtest == SectionOrEmpty(raw, "backtest") &&
    c.logging == SectionOrEmpty(raw, "logging") && c.visualization == SectionOrEmpty(raw, "visualization")
  }

  /**
   * _load_config: a missing file gives the defaults; any other failure to read the
   * file is raised; a document that is not a mapping has no `get`; otherwise the
   * configuration the document describes, when it keeps every rule.
   */
  function LoadConfig(root: string, file: ConfigFile): (r: Result<LoadedConfig, Error>)
    ensures file.Missing? ==> r == Success(DefaultConfig(root))
    ensures file.Unreadable? ==> r == Failure(FileError)
    ensures file.Parsed? && !file.doc.Dict? ==> r.Failure? && r.error.AttributeError?
    ensures file.Parsed? && file.doc.Dict? && r.Success? ==> FromDocument(file.doc.entries, r.value)
    ensures file.Parsed? && file.doc.Dict? ==>
      forall c :: FromDocument(file.doc.entries, c) && ConfigRules(c) ==> r == Success(c)
    ensures file.Parsed? && file.doc.Dict? && r.Failure? ==> r.error.ValueError? || r.error.KeyError? || r.error.TypeError?
    ensures r.Success? ==> ConfigRules(r.value)
  {
    match file
    case Missing => DefaultsAreValid(root); Success(DefaultConfig(root))
    case Unreadable => Failure(FileError)
    case Parsed(Dict(raw)) =>
      var apiRaw :- Section(raw, "api");
      var api :- BuildApi(apiRaw);
      var databaseRaw :- Section(raw, "database");
      var database :- BuildDatabase(databaseRaw);
      var strategyRaw :- Section(raw, "strategy");
      var strategy :- BuildStrategy(strategyRaw);
      var mlRaw :- Section(raw, "ml");
      var ml :- BuildMl(mlRaw);
      Success(LoadedConfig(api, database, strategy, ml,
        SectionOrEmpty(raw, "data"), SectionOrEmpty(raw, "backtest"),
        SectionOrEmpty(raw, "logging"), SectionOrEmpty(raw, "visualization")))
    case Parsed(_) => Failure(AttributeError("get"))
  }

  /** The default configuration satisfies every rule, with the documented API and database values. */
  lemma DefaultsAreValid(root: string)
    ensures ConfigRules(DefaultConfig(root))
    ensures DefaultConfig(root).api.timeout == 10 && DefaultConfig(root).api.retries == 3
    ensures DefaultConfig(root).database.host == "localhost" && DefaultConfig(root).database.port == 27017
  {
  }

  /** The sections of the configuration-loading test's document; some fields are left to their defaults. */
  function TestApiSection(): map<string, Node> {
    map["timeout" := Leaf(Int(5)), "retries" := Leaf(Int(2)), "rate_limit" := Leaf(Int(1000))]
  }

  function TestDatabaseSection(): map<string, Node> {
    map[
      "host" := Leaf(Str("test_host")),
      "port" := Leaf(Int(27018)),
      "name" := Leaf(Str("test_db")),
      "collections" := Dict(map["raw_data" := Leaf(Str("test_raw")), "processed_data" := Leaf(Str("test_processed"))])]
  }

  function TestStrategySection(): map<string, Node> {
    map[
      "moving_averages" := Dict(map["short_window" := Leaf(Int(10)), "long_window" := Leaf(Int(30))]),
      "rsi" := Dict(map["period" := Leaf(Int(14)), "overbought" := Leaf(Int(70)), "oversold" := Leaf(Int(30))])]
  }

  function TestMlSection(): map<string, Node> {
    map[
      "model_dir" := Leaf(Str("test_models/")),
      "train_test_split" := Leaf(Real(0.7)),
      "validation_split" := Leaf(Real(0.15)),
      "batch_size" := Leaf(Int(64)),
      "epochs" := Leaf(Int(50))]
  }

  function LoadingTestDocument(): Node {
    Dict(map[
      "api" := Dict(TestApiSection()),
      "database" := Dict(TestDatabaseSection()),
      "strategy" := Dict(TestStrategySection()),
      "ml" := Dict(TestMlSection())])
  }

  /** The configuration the loading test's document describes. */
  function LoadingTestConfig(): LoadedConfig {
    LoadedConfig(
      ApiConfig(5, 2, 1000),
      DatabaseConfig("test_host", 27018, "test_db", map["raw_data" := "test_raw", "processed_data" := "test_processed"]),
      StrategyConfig(map["short_window" := 10, "long_window" := 30], map["period" := 14, "overbought" := 70, "oversold" := 30], DefaultStrategy.macd),
      MlConfig("test_models/", 0.7, 0.15, 64, 50, DefaultMl.earlyStoppingPatience),
      Dict(map[]), Dict(map[]), Dict(map[]), Dict(map[]))
  }

  /** The api section of the document is read as written. */
  lemma TestApiRead()
    ensures Section(LoadingTestDocument().entries, "api") == Success(TestApiSection())
    ensures ApiFrom(TestApiSection(), LoadingTestConfig().api)
  {
    assert LoadingTestDocument().entries["api"] == Dict(TestApiSection());
  }

  lemma TestDatabaseRead()
    ensures Section(LoadingTestDocument().entries, "database") == Success(TestDatabaseSection())
    ensures DatabaseFrom(TestDatabaseSection(), LoadingTestConfig().database)
  {
    var c := LoadingTestConfig().database;
    assert LoadingTestDocument().entries["database"] == Dict(TestDatabaseSection());
    assert StrMapNode(c.collections) == TestDatabaseSection()["collections"] by {
      assert StrMapNode(c.collections).entries == TestDatabaseSection()["collections"].entries;
    }
  }

  lemma TestStrategyRead()
    ensures Section(LoadingTestDocument().entries, "strategy") == Success(TestStrategySection())
    ensures StrategyFrom(TestStrategySection(), LoadingTestConfig().strategy)
  {
    assert LoadingTestDocument().entries["strategy"] == Dict(TestStrategySection());
    TestWindowsRead();
    TestRsiRead();
  }

  lemma TestWindowsRead()
    ensures IntMapFrom(TestStrategySection(), "moving_averages", LoadingTestConfig().strategy.movingAverages, DefaultStrategy.movingAverages)
  {
    assert IntMapNode(LoadingTestConfig().strategy.movingAverages).entries == TestStrategySection()["moving_averages"].entries;
  }

  lemma TestRsiRead()
    ensures IntMapFrom(TestStrategySection(), "rsi", LoadingTestConfig().strategy.rsi, DefaultStrategy.rsi)
  {
    assert IntMapNode(LoadingTestConfig().strategy.rsi).entries == TestStrategySection()["rsi"].entries;
  }

  lemma TestMlRead()
    ensures Section(LoadingTestDocument().entries, "ml") == Success(TestMlSection())
    ensures MlFrom(TestMlSection(), LoadingTestConfig().ml)
  {
    assert LoadingTestDocument().entries["ml"] == Dict(TestMlSection());
  }

  /** Each section of the document is read as it is written. */
  lemma TestSections()
    ensures FromDocument(LoadingTestDocument().entries, LoadingTestConfig())
  {
    TestApiRead();
    TestDatabaseRead();
    TestStrategyRead();
    TestMlRead();
    TestOtherSections();
  }

  lemma TestOtherSections()
    ensures LoadingTestConfig().data == SectionOrEmpty(LoadingTestDocument().entries, "data")
    ensures LoadingTestConfig().backtest == SectionOrEmpty(LoadingTestDocument().entries, "backtest")
    ensures LoadingTestConfig().logging == SectionOrEmpty(LoadingTestDocument().entries, "logging")
    ensures LoadingTestConfig().visualization == SectionOrEmpty(LoadingTestDocument().entries, "visualization")
  {
  }

  /** Loading that document gives exactly its values, with the macd windows and the patience left at their defaults. */
  lemma LoadingTestValues(root: string)
    ensures LoadConfig(root, Parsed(LoadingTestDocument())) == Success(LoadingTestConfig())
  {
    TestSections();
    LoadsDescribed(root, LoadingTestDocument().entries, LoadingTestConfig());
  }

  /** A document that describes a configuration keeping every rule loads as exactly that configuration. */
  lemma LoadsDescribed(root: string, raw: map<string, Node>, c: LoadedConfig)
    requires FromDocument(raw, c) && ConfigRules(c)
    ensures LoadConfig(root, Parsed(Dict(raw))) == Success(c)
  {
    var file := Parsed(Dict(raw));
    assert file.doc.entries == raw;
  }

  // ---------------------------------------------------------------------------
  // Dotted access

  function ApiFields(c: ApiConfig): map<string, Node> {
    map["timeout" := Leaf(Int(c.timeout)), "retries" := Leaf(Int(c.retries)), "rate_limit" := Leaf(Int(c.rateLimit))]
  }

  function DatabaseFields(c: DatabaseConfig): map<string, Node> {
    map[
      "host" := Leaf(Str(c.host)),
      "port" := Leaf(Int(c.port)),
      "name" := Leaf(Str(c.name)),
      "collections" := StrMapNode(c.collections)]
  }

  function StrategyFields(c: StrategyConfig): map<string, Node> {
    map[
      "moving_averages" := IntMapNode(c.movingAverages),
      "rsi" := IntMapNode(c.rsi),
      "macd" := IntMapNode(c.macd)]
  }

  function MlFields(c: MlConfig): map<string, Node> {
    map[
      "model_dir" := Leaf(Str(c.modelDir)),
      "train_test_split" := Leaf(Real(c.trainTestSplit)),
      "validation_split" := Leaf(Real(c.validationSplit)),
      "batch_size" := Leaf(Int(c.batchSize)),
      "epochs" := Leaf(Int(c.epochs)),
      "early_stopping_patience" := Leaf(Int(c.earlyStoppingPatience))]
  }

  /** self._config: a dictionary whose first four entries are model objects. */
  function Tree(c: LoadedConfig): map<string, Node> {
    map[
      "api" := Obj(ApiFields(c.api)),
      "database" := Obj(DatabaseFields(c.database)),
      "strategy" := Obj(StrategyFields(c.strategy)),
      "ml" := Obj(MlFields(c.ml)),
      "data" := c.data,
      "backtest" := c.backtest,
      "logging" := c.logging,
      "visualization" := c.visualization]
  }

  /**
   * The traversal of get: a dictionary rebinds the cursor to the entry or, when the
   * key is missing, to `default`, and goes on; a model object steps into the
   * attribute or returns `default`; anything else returns `default`.
   */
  function Resolve(n: Node, path: seq<string>, default: Node): Node
    decreases |path|
  {
    if path == [] then n
    else match n
      case Dict(m) => Resolve(if path[0] in m then m[path[0]] else default, path[1..], default)
      case Obj(f) => if path[0] in f then Resolve(f[path[0]], path[1..], default) else default
      case Leaf(_) => default
  }

  /** Along a chain of dictionaries get returns the stored value. */
  lemma {:induction false} ResolveFound(n: Node, path: seq<string>, default: Node, x: Node)
    requires Find(n, path) == Some(x)
    ensures Resolve(n, path, default) == x
    decreases |path|
  {
    if path != [] {
      ResolveFound(n.entries[path[0]], path[1..], default, x);
    }
  }

  /** A missing segment followed by more segments: with a scalar default, get returns the default. */
  lemma MissingSegmentGivesDefault(m: map<string, Node>, path: seq<string>, default: Node)
    requires |path| >= 1 && path[0] !in m && default.Leaf?
    ensures Resolve(Dict(m), path, default) == default
  {
  }

  /** A dictionary default is walked into by the remaining segments, as the loop is written. */
  lemma MissingSegmentEntersDefault(m: map<string, Node>, path: seq<string>, default: Node)
    requires |path| >= 1 && path[0] !in m
    ensures Resolve(Dict(m), path, default) == Resolve(default, path[1..], default)
  {
  }

  /** The dotted key `api.timeout` reaches the timeout field of the API model object. */
  lemma ApiTimeoutByDottedKey(c: LoadedConfig, default: Node)
    ensures Resolve(Dict(Tree(c)), Split("api.timeout"), default) == Leaf(Int(c.api.timeout))
  {
    SplitTwo("api", "timeout");
    assert "api" + "." + "timeout" == "api.timeout";
    var t := Tree(c);
    assert t["api"] == Obj(ApiFields(c.api));
    assert ["api", "timeout"][1..] == ["timeout"] && ["timeout"][1..] == [];
    assert Resolve(Dict(t), ["api", "timeout"], default) == Resolve(t["api"], ["timeout"], default);
    assert Resolve(t["api"], ["timeout"], default) == Resolve(Leaf(Int(c.api.timeout)), [], default);
  }

  /** The dotted key `database.host` reaches the host field of the database model object. */
  lemma DatabaseHostByDottedKey(c: LoadedConfig, default: Node)
    ensures Resolve(Dict(Tree(c)), Split("database.host"), default) == Leaf(Str(c.database.host))
  {
    SplitTwo("database", "host");
    assert "database" + "." + "host" == "database.host";
    var t := Tree(c);
    assert t["database"] == Obj(DatabaseFields(c.database));
    assert ["database", "host"][1..] == ["host"] && ["host"][1..] == [];
    assert Resolve(Dict(t), ["database", "host"], default) == Resolve(t["database"], ["host"], default);
    assert Resolve(t["database"], ["host"], default) == Resolve(Leaf(Str(c.database.host)), [], default);
  }

  /** `nonexistent.key` with a scalar default gives that default. */
  lemma NonexistentKeyGivesDefault(c: LoadedConfig, default: Node)
    requires default.Leaf?
    ensures Resolve(Dict(Tree(c)), Split("nonexistent.key"), default) == default
  {
    SplitTwo("nonexistent", "key");
    assert "nonexistent" + "." + "key" == "nonexistent.key";
    var t := Tree(c);
    assert "nonexistent" !in t;
    assert ["nonexistent", "key"][1..] == ["key"];
    assert Resolve(Dict(t), ["nonexistent", "key"], default) == Resolve(default, ["key"], default);
  }

  lemma SplitTwo(a: string, b: string)
    requires '.' !in a && '.' !in b
    ensures Split(a + "." + b) == [a, b]
  {
    SplitJoin([a, b]);
    assert Join([a, b]) == a + "." + Join([b]);
  }

  class ConfigManager {
    var config: LoadedConfig

    ghost predicate Valid()
      reads this
    {
      ConfigRules(config)
    }

    constructor(loaded: LoadedConfig)
      requires ConfigRules(loaded)
      ensures Valid() && config == loaded
    {
      config := loaded;
    }

    /** ConfigManager(config_path): loads the file, or raises what _load_config raises. */
    static method Create(root: string, file: ConfigFile) returns (r: Result<ConfigManager, Error>)
      ensures r.Failure? <==> LoadConfig(root, file).Failure?
      ensures r.Failure? ==> r.error == LoadConfig(root, file).error
      ensures r.Success? ==> fresh(r.value) && r.value.Valid() && r.value.config == LoadConfig(root, file).value
    {
      var loaded := LoadConfig(root, file);
      if loaded.Failure? {
        return Failure(loaded.error);
      }
      var manager := new ConfigManager(loaded.value);
      r := Success(manager);
    }

    /** get: the loop over the dotted segments. */
    method Get(key: string, default: Node) returns (v: Node)
      ensures v == Resolve(Dict(Tree(config)), Split(key), default)
    {
      var keys := Split(key);
      v := Dict(Tree(config));
      var i := 0;
      while i < |keys|
        invariant 0 <= i <= |keys|
        invariant Resolve(Dict(Tree(config)), keys, default) == Resolve(v, keys[i..], default)
      {
        match v {
          case Dict(m) =>
            v := if keys[i] in m then m[keys[i]] else default;
          case Obj(f) =>
            if keys[i] !in f {
              return default;
            }
            v := f[keys[i]];
          case Leaf(_) =>
            return default;
        }
        i := i + 1;
      }
    }

    /** get_api_config. */
    function GetApiConfig(): (c: ApiConfig)
      reads this
      requires Valid()
      ensures ApiRules(c)
    {
      config.api
    }

    /** get_database_config. */
    function GetDatabaseConfig(): (c: DatabaseConfig)
      reads this
      requires Valid()
      ensures DatabaseRules(c)
    {
      config.database
    }

    /** get_strategy_config. */
    function GetStrategyConfig(): (c: StrategyConfig)
      reads this
      requires Valid()
      ensures StrategyRules(c)
    {
      config.strategy
    }

    /** get_ml_config. */
    function GetMlConfig(): (c: MlConfig)
      reads this
      requires Valid()
      ensures MlRules(c)
    {
      config.ml
    }
  }

  /** test_default_config: without a file the defaults are loaded, timeout 10, retries 3, localhost:27017. */
  method DefaultsWhenFileMissing(root: string) returns (api: ApiConfig, database: DatabaseConfig)
    ensures api.timeout == 10 && api.retries == 3
    ensures database.host == "localhost" && database.port == 27017
  {
    var r := ConfigManager.Create(root, Missing);
    DefaultsAreValid(root);
    var manager := r.value;
    api := manager.GetApiConfig();
    database := manager.GetDatabaseConfig();
  }

  /** test_config_loading: the models hold the file's values. */
  method ValuesFromFile(root: string) returns (api: ApiConfig, database: DatabaseConfig, strategy: StrategyConfig, ml: MlConfig)
    ensures api.timeout == 5 && api.retries == 2 && api.rateLimit == 1000
    ensures database.host == "test_host" && database.port == 27018 && database.name == "test_db"
    ensures strategy.movingAverages == map["short_window" := 10, "long_window" := 30]
    ensures ml.trainTestSplit == 0.7 && ml.validationSplit == 0.15 && ml.batchSize == 64
  {
    LoadingTestValues(root);
    var r := ConfigManager.Create(root, Parsed(LoadingTestDocument()));
    var manager := r.value;
    api := manager.GetApiConfig();
    database := manager.GetDatabaseConfig();
    strategy := manager.GetStrategyConfig();
    ml := manager.GetMlConfig();
  }
}
