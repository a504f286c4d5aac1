/**
 * The plain configuration holder of src/utils/config.py: the parsed YAML document
 * as it is, or built-in defaults when the file is missing, read by dotted keys.
 */
module PlainConfig {
  import opened Wrappers
  import opened ConfigTree

  /** _get_default_config, with the repository root `root` joined into the paths. */
  function Defaults(root: string): map<string, Node> {
    map[
      "data" := Dict(map[
        "raw_data_dir" := Leaf(Str(root + "/data/raw")),
        "processed_data_dir" := Leaf(Str(root + "/data/processed")),
        "cache_dir" := Leaf(Str(root + "/data/cache"))]),
      "backtest" := Dict(map[
        "initial_capital" := Leaf(Real(100000.0)),
        "commission" := Leaf(Real(0.001)),
        "slippage" := Leaf(Real(0.0005))]),
      "logging" := Dict(map[
        "level" := Leaf(Str("INFO")),
        "file" := Leaf(Str(root + "/logs/trading.log"))]),
      "api" := Dict(map[
        "yfinance" := Dict(map[
          "timeout" := Leaf(Int(10)),
          "retries" := Leaf(Int(3))])])
    ]
  }

  /**
   * _load_config: the document as parsed (an empty file parses to None), the
   * defaults when the file is missing; any other failure to read it is raised.
   */
  function Load(root: string, file: ConfigFile): (r: Option<Node>)
    ensures file.Missing? ==> r == Some(Dict(Defaults(root)))
    ensures file.Parsed? ==> r == Some(file.doc)
    ensures file.Unreadable? ==> r.None?
  {
    match file
    case Missing => Some(Dict(Defaults(root)))
    case Parsed(doc) => Some(doc)
    case Unreadable => None
  }

  /**
   * The loop of get: a dictionary rebinds the cursor to the entry, or to `default`
   * when the key is missing, and goes on; anything else returns `default`.
   */
  function Lookup(n: Node, path: seq<string>, default: Node): Node
    decreases |path|
  {
    if path == [] then n
    else match n
      case Dict(m) => Lookup(if path[0] in m then m[path[0]] else default, path[1..], default)
      case _ => default
  }

  /** Along a chain of dictionaries get returns the stored value. */
  lemma {:induction false} LookupFound(n: Node, path: seq<string>, default: Node, x: Node)
    requires Find(n, path) == Some(x)
    ensures Lookup(n, path, default) == x
    decreases |path|
  {
    if path != [] {
      LookupFound(n.entries[path[0]], path[1..], default, x);
    }
  }

  /** Reaching a non-dictionary with segments still to go gives `default`. */
  lemma {:induction false} LookupThroughScalar(n: Node, path: seq<string>, j: nat, default: Node)
    requires j < |path| && Find(n, path[..j]).Some? && !Find(n, path[..j]).value.Dict?
    ensures Lookup(n, path, default) == default
    decreases j
  {
    if j > 0 {
      assert path[..j][0] == path[0] && path[..j][1..] == path[1..][..j - 1];
      LookupThroughScalar(n.entries[path[0]], path[1..], j - 1, default);
    }
  }

  /** A missing segment makes `default` the cursor; when `default` is not a dictionary the result is `default`. */
  lemma {:induction false} LookupMissing(n: Node, path: seq<string>, j: nat, default: Node)
    requires j < |path| && Find(n, path[..j]).Some? && Find(n, path[..j]).value.Dict?
    requires path[j] !in Find(n, path[..j]).value.entries
    requires !default.Dict?
    ensures Lookup(n, path, default) == default
    decreases j
  {
    if j > 0 {
      assert path[..j][0] == path[0] && path[..j][1..] == path[1..][..j - 1];
      LookupMissing(n.entries[path[0]], path[1..], j - 1, default);
    } else {
      assert Find(n, path[..0]) == Some(n);
    }
  }

  /** Without a file, the defaults hold the data, backtest and logging sections and api.yfinance with timeout 10 and retries 3. */
  lemma DefaultSections(root: string)
    ensures {"data", "backtest", "logging", "api"} <= Defaults(root).Keys
    ensures Find(Dict(Defaults(root)), ["api", "yfinance", "timeout"]) == Some(Leaf(Int(10)))
    ensures Find(Dict(Defaults(root)), ["api", "yfinance", "retries"]) == Some(Leaf(Int(3)))
    ensures Find(Dict(Defaults(root)), ["data", "raw_data_dir"]) == Some(Leaf(Str(root + "/data/raw")))
  {
  }

  class Config {
    var config: Node

    constructor(doc: Node)
      ensures config == doc
    {
      config := doc;
    }

    /** Config(config_path): loads the file, or raises what _load_config raises. */
    static method Create(root: string, file: ConfigFile) returns (r: Option<Config>)
      ensures r.Some? <==> Load(root, file).Some?
      ensures r.Some? ==> fresh(r.value) && r.value.config == Load(root, file).value
    {
      var loaded := Load(root, file);
      if loaded.None? {
        return None;
      }
      var c := new Config(loaded.value);
      r := Some(c);
    }

    /** get: the loop over the dotted segments; it has no modifies clause, so the tree is left as it was. */
    method Get(key: string, default: Node) returns (v: Node)
      ensures v == Lookup(config, Split(key), default)
    {
      var keys := Split(key);
      v := config;
      var i := 0;
      while i < |keys|
        invariant 0 <= i <= |keys|
        invariant Lookup(config, keys, default) == Lookup(v, keys[i..], default)
      {
        match v {
          case Dict(m) =>
            v := if keys[i] in m then m[keys[i]] else default;
          case _ =>
            return default;
        }
        i := i + 1;
      }
    }
  }
}
