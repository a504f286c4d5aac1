/**
 * The dictionary-backed configuration manager of src/trading/utils/config.py:
 * built-in defaults with the YAML file deep-merged over them, dotted-key reads
 * that fall back to a default, and dotted-key writes that create missing
 * intermediate dictionaries.
 */
module DictConfig {
  import opened Wrappers
  import opened ConfigTree

  /** The built-in configuration; `apiKey` is what ALPHA_VANTAGE_API_KEY held ("" when unset). */
  function Defaults(apiKey: string): map<string, Node> {
    map[
      "api" := Dict(map[
        "alpha_vantage" := Dict(map[
          "api_key" := Leaf(Str(apiKey)),
          "base_url" := Leaf(Str("https://www.alphavantage.co/query")),
          "rate_limit" := Dict(map[
            "calls_per_minute" := Leaf(Int(5)),
            "calls_per_day" := Leaf(Int(500))])])]),
      "data" := Dict(map[
        "raw_data_dir" := Leaf(Str("data/raw")),
        "processed_data_dir" := Leaf(Str("data/processed")),
        "cache_dir" := Leaf(Str("data/cache"))]),
      "logging" := Dict(map[
        "level" := Leaf(Str("INFO")),
        "format" := Leaf(Str("{time:YYYY-MM-DD HH:mm:ss.SSS} | {level} | {message}")),
        "file" := Leaf(Str("logs/trading.log"))])
    ]
  }

  /**
   * update_dict(d, u): every entry of `u` overrides the entry of `d`, except that
   * where both sides hold a dictionary the two are merged recursively.
   */
  function Merge(d: map<string, Node>, u: map<string, Node>): map<string, Node>
    decreases Dict(u)
  {
    map k | k in d.Keys + u.Keys ::
      if k in u then
        if u[k].Dict? && k in d && d[k].Dict? then
          assert u[k] in u.Values;
          Dict(Merge(d[k].entries, u[k].entries))
        else u[k]
      else d[k]
  }

  /** The configuration after loading: defaults, with the file merged in only when it parsed to a non-empty mapping. */
  function Loaded(apiKey: string, file: ConfigFile): map<string, Node> {
    if file.Parsed? && file.doc.Dict? && |file.doc.entries| > 0 then
      Merge(Defaults(apiKey), file.doc.entries)
    else
      Defaults(apiKey)
  }

  /** The three entry-level rules of update_dict. */
  lemma MergeEntries(d: map<string, Node>, u: map<string, Node>)
    ensures Merge(d, u).Keys == d.Keys + u.Keys
    ensures forall k :: k in d && k !in u ==> Merge(d, u)[k] == d[k]
    ensures forall k :: k in u && k in d && u[k].Dict? && d[k].Dict? ==>
      Merge(d, u)[k] == Dict(Merge(d[k].entries, u[k].entries))
    ensures forall k :: k in u && !(k in d && u[k].Dict? && d[k].Dict?) ==> Merge(d, u)[k] == u[k]
  {
  }

  /** Merging a tree into itself changes nothing. */
  lemma {:induction false} MergeSelf(d: map<string, Node>)
    ensures Merge(d, d) == d
    decreases Dict(d)
  {
    var r := Merge(d, d);
    forall k | k in d ensures r[k] == d[k] {
      if d[k].Dict? {
        assert d[k] in d.Values;
        MergeSelf(d[k].entries);
      }
    }
    assert r == d;
  }

  /** update_dict is idempotent: merging the same update twice is merging it once. */
  lemma {:induction false} MergeIdempotent(d: map<string, Node>, u: map<string, Node>)
    ensures Merge(Merge(d, u), u) == Merge(d, u)
    decreases Dict(u)
  {
    var r := Merge(d, u);
    var rr := Merge(r, u);
    forall k | k in u ensures rr[k] == r[k] {
      assert u[k] in u.Values;
      if u[k].Dict? {
        if k in d && d[k].Dict? {
          MergeIdempotent(d[k].entries, u[k].entries);
        } else {
          MergeSelf(u[k].entries);
        }
      }
    }
    assert rr == r;
  }

  /** Every non-dictionary value the update reaches along a path is what the merged tree holds there. */
  lemma {:induction false} MergeOverrides(d: map<string, Node>, u: map<string, Node>, p: seq<string>, x: Node)
    requires Find(Dict(u), p) == Some(x) && !x.Dict?
    ensures Find(Dict(Merge(d, u)), p) == Some(x)
    decreases |p|
  {
    var k := p[0];
    assert k in u;
    if u[k].Dict? && k in d && d[k].Dict? {
      MergeOverrides(d[k].entries, u[k].entries, p[1..], x);
    }
  }

  /**
   * Every proper prefix of `p` is absent from `m` or holds a dictionary: exactly the
   * paths along which `set` and a deep merge can descend.
   */
  ghost predicate PrefixesAreDicts(m: map<string, Node>, p: seq<string>) {
    forall j :: 1 <= j < |p| ==> (Find(Dict(m), p[..j]).None? || Find(Dict(m), p[..j]).value.Dict?)
  }

  lemma PrefixesStep(m: map<string, Node>, p: seq<string>)
    requires |p| >= 1 && p[0] in m && m[p[0]].Dict?
    ensures PrefixesAreDicts(m, p) <==> PrefixesAreDicts(m[p[0]].entries, p[1..])
  {
    var c := m[p[0]].entries;
    forall j | 1 <= j < |p| ensures Find(Dict(m), p[..j]) == Find(Dict(c), p[1..][..j - 1]) {
      assert p[..j][1..] == p[1..][..j - 1];
    }
    if PrefixesAreDicts(m, p) {
      forall j | 1 <= j < |p[1..]|
        ensures Find(Dict(c), p[1..][..j]).None? || Find(Dict(c), p[1..][..j]).value.Dict?
      {
        assert Find(Dict(m), p[..j + 1]) == Find(Dict(c), p[1..][..j]);
      }
    }
  }

  /** A value of the target that the update does not touch along its path survives the merge. */
  lemma {:induction false} MergeKeeps(d: map<string, Node>, u: map<string, Node>, p: seq<string>, x: Node)
    requires Find(Dict(d), p) == Some(x)
    requires Find(Dict(u), p).None? && PrefixesAreDicts(u, p)
    ensures Find(Dict(Merge(d, u)), p) == Some(x)
    decreases |p|
  {
    if p != [] {
      var k := p[0];
      if k in u {
        if |p| == 1 {
          assert false;
        }
        assert p[..1] == [k];
        assert Find(Dict(u), p[..1]) == Some(u[k]);
        PrefixesStep(u, p);
        MergeKeeps(d[k].entries, u[k].entries, p[1..], x);
      }
    }
  }

  /** The default sections are always present after loading, and without a usable file the defaults are all there is. */
  lemma LoadedSections(apiKey: string, file: ConfigFile)
    ensures {"api", "data", "logging"} <= Loaded(apiKey, file).Keys
    ensures !(file.Parsed? && file.doc.Dict? && |file.doc.entries| > 0) ==> Loaded(apiKey, file) == Defaults(apiKey)
  {
    var defaults := Defaults(apiKey);
    assert {"api", "data", "logging"} <= defaults.Keys;
    if file.Parsed? && file.doc.Dict? && |file.doc.entries| > 0 {
      MergeEntries(defaults, file.doc.entries);
    }
  }

  /** The default data directories and API key, as the data manager and the API client read them. */
  lemma DefaultsContent(apiKey: string)
    ensures Find(Dict(Defaults(apiKey)), ["data", "raw_data_dir"]) == Some(Leaf(Str("data/raw")))
    ensures Find(Dict(Defaults(apiKey)), ["data", "processed_data_dir"]) == Some(Leaf(Str("data/processed")))
    ensures Find(Dict(Defaults(apiKey)), ["data", "cache_dir"]) == Some(Leaf(Str("data/cache")))
    ensures Find(Dict(Defaults(apiKey)), ["api", "alpha_vantage", "api_key"]) == Some(Leaf(Str(apiKey)))
  {
  }

  /**
   * set(path, v) on a dictionary: missing intermediate dictionaries are created;
   * None when an intermediate entry exists but is not a dictionary (Python raises TypeError).
   */
  function SetIn(m: map<string, Node>, path: seq<string>, v: Node): (r: Option<map<string, Node>>)
    requires |path| >= 1
    ensures r.Some? ==> r.value.Keys == m.Keys + {path[0]}
    ensures r.Some? ==> forall k :: k in m && k != path[0] ==> r.value[k] == m[k]
    decreases |path|
  {
    if |path| == 1 then Some(m[path[0] := v])
    else
      var child := if path[0] in m then m[path[0]] else Dict(map[]);
      match child
      case Dict(c) =>
        (match SetIn(c, path[1..], v)
         case Some(c2) => Some(m[path[0] := Dict(c2)])
         case None => None)
      case _ => None
  }

  /** After a successful set, reading the same path gives the value set. */
  lemma {:induction false} SetThenFind(m: map<string, Node>, p: seq<string>, v: Node)
    requires |p| >= 1 && SetIn(m, p, v).Some?
    ensures Find(Dict(SetIn(m, p, v).value), p) == Some(v)
    decreases |p|
  {
    if |p| > 1 {
      var c := if p[0] in m then m[p[0]].entries else map[];
      SetThenFind(c, p[1..], v);
    }
  }

  /** A set leaves every path that neither extends nor is extended by its own path as it was. */
  lemma {:induction false} SetFrame(m: map<string, Node>, p: seq<string>, v: Node, q: seq<string>)
    requires |p| >= 1 && SetIn(m, p, v).Some?
    requires !(p <= q) && !(q <= p)
    ensures Find(Dict(SetIn(m, p, v).value), q) == Find(Dict(m), q)
    decreases |p|
  {
    var m2 := SetIn(m, p, v).value;
    if q[0] != p[0] {
    } else {
      assert [p[0]] <= q && [q[0]] <= p;
      assert |p| >= 2 && |q| >= 2;
      assert p[1..] <= q[1..] ==> p <= q;
      assert q[1..] <= p[1..] ==> q <= p;
      var c := if p[0] in m then m[p[0]].entries else map[];
      SetFrame(c, p[1..], v, q[1..]);
      if p[0] !in m {
        assert Find(Dict(c), q[1..]) == None;
      }
    }
  }

  /** Setting along a chain of missing entries always succeeds. */
  lemma {:induction false} SetInFresh(p: seq<string>, v: Node)
    requires |p| >= 1
    ensures SetIn(map[], p, v).Some?
    decreases |p|
  {
    if |p| > 1 {
      SetInFresh(p[1..], v);
    }
  }

  /** set succeeds exactly when every existing proper prefix of the path is a dictionary. */
  lemma {:induction false} SetSucceedsIff(m: map<string, Node>, p: seq<string>, v: Node)
    requires |p| >= 1
    ensures SetIn(m, p, v).Some? <==> PrefixesAreDicts(m, p)
    decreases |p|
  {
    if |p| > 1 {
      var k := p[0];
      assert p[..1] == [k];
      if k !in m {
        SetInFresh(p[1..], v);
        forall j | 1 <= j < |p| ensures Find(Dict(m), p[..j]).None? {
          assert p[..j][0] == k;
        }
      } else if m[k].Dict? {
        PrefixesStep(m, p);
        SetSucceedsIff(m[k].entries, p[1..], v);
      } else {
        assert Find(Dict(m), p[..1]) == Some(m[k]);
      }
    }
  }

  /**
   * Re-inserts `inner` along the trail of dictionaries visited by `set`, the
   * innermost last; None stays None.
   */
  function Plug(trail: seq<map<string, Node>>, keys: seq<string>, inner: Option<map<string, Node>>): Option<map<string, Node>>
    requires |trail| == |keys|
    decreases |trail|
  {
    if trail == [] then inner
    else
      var n := |trail| - 1;
      Plug(trail[..n], keys[..n], match inner case Some(c) => Some(trail[n][keys[n] := Dict(c)]) case None => None)
  }

  lemma {:induction false} PlugNone(trail: seq<map<string, Node>>, keys: seq<string>)
    requires |trail| == |keys|
    ensures Plug(trail, keys, None) == None
    decreases |trail|
  {
    if trail != [] {
      PlugNone(trail[..|trail| - 1], keys[..|trail| - 1]);
    }
  }

  class ConfigManager {
    var config: map<string, Node>

    /** _load_config: the defaults, with the file's mapping merged in when it has one. */
    constructor(apiKey: string, file: ConfigFile)
      ensures config == Loaded(apiKey, file)
    {
      var c := Defaults(apiKey);
      if file.Parsed? && file.doc.Dict? && |file.doc.entries| > 0 {
        c := UpdateDict(c, file.doc.entries);
      }
      config := c;
    }

    /** _update_config. */
    method UpdateConfig(u: map<string, Node>)
      modifies this
      ensures config == Merge(old(config), u)
    {
      config := UpdateDict(config, u);
    }

    /** get: each dotted segment indexes the current dictionary; a missing key or a non-dictionary gives `default`. */
    method Get(key: string, default: Node) returns (r: Node)
      ensures r == Find(Dict(config), Split(key)).GetOr(default)
    {
      var keys := Split(key);
      var cur := Dict(config);
      var i := 0;
      while i < |keys|
        invariant 0 <= i <= |keys|
        invariant Find(Dict(config), keys) == Find(cur, keys[i..])
      {
        match cur {
          case Dict(m) =>
            if keys[i] !in m {
              return default;
            }
            cur := m[keys[i]];
          case _ =>
            return default;
        }
        i := i + 1;
      }
      r := cur;
    }

    /**
     * set: walks the dotted path creating missing dictionaries and assigns the last
     * segment; false (Python's TypeError) when an existing intermediate entry is not
     * a dictionary, in which case nothing has changed.
     */
    method Set(key: string, value: Node) returns (ok: bool)
      modifies this
      ensures ok == SetIn(old(config), Split(key), value).Some?
      ensures config == if ok then SetIn(old(config), Split(key), value).value else old(config)
    {
      var keys := Split(key);
      ghost var goal := SetIn(config, keys, value);
      var trail: seq<map<string, Node>> := [];
      var cur := config;
      var i := 0;
      while i < |keys| - 1
        invariant 0 <= i <= |keys| - 1
        invariant |trail| == i
        invariant goal == Plug(trail, keys[..i], SetIn(cur, keys[i..], value))
      {
        var k := keys[i];
        assert keys[i..][0] == k && keys[i..][1..] == keys[i + 1..];
        var child := if k in cur then cur[k] else Dict(map[]);
        if !child.Dict? {
          PlugNone(trail, keys[..i]);
          return false;
        }
        assert (trail + [cur])[..i] == trail && keys[..i + 1][..i] == keys[..i];
        trail := trail + [cur];
        cur := child.entries;
        i := i + 1;
      }
      assert keys[i..] == [keys[i]];
      var inner := cur[keys[i] := value];
      var j := i;
      assert trail[..j] == trail;
      while j > 0
        invariant 0 <= j <= i
        invariant goal == Plug(trail[..j], keys[..j], Some(inner))
      {
        assert trail[..j][..j - 1] == trail[..j - 1] && keys[..j][..j - 1] == keys[..j - 1];
        j := j - 1;
        inner := trail[j][keys[j] := Dict(inner)];
      }
      config := inner;
      ok := true;
    }

    /** self[key]: get with a None default, so a missing key yields None rather than KeyError. */
    method GetItem(key: string) returns (r: Node)
      ensures r == Find(Dict(config), Split(key)).GetOr(Leaf(Null))
    {
      r := Get(key, Leaf(Null));
    }

    /** self[key] = value: exactly set. */
    method SetItem(key: string, value: Node) returns (ok: bool)
      modifies this
      ensures ok == SetIn(old(config), Split(key), value).Some?
      ensures config == if ok then SetIn(old(config), Split(key), value).value else old(config)
    {
      ok := Set(key, value);
    }
  }

  /** Adding one more entry to an update changes the merge at that key only. */
  lemma MergeAddKey(d: map<string, Node>, done: map<string, Node>, k: string, v: Node)
    requires k !in done
    ensures Merge(d, done[k := v]) ==
      Merge(d, done)[k := if v.Dict? && k in d && d[k].Dict? then Dict(Merge(d[k].entries, v.entries)) else v]
  {
  }

  /** update_dict: the in-place loop over the update's entries, recursing into nested dictionaries. */
  method UpdateDict(d: map<string, Node>, u: map<string, Node>) returns (r: map<string, Node>)
    ensures r == Merge(d, u)
    decreases Dict(u)
  {
    r := d;
    var todo := u.Keys;
    ghost var done: map<string, Node> := map[];
    while todo != {}
      invariant todo <= u.Keys && done.Keys == u.Keys - todo
      invariant forall k' :: k' in done ==> done[k'] == u[k']
      invariant r == Merge(d, done)
      decreases todo
    {
      var k :| k in todo;
      var v := u[k];
      MergeAddKey(d, done, k, v);
      assert k in r <==> k in d;
      assert k in r ==> r[k] == d[k];
      if v.Dict? && k in r && r[k].Dict? {
        assert v in u.Values;
        var sub := UpdateDict(r[k].entries, v.entries);
        r := r[k := Dict(sub)];
      } else {
        r := r[k := v];
      }
      done := done[k := v];
      todo := todo - {k};
    }
    assert done == u;
  }
}
