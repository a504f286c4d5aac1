/**
 * The configuration tree shared by the three configuration loaders: what a YAML
 * document parses to, plus the validated model objects whose fields are read as
 * attributes. Dotted keys are split on '.' into a path of segments.
 */
module ConfigTree {
  import opened Wrappers

  /** A scalar YAML value. */
  datatype Value = Null | Bool(b: bool) | Int(i: int) | Real(r: real) | Str(s: string)

  /**
   * A node of the tree: a dictionary, a validated model object whose attributes
   * are its fields, or a scalar.
   */
  datatype Node = Dict(entries: map<string, Node>) | Obj(fields: map<string, Node>) | Leaf(v: Value)

  /** What opening and parsing the configuration file gave. */
  datatype ConfigFile = Missing | Unreadable | Parsed(doc: Node)

  /** Python's `key.split(".")`. */
  function Split(key: string): (parts: seq<string>)
    ensures |parts| >= 1
    ensures forall i :: 0 <= i < |parts| ==> '.' !in parts[i]
    decreases |key|
  {
    if key == [] then [""]
    else
      var rest := Split(key[1..]);
      if key[0] == '.' then [""] + rest
      else [[key[0]] + rest[0]] + rest[1..]
  }

  /** Python's `".".join(parts)`, the inverse of Split. */
  function Join(parts: seq<string>): string
    requires |parts| >= 1
    decreases |parts|
  {
    if |parts| == 1 then parts[0] else parts[0] + "." + Join(parts[1..])
  }

  predicate NoDots(parts: seq<string>) {
    forall i :: 0 <= i < |parts| ==> '.' !in parts[i]
  }

  /** Splitting a key and joining the segments gives back the key. */
  lemma {:induction false} JoinSplit(key: string)
    ensures Join(Split(key)) == key
    decreases |key|
  {
    if key != [] {
      JoinSplit(key[1..]);
      var rest := Split(key[1..]);
      if key[0] == '.' {
        assert Split(key)[1..] == rest;
      } else {
        var parts := Split(key);
        if |rest| == 1 {
          assert parts == [[key[0]] + rest[0]];
        } else {
          assert parts[1..] == rest[1..];
          assert Join(rest) == rest[0] + "." + Join(rest[1..]);
        }
      }
    }
  }

  /** Joining dot-free segments and splitting the result gives back the segments. */
  lemma {:induction false} SplitJoin(parts: seq<string>)
    requires |parts| >= 1 && NoDots(parts)
    ensures Split(Join(parts)) == parts
    decreases |parts|
  {
    if |parts| == 1 {
      SplitSegment(parts[0], "", false);
      assert parts[0] + "" == parts[0];
    } else {
      SplitJoin(parts[1..]);
      SplitSegment(parts[0], Join(parts[1..]), true);
      assert [parts[0]] + parts[1..] == parts;
    }
  }

  /** A dot-free segment followed by a dotted tail splits at the dot. */
  lemma {:induction false} SplitSegment(seg: string, tail: string, dotted: bool)
    requires '.' !in seg
    ensures dotted ==> Split(seg + "." + tail) == [seg] + Split(tail)
    ensures !dotted && tail == "" ==> Split(seg + tail) == [seg]
    decreases |seg|
  {
    if seg == [] {
      assert "" + "." + tail == "." + tail;
      assert ("." + tail)[1..] == tail;
    } else {
      SplitSegment(seg[1..], tail, dotted);
      if dotted {
        var whole := seg + "." + tail;
        assert whole[0] == seg[0] && whole[1..] == seg[1..] + "." + tail;
        var rest := Split(whole[1..]);
        assert rest[0] == seg[1..] && rest[1..] == Split(tail);
        assert [seg[0]] + seg[1..] == seg;
      } else if tail == "" {
        assert (seg + tail)[1..] == seg[1..] + tail;
        assert [seg[0]] + seg[1..] == seg;
      }
    }
  }

  /**
   * Strict descent through dictionaries: Some(n) when every segment names an entry
   * of a dictionary reached so far, None on a missing entry or a non-dictionary.
   */
  function Find(n: Node, path: seq<string>): (r: Option<Node>)
    decreases |path|
  {
    if path == [] then Some(n)
    else match n
      case Dict(m) => if path[0] in m then Find(m[path[0]], path[1..]) else None
      case _ => None
  }

  /** Find along a path is Find along its prefix and then along the rest. */
  lemma {:induction false} FindAppend(n: Node, p: seq<string>, q: seq<string>)
    ensures Find(n, p + q) == (match Find(n, p) case Some(x) => Find(x, q) case None => None)
    decreases |p|
  {
    if p != [] {
      assert (p + q)[0] == p[0] && (p + q)[1..] == p[1..] + q;
      match n
      case Dict(m) =>
        if p[0] in m { FindAppend(m[p[0]], p[1..], q); }
      case _ =>
    } else {
      assert p + q == q;
    }
  }
}
