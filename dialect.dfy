/** The SQL dialect rules shared by every search expression. */
module Dialect {
  import opened Text
  import opened Settings

  const Legacy := "paradedb"
  const Current := "pdb"

  /** `version >= "0.20"` exactly as written: a lexicographic comparison of strings. */
  predicate VersionIsCurrent(version: string)
  {
    StrGe(version, "0.20")
  }

  /**
   * `_get_schema(legacy, func)`: the schema that qualifies a search function.
   * The rules are consulted in order and the first that applies decides.
   */
  function Schema(legacy: bool, func: string, config: Config, version: string): (r: string)
    ensures r == Legacy || r == Current
    ensures legacy ==> r == Legacy
    ensures !legacy && func != "" && func in config.useLegacy ==> r == Legacy
    ensures !legacy && !(func != "" && func in config.useLegacy) && config.useV2 ==> r == Current
    ensures !legacy && !(func != "" && func in config.useLegacy) && !config.useV2 ==>
              (r == Current <==> VersionIsCurrent(version))
  {
    if legacy then Legacy
    else if func != "" && func in config.useLegacy then Legacy
    else if config.useV2 then Current
    else if VersionIsCurrent(version) then Current
    else Legacy
  }

  /** With the default settings `term` and `match` always use the legacy schema. */
  lemma DefaultLegacyFunctions(legacy: bool, version: string)
    ensures Schema(legacy, "term", Default, version) == Legacy
    ensures Schema(legacy, "match", Default, version) == Legacy
  {
  }

  /**
   * The version test compares text, not numbers: "0.9.0" passes as at least "0.20",
   * while "0.100.0" and "0.19.2" do not.
   */
  lemma VersionComparedAsText()
    ensures VersionIsCurrent("0.20.0") && VersionIsCurrent("1.0.0")
    ensures VersionIsCurrent("0.9.0")
    ensures !VersionIsCurrent("0.19.2") && !VersionIsCurrent("0.100.0")
  {
    assert StrLess("0.19.2", "0.20") by {
      assert "0.19.2"[1..] == ".19.2" && "0.20"[1..] == ".20";
      assert ".19.2"[1..] == "19.2" && ".20"[1..] == "20";
    }
    assert StrLess("0.100.0", "0.20") by {
      assert "0.100.0"[1..] == ".100.0" && "0.20"[1..] == ".20";
      assert ".100.0"[1..] == "100.0" && ".20"[1..] == "20";
    }
    assert !StrLess("0.9.0", "0.20") by {
      assert "0.9.0"[1..] == ".9.0" && "0.20"[1..] == ".20";
      assert ".9.0"[1..] == "9.0" && ".20"[1..] == "20";
    }
    assert !StrLess("0.20.0", "0.20") by {
      assert "0.20.0"[1..] == ".20.0" && "0.20"[1..] == ".20";
      assert ".20.0"[1..] == "20.0" && ".20"[1..] == "20";
      assert "20.0"[1..] == "0.0" && "20"[1..] == "0";
      assert "0.0"[1..] == ".0" && "0"[1..] == "";
    }
  }

  /** `_normalize_bool` */
  function BoolText(b: bool): (r: string)
    ensures r == "true" || r == "false"
    ensures (r == "true") == b
  {
    if b then "true" else "false"
  }

  /** `schema.func(args joined by ',')` */
  function Call(schema: string, func: string, args: seq<string>): string
  {
    schema + "." + func + "(" + Join(args, ",") + ")"
  }

  /**
   * `_make_schema_sql`. An empty `lhs` or `key` stands for a falsy argument
   * (None, or an empty string), and the key is only given when the match
   * operator is wanted.
   */
  function SchemaSql(func: string, args: seq<string>, schema: string, lhs: string, op: string, key: string)
    : (r: string)
  {
    if lhs != "" then lhs + " " + op + " " + Call(schema, func, args)
    else if key != "" then key + " " + op + " " + Call(schema, func, args)
    else Call(schema, func, args)
  }

  /** The call always ends the text; a left-hand side wins over the key prefix. */
  lemma SchemaSqlShape(func: string, args: seq<string>, schema: string, lhs: string, op: string, key: string)
    ensures var r := SchemaSql(func, args, schema, lhs, op, key);
      var call := Call(schema, func, args);
      && |r| >= |call| && r[|r| - |call|..] == call
      && (lhs != "" ==> r[..|lhs| + |op| + 2] == lhs + " " + op + " ")
      && (lhs == "" && key != "" ==> r[..|key| + |op| + 2] == key + " " + op + " ")
      && (r == call <==> lhs == "" && key == "")
  {
    var r := SchemaSql(func, args, schema, lhs, op, key);
    var call := Call(schema, func, args);
    if lhs != "" {
      assert r == (lhs + " " + op + " ") + call;
    } else if key != "" {
      assert r == (key + " " + op + " ") + call;
    }
  }

  /** When a left-hand side is given, the key argument has no effect. */
  lemma SchemaSqlIgnoresKey(func: string, args: seq<string>, schema: string, lhs: string, op: string, k1: string, k2: string)
    requires lhs != ""
    ensures SchemaSql(func, args, schema, lhs, op, k1) == SchemaSql(func, args, schema, lhs, op, k2)
  {
  }
}
