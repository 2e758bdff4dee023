/**
 * The lookup adapter: how a `field__<lookup>=value` filter becomes a call to an
 * expression constructor.  The table-to-model cache is a class whose field the
 * preload loops fill; the right-hand parameters are an object whose keyword map
 * the adapter updates in place (also when the caller passed that object in).
 */
module Lookups {
  import opened Wrappers
  import opened Text
  import opened Values
  import opened Settings
  import opened Utils

  // ------------------------------------------------------------ model cache

  /** The models of every application, application by application, in order. */
  function Flatten(apps: seq<seq<Model>>): (ms: seq<Model>)
    ensures |apps| > 0 ==> ms == Flatten(apps[..|apps| - 1]) + apps[|apps| - 1]
  {
    if |apps| == 0 then [] else Flatten(apps[..|apps| - 1]) + apps[|apps| - 1]
  }

  /** The cache after `cache[m.db_table] = m` for every model of `ms`, in order. */
  function Preloaded(cache: map<string, Model>, ms: seq<Model>): map<string, Model>
  {
    if |ms| == 0 then cache
    else Preloaded(cache, ms[..|ms| - 1])[ms[|ms| - 1].dbTable := ms[|ms| - 1]]
  }

  /** After preloading, a table is known exactly when it was known before or some model uses it. */
  lemma {:induction false} PreloadedKeys(cache: map<string, Model>, ms: seq<Model>, t: string)
    ensures t in Preloaded(cache, ms) <==> t in cache || exists i :: 0 <= i < |ms| && ms[i].dbTable == t
  {
    if |ms| > 0 {
      var init := ms[..|ms| - 1];
      PreloadedKeys(cache, init, t);
      if exists i :: 0 <= i < |init| && init[i].dbTable == t {
        var i :| 0 <= i < |init| && init[i].dbTable == t;
        assert ms[i] == init[i];
      }
      if exists i :: 0 <= i < |ms| && ms[i].dbTable == t {
        var i :| 0 <= i < |ms| && ms[i].dbTable == t;
        if i < |init| { assert init[i] == ms[i]; }
      }
    }
  }

  /** Two models on one table: the one loaded last wins. */
  lemma {:induction false} PreloadedLastWins(cache: map<string, Model>, ms: seq<Model>, i: nat)
    requires i < |ms|
    requires forall j :: i < j < |ms| ==> ms[j].dbTable != ms[i].dbTable
    ensures ms[i].dbTable in Preloaded(cache, ms)
    ensures Preloaded(cache, ms)[ms[i].dbTable] == ms[i]
  {
    if i < |ms| - 1 {
      var init := ms[..|ms| - 1];
      assert init[i] == ms[i];
      forall j | i < j < |init| ensures init[j].dbTable != init[i].dbTable {
        assert init[j] == ms[j];
      }
      PreloadedLastWins(cache, init, i);
    }
  }

  /** `ModelResolverFromTable`: its class-level `_model_cache` is the field `cache`. */
  class ModelResolver {
    var cache: map<string, Model>

    constructor ()
      ensures cache == map[]
    {
      cache := map[];
    }

    /** `resolve_model(table)` */
    method ResolveModel(table: string) returns (r: Result<Model>)
      ensures r.Ok? <==> table in cache
      ensures r.Ok? ==> r.value == cache[table] && r.value in cache.Values
      ensures r.Err? ==> r.error == ModelNotFoundError
    {
      if table in cache {
        return Ok(cache[table]);
      }
      return Err(ModelNotFoundError);
    }

    /** `preload()`: every model of every application, keyed by its table name. */
    method Preload(apps: seq<seq<Model>>)
      modifies this
      ensures cache == Preloaded(old(cache), Flatten(apps))
    {
      ghost var start := cache;
      var i := 0;
      while i < |apps|
        invariant 0 <= i <= |apps|
        invariant cache == Preloaded(start, Flatten(apps[..i]))
      {
        var j := 0;
        PreloadedAppendNone(start, Flatten(apps[..i]));
        while j < |apps[i]|
          invariant 0 <= j <= |apps[i]|
          invariant cache == Preloaded(start, Flatten(apps[..i]) + apps[i][..j])
        {
          var m := apps[i][j];
          PreloadedStep(start, Flatten(apps[..i]), apps[i], j);
          cache := cache[m.dbTable := m];
          j := j + 1;
        }
        FlattenStep(apps, i);
        i := i + 1;
      }
      assert apps[..i] == apps;
    }
  }

  lemma PreloadedAppendNone(cache: map<string, Model>, done: seq<Model>)
    ensures Preloaded(cache, done + []) == Preloaded(cache, done)
  {
    assert done + [] == done;
  }

  /** Loading the next model of an application is one more cache assignment. */
  lemma PreloadedStep(cache: map<string, Model>, done: seq<Model>, app: seq<Model>, j: nat)
    requires j < |app|
    ensures Preloaded(cache, done + app[..j + 1])
         == Preloaded(cache, done + app[..j])[app[j].dbTable := app[j]]
  {
    var ms := done + app[..j + 1];
    assert ms[..|ms| - 1] == done + app[..j];
    assert ms[|ms| - 1] == app[j];
  }

  lemma FlattenStep(apps: seq<seq<Model>>, i: nat)
    requires i < |apps|
    ensures Flatten(apps[..i + 1]) == Flatten(apps[..i]) + apps[i][..|apps[i]|]
  {
    assert apps[..i + 1][..i] == apps[..i];
    assert apps[i][..|apps[i]|] == apps[i];
  }

  // ------------------------------------------------------- left-hand side

  /** What the left-hand side resolves to. */
  datatype Target = Target(model: Model, table: string, alias: string, field: string)

  /** `alias_map[alias].table_name` when the alias is an alias of the query, else the alias itself. */
  function TableOf(alias: string, aliasMap: map<string, string>): string
  {
    if alias in aliasMap then aliasMap[alias] else alias
  }

  /** The fallback: the query's own model, its table as table and alias, the raw left-hand text as field. */
  function Fallback(queryModel: Model, lhs: string): Target
  {
    Target(queryModel, queryModel.dbTable, queryModel.dbTable, lhs)
  }

  /**
   * The left-hand parse of `ExpressionLookup.as_sql`: the compiled column with
   * its double quotes removed must split into exactly `alias.field`; the alias is
   * mapped to its table and the table to its model.  Any failure falls back to the
   * query's model, except a missing model when the settings ask to raise.
   */
  function ParseLhs(lhs: string, aliasMap: map<string, string>, cache: map<string, Model>,
                    includeTable: bool, raiseOnMissing: bool, queryModel: Model): (r: Result<Target>)
    ensures var parts := Split(ReplaceChar(lhs, '"', ""), '.');
      r.Err? <==> |parts| == 2 && TableOf(parts[0], aliasMap) !in cache && raiseOnMissing
    ensures r.Err? ==> r.error == ModelNotFoundError
    ensures var parts := Split(ReplaceChar(lhs, '"', ""), '.');
      |parts| == 2 && TableOf(parts[0], aliasMap) in cache ==>
        r.Ok? && r.value.alias == parts[0] && r.value.table == TableOf(parts[0], aliasMap)
        && r.value.model == cache[r.value.table]
        && r.value.field == if includeTable then parts[0] + "." + parts[1] else parts[1]
    ensures var parts := Split(ReplaceChar(lhs, '"', ""), '.');
      |parts| != 2 || (TableOf(parts[0], aliasMap) !in cache && !raiseOnMissing) ==>
        r == Ok(Fallback(queryModel, lhs))
  {
    var parts := Split(ReplaceChar(lhs, '"', ""), '.');
    if |parts| != 2 then Ok(Fallback(queryModel, lhs))
    else
      var table := TableOf(parts[0], aliasMap);
      if table !in cache then
        if raiseOnMissing then Err(ModelNotFoundError) else Ok(Fallback(queryModel, lhs))
      else
        Ok(Target(cache[table], table, parts[0], if includeTable then parts[0] + "." + parts[1] else parts[1]))
  }

  /** A quoted `"alias"."column"`, as the ORM compiles a column, parses back into its two names. */
  lemma QuotedColumnParses(alias: string, column: string, aliasMap: map<string, string>,
                           cache: map<string, Model>, includeTable: bool, raiseOnMissing: bool,
                           queryModel: Model)
    requires '"' !in alias && '.' !in alias && '"' !in column && '.' !in column
    requires TableOf(alias, aliasMap) in cache
    ensures ParseLhs("\"" + alias + "\".\"" + column + "\"", aliasMap, cache, includeTable, raiseOnMissing,
                     queryModel)
         == Ok(Target(cache[TableOf(alias, aliasMap)], TableOf(alias, aliasMap), alias,
                      if includeTable then alias + "." + column else column))
  {
    StripQuotes(alias, column);
    SplitOnce(alias, column, '.');
  }

  /** Removing the double quotes of `"alias"."column"` leaves `alias.column`. */
  lemma StripQuotes(alias: string, column: string)
    requires '"' !in alias && '"' !in column
    ensures ReplaceChar("\"" + alias + "\".\"" + column + "\"", '"', "") == alias + ['.'] + column
  {
    var q: string := ['"'];
    var mid: string := ['"', '.', '"'];
    assert "\"" + alias + "\".\"" + column + "\"" == q + (alias + (mid + (column + q)));
    NoQuoteUnchanged(alias);
    NoQuoteUnchanged(column);
    StripQuoteParts(alias, column);
  }

  lemma StripQuoteParts(alias: string, column: string)
    requires ReplaceChar(alias, '"', "") == alias && ReplaceChar(column, '"', "") == column
    ensures ReplaceChar(['"'] + (alias + (['"', '.', '"'] + (column + ['"']))), '"', "") == alias + ['.'] + column
  {
    var x := column + ['"'];
    KeepsClean(column, ['"']);
    StripQuote();
    assert ReplaceChar(x, '"', "") == column;
    DropsQuotedDot(x);
    KeepsClean(alias, ['"', '.', '"'] + x);
    DropsQuote(alias + (['"', '.', '"'] + x));
    assert alias + (['.'] + column) == alias + ['.'] + column;
  }

  lemma KeepsClean(a: string, b: string)
    requires ReplaceChar(a, '"', "") == a
    ensures ReplaceChar(a + b, '"', "") == a + ReplaceChar(b, '"', "")
  {
    ReplaceCharAppend(a, b, '"', "");
  }

  lemma DropsQuote(b: string)
    ensures ReplaceChar(['"'] + b, '"', "") == ReplaceChar(b, '"', "")
  {
    assert (['"'] + b)[1..] == b;
  }

  lemma DropsQuotedDot(b: string)
    ensures ReplaceChar(['"', '.', '"'] + b, '"', "") == ['.'] + ReplaceChar(b, '"', "")
  {
    var s: string := ['"', '.', '"'] + b;
    assert s[1..] == ['.', '"'] + b;
    assert s[1..][1..] == ['"'] + b;
    assert s[1..][1..][1..] == b;
    assert ReplaceChar(s[1..][1..], '"', "") == ReplaceChar(b, '"', "");
    assert ReplaceChar(s[1..], '"', "") == ['.'] + ReplaceChar(b, '"', "");
  }

  lemma StripQuote()
    ensures ReplaceChar(['"'], '"', "") == ""
  {
    var q: string := ['"'];
    assert q[1..] == [];
  }

  lemma {:induction false} NoQuoteUnchanged(s: string)
    requires '"' !in s
    ensures ReplaceChar(s, '"', "") == s
  {
    if |s| > 0 {
      NoQuoteUnchanged(s[1..]);
    }
  }

  // ------------------------------------------------------ right-hand side

  /**
   * A positional or keyword argument the adapter forwards.  Apart from the key
   * object it injects, the adapter never looks inside one: `AObject` stands for an
   * expression, an `F()` or any other object the caller passes, named for reading.
   */
  datatype Arg =
    | AValue(v: Scalar)
    | ACast(value: Scalar, cast: string)
    | AKeyField(key: KeyField)
    | AObject(name: string)

  /** `LookupParameter(*args, **kwargs)` */
  class LookupParameter {
    var args: seq<Arg>
    var kwargs: map<string, Arg>

    constructor (args: seq<Arg>, kwargs: map<string, Arg>)
      ensures this.args == args && this.kwargs == kwargs
    {
      this.args := args;
      this.kwargs := kwargs;
    }
  }

  /**
   * The right-hand value of a lookup, by the shape the adapter tests for.  A
   * `ValueCast` and any other single value are both wrapped as one positional
   * argument, so both are `RhsValue`.
   */
  datatype Rhs =
    | RhsParams(p: LookupParameter)
    | RhsList(items: seq<Arg>)
    | RhsDict(entries: map<string, Arg>)
    | RhsValue(v: Arg)

  /** The positional and keyword arguments a right-hand value stands for. */
  function Parts(value: Rhs): (seq<Arg>, map<string, Arg>)
    reads if value.RhsParams? then {value.p} else {}
  {
    match value
    case RhsParams(p) => (p.args, p.kwargs)
    case RhsList(items) => (items, map[])
    case RhsDict(entries) => ([], entries)
    case RhsValue(v) => ([v], map[])
  }

  /** The normalisation of the right-hand value: a given parameter object is used as is, not copied. */
  method Normalize(value: Rhs) returns (p: LookupParameter)
    ensures value.RhsParams? ==> p == value.p
    ensures !value.RhsParams? ==> fresh(p)
    ensures (p.args, p.kwargs) == Parts(value)
  {
    match value
    case RhsParams(q) => p := q;
    case RhsList(items) => p := new LookupParameter(items, map[]);
    case RhsDict(entries) => p := new LookupParameter([], entries);
    case RhsValue(v) => p := new LookupParameter([v], map[]);
  }

  // ------------------------------------------------------ lookup classes

  /** The class attributes of one registered lookup. */
  datatype LookupClass = LookupClass(
    name: string,                     // lookup_name
    exprClass: string,                // expr_class
    includeTableInField: bool,        // include_column_with_table_name
    excludeField: bool,               // exclude_field_in_expression
    excludeArgs: bool,                // exclude_args
    extraKwargs: map<string, Arg>,    // extra_param_kwargs
    rawRhs: bool)                     // get_prep_lookup overridden to return the raw value

  function Plain(name: string, exprClass: string, rawRhs: bool): LookupClass
  {
    LookupClass(name, exprClass, false, false, false, map[], rawRhs)
  }

  function NoField(name: string, exprClass: string): LookupClass
  {
    LookupClass(name, exprClass, false, true, false, map[], true)
  }

  /** `SearchLookup` and the subclasses that only change its operator. */
  function SearchFamily(name: string, op: string): LookupClass
  {
    LookupClass(name, "Search", true, false, false, map["op" := AValue(SStr(op))], true)
  }

  /** Every lookup the package registers on every field type, in declaration order. */
  const Registered: seq<LookupClass> := [
    LookupClass("all", "All", false, true, true, map[], true),
    LookupClass("empty", "Empty", false, true, true, map[], true),
    SearchFamily("pdb_search", "@@@"),
    Plain("match", "Match", false),
    LookupClass("pdb_exists", "Exists", false, false, true, map[], true),
    Plain("pdb_range", "Range", true),
    Plain("range_term", "RangeTerm", true),
    Plain("pdb_regex", "Regex", false),
    Plain("term", "Term", false),
    NoField("term_set", "TermSet"),
    Plain("fuzzy_term", "FuzzyTerm", false),
    Plain("phrase", "Phrase", false),
    Plain("phrase_prefix", "PhrasePrefix", false),
    NoField("const_score", "ConstScore"),
    NoField("boost", "Boost"),
    NoField("bm25_score", "Bm25Score"),
    NoField("disjunction_max", "DisjunctionMax"),
    NoField("boolean", "Boolean"),
    NoField("more_like_this", "MoreLikeThis"),
    Plain("parse_with_field", "ParseWithField", true),
    Plain("parse", "Parse", true),
    Plain("snippet", "Snippet", true),
    SearchFamily("match_v2", "|||"),
    SearchFamily("match_v2_conjunction", "&&&"),
    SearchFamily("phrase_v2", "###"),
    SearchFamily("term_v2", "==="),
    NoField("proximity", "Proximity")
  ]

  /** The search-operator lookups all build a `Search` on the table-qualified column, each with its own operator. */
  lemma SearchOperatorsFixed()
    ensures forall i :: 0 <= i < |Registered| && Registered[i].exprClass == "Search" ==>
      Registered[i].includeTableInField && !Registered[i].excludeField
      && Registered[i].extraKwargs.Keys == {"op"}
      && Registered[i].extraKwargs["op"] == AValue(SStr(SearchOperator(Registered[i].name)))
  {
  }

  /** Every other lookup adds no fixed keyword argument and names its column without the table. */
  lemma OtherLookupsUnqualified()
    ensures forall i :: 0 <= i < |Registered| && Registered[i].exprClass != "Search" ==>
      Registered[i].extraKwargs == map[] && !Registered[i].includeTableInField
  {
  }

  /** The operator each search-family lookup name stands for. */
  function SearchOperator(name: string): string
  {
    match name
    case "pdb_search" => "@@@"
    case "match_v2" => "|||"
    case "match_v2_conjunction" => "&&&"
    case "phrase_v2" => "###"
    case "term_v2" => "==="
    case _ => ""
  }

  /** Whether `get_prep_lookup` lets the ORM prepare the right-hand value. */
  predicate PreparesRhs(lookup: LookupClass, config: Config)
  {
    !lookup.rawRhs && lookup.name !in config.skipRhsPrep.GetOr([])
  }

  /** With no skip list configured, only the six plain single-value lookups have their value prepared. */
  lemma DefaultPreparedLookups()
    ensures forall i :: 0 <= i < |Registered| ==>
      (PreparesRhs(Registered[i], Default) <==>
       Registered[i].name in ["match", "pdb_regex", "term", "fuzzy_term", "phrase", "phrase_prefix"])
  {
  }

  /** A lookup named in the skip list never has its value prepared. */
  lemma SkipListWins(lookup: LookupClass, config: Config)
    requires config.skipRhsPrep.Some? && lookup.name in config.skipRhsPrep.value
    ensures !PreparesRhs(lookup, config)
  {
  }

  /** Whether the constructed expression has a `match_op` attribute. */
  predicate HasMatchOp(exprClass: string)
  {
    exprClass !in {"Search", "Bm25Score", "Proximity"}
  }

  // ------------------------------------------------------------ as_sql

  /** `paradedb_key_field`, else the primary key's name, else "id". */
  function DefaultKeyName(m: Model): (k: string)
    ensures m.keyOverride.None? ==> k != ""
  {
    if m.keyOverride.Some? then m.keyOverride.value
    else if m.pkName != "" then m.pkName
    else "id"
  }

  /**
   * The keyword arguments after the lookup's fixed ones are merged in and a key
   * field is supplied when none was given.
   */
  function FinalKwargs(lookup: LookupClass, given: map<string, Arg>, alias: string, model: Model)
    : Result<map<string, Arg>>
  {
    var merged := given + lookup.extraKwargs;
    if "key_field" in merged then Ok(merged)
    else
      var key :- NewKeyField(NamedTable(alias), Some(DefaultKeyName(model)));
      Ok(merged["key_field" := AKeyField(key)])
  }

  /**
   * The lookup's fixed keyword arguments override the caller's, every other
   * argument of the caller survives, and a key field is always present: the
   * caller's own, else `alias.<default key>`, which fails only for an empty key.
   */
  lemma FinalKwargsLaws(lookup: LookupClass, given: map<string, Arg>, alias: string, model: Model)
    ensures var r := FinalKwargs(lookup, given, alias, model);
      && (r.Err? <==> "key_field" !in given && "key_field" !in lookup.extraKwargs && DefaultKeyName(model) == "")
      && (r.Err? ==> r.error == ValueError)
      && (r.Ok? ==> r.value.Keys == given.Keys + lookup.extraKwargs.Keys + {"key_field"})
      && (r.Ok? ==> forall k :: k in lookup.extraKwargs ==> r.value[k] == lookup.extraKwargs[k])
      && (r.Ok? ==> forall k :: k in given && k !in lookup.extraKwargs ==> r.value[k] == given[k])
      && (r.Ok? && "key_field" in given && "key_field" !in lookup.extraKwargs ==>
            r.value["key_field"] == given["key_field"])
      && (r.Ok? && "key_field" !in given && "key_field" !in lookup.extraKwargs ==>
            r.value["key_field"].AKeyField? && ValidKeyField(r.value["key_field"].key)
            && KeySql(r.value["key_field"].key) == alias + "." + DefaultKeyName(model))
  {
  }

  /** The positional arguments of the constructor call. */
  function CallArgs(lookup: LookupClass, field: string, args: seq<Arg>): (r: seq<Arg>)
    ensures |r| == (if lookup.excludeArgs then 0 else |args|) + (if lookup.excludeField then 0 else 1)
    ensures !lookup.excludeField ==> r[0] == AValue(SStr(field))
    ensures !lookup.excludeArgs ==> r[|r| - |args|..] == args
  {
    var rest := if lookup.excludeArgs then [] else args;
    if lookup.excludeField then rest else [AValue(SStr(field))] + rest
  }

  /**
   * The expression the adapter builds: its class, the arguments of the
   * constructor call, the `match_op` it ends up with and the proximity field the
   * post-processing hook sets.
   */
  datatype Built = Built(
    exprClass: string,
    args: seq<Arg>,
    kwargs: map<string, Arg>,
    matchOp: Option<Arg>,
    pfield: Option<string>)

  /** The `match_op` the built expression ends up with: the caller's, else True. */
  function FinalMatchOp(exprClass: string, kwargs: map<string, Arg>): Option<Arg>
  {
    if !HasMatchOp(exprClass) then None
    else if "match_op" in kwargs then Some(kwargs["match_op"])
    else Some(AValue(SBool(true)))
  }

  /** The keyword map left in the parameter object once `match_op` has been popped. */
  function Leftover(exprClass: string, kwargs: map<string, Arg>): map<string, Arg>
  {
    if HasMatchOp(exprClass) then kwargs - {"match_op"} else kwargs
  }

  /** The expression built from a resolved target and the final arguments. */
  function Expected(lookup: LookupClass, target: Target, args: seq<Arg>, kwargs: map<string, Arg>): Built
  {
    Built(lookup.exprClass, CallArgs(lookup, target.field, args), kwargs,
          FinalMatchOp(lookup.exprClass, kwargs),
          if lookup.exprClass == "Proximity" then Some(target.field) else None)
  }

  /**
   * The second half of `ExpressionLookup.as_sql`: the fixed keyword arguments
   * and the key field go into the parameter object, the expression is built,
   * and `match_op` is popped from the parameter object.
   */
  /**
   * The fixed keyword arguments go into the parameter object, then a key field
   * when it has none; a failure leaves the merged arguments in place.
   */
  method MergeKwargs(lookup: LookupClass, target: Target, params: LookupParameter)
    returns (r: Result<map<string, Arg>>)
    modifies params
    ensures params.args == old(params.args)
    ensures r == FinalKwargs(lookup, old(params.kwargs), target.alias, target.model)
    ensures r.Err? ==> params.kwargs == old(params.kwargs) + lookup.extraKwargs
    ensures r.Ok? ==> params.kwargs == r.value
  {
    if |lookup.extraKwargs| > 0 {
      params.kwargs := params.kwargs + lookup.extraKwargs;
    } else {
      assert params.kwargs + lookup.extraKwargs == params.kwargs;
    }
    if "key_field" !in params.kwargs {
      var key := NewKeyField(NamedTable(target.alias), Some(DefaultKeyName(target.model)));
      if key.Err? {
        return Err(key.error);
      }
      params.kwargs := params.kwargs["key_field" := AKeyField(key.value)];
    }
    r := Ok(params.kwargs);
  }

  /**
   * The second half of `ExpressionLookup.as_sql`: the fixed keyword arguments
   * and the key field go into the parameter object, the expression is built,
   * and `match_op` is popped from the parameter object.
   */
  method BuildCall(lookup: LookupClass, target: Target, params: LookupParameter) returns (r: Result<Built>)
    modifies params
    ensures params.args == old(params.args)
    ensures var k := FinalKwargs(lookup, old(params.kwargs), target.alias, target.model);
      && (r.Err? <==> k.Err?)
      && (r.Err? ==> r.error == k.error && params.kwargs == old(params.kwargs) + lookup.extraKwargs)
      && (r.Ok? ==> r.value == Expected(lookup, target, old(params.args), k.value)
                    && params.kwargs == Leftover(lookup.exprClass, k.value))
  {
    var k := MergeKwargs(lookup, target, params);
    if k.Err? {
      return Err(k.error);
    }
    var args := CallArgs(lookup, target.field, params.args);
    var kwargs := params.kwargs;
    var matchOp := None;
    var left := kwargs;
    if HasMatchOp(lookup.exprClass) {
      matchOp := Some(if "match_op" in kwargs then kwargs["match_op"] else AValue(SBool(true)));
      left := kwargs - {"match_op"};
    }
    params.kwargs := left;
    var pfield := if lookup.exprClass == "Proximity" then Some(target.field) else None;
    r := Ok(Built(lookup.exprClass, args, kwargs, matchOp, pfield));
  }

  /**
   * `ExpressionLookup.as_sql` up to the expression's own compilation.  A
   * parameter object the caller passed in is the one that gets updated.
   */
  method AsSql(lookup: LookupClass, lhs: string, aliasMap: map<string, string>, resolver: ModelResolver,
               config: Config, queryModel: Model, value: Rhs) returns (r: Result<Built>)
    modifies if value.RhsParams? then {value.p} else {}
    ensures var t := ParseLhs(lhs, aliasMap, resolver.cache, lookup.includeTableInField,
                              config.raiseOnModelNotFound, queryModel);
      && (t.Err? ==> r == Err(t.error) && (value.RhsParams? ==> unchanged(value.p)))
      && (t.Ok? ==>
            var k := FinalKwargs(lookup, old(Parts(value)).1, t.value.alias, t.value.model);
            && (r.Err? <==> k.Err?)
            && (r.Err? ==> r.error == k.error)
            && (r.Ok? ==> r.value == Expected(lookup, t.value, old(Parts(value)).0, k.value))
            && (r.Ok? && value.RhsParams? ==>
                  value.p.args == old(value.p.args) && value.p.kwargs == Leftover(lookup.exprClass, k.value)))
  {
    var target := ParseLhs(lhs, aliasMap, resolver.cache, lookup.includeTableInField,
                           config.raiseOnModelNotFound, queryModel);
    if target.Err? {
      return Err(target.error);
    }
    var params := Normalize(value);
    r := BuildCall(lookup, target.value, params);
  }

  // ---------------------------------------------------- related transform

  /** The key column of a related model: `paradedb_key_field`, else the primary key's column. */
  function RelatedKeyColumn(m: Model): string
  {
    if m.keyOverride.Some? then m.keyOverride.value else m.pkColumn
  }

  /**
   * `RelatedTableTransform.as_sql`: the related model's `table.key` in place of
   * the compiled relation, whose parameters pass through.
   */
  function RelatedSql(lhsParams: seq<Scalar>, related: Model): (r: (string, seq<Scalar>))
    ensures r.1 == lhsParams
    ensures '.' !in related.dbTable && '.' !in RelatedKeyColumn(related) ==>
      Split(r.0, '.') == [related.dbTable, RelatedKeyColumn(related)]
  {
    var sql := related.dbTable + "." + RelatedKeyColumn(related);
    if '.' !in related.dbTable && '.' !in RelatedKeyColumn(related) then
      SplitOnce(related.dbTable, RelatedKeyColumn(related), '.');
      (sql, lhsParams)
    else
      (sql, lhsParams)
  }
}
