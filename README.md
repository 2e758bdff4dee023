# paradedb-django, modelled in Dafny

paradedb-django lets a Django application query and index tables through the
ParadeDB extension of PostgreSQL. Its core is a text compiler. It has four parts:

- **Search expressions.** `Search`, `Match`, `Term`, `Boolean`, `Proximity` and
  the others render to SQL text, with the values bound as parameters.
- **Lookups.** `field__term=...` and the like are turned into those
  expressions.
- **BM25 indexes.** An index definition is turned into the `WITH (...)` clause
  of `CREATE INDEX`, whose field configurations and tokenizers are serialised
  as JSON.
- **Aggregates.** The JSON bodies of ParadeDB's aggregates.

This project models that compiler as Dafny values and proves what the rendered
text and JSON contain. It is organised by source file:

| module | models |
|---|---|
| `Wrappers` | `Option`, `Result` and the Python exceptions the core raises |
| `Text` | `str.join`, `str.split`, `str.replace`, `str(int)`, Python string order |
| `Values` | the Python scalars bound as parameters: `str()`, truthiness, `isinstance(v, int)` |
| `Json` | an ordered JSON object with the semantics of a Python dict: assignment, `**` spreading |
| `Settings` | the four `PARADEDB_*` settings and their defaults |
| `Utils` | `KeyField`, `TableField`, `postgres_array`, `escape_query` |
| `Dialect` | `_get_schema`, `_normalize_bool`, `_make_schema_sql` |
| `Expressions`, `ExpressionLoops`, `ExpressionLaws` | every search expression: its constructor checks and its `as_sql` (the loops as methods) |
| `Lookups` | `ModelResolverFromTable`, `LookupParameter`, `ExpressionLookup.as_sql` and the registered lookup classes, `RelatedTableTransform` |
| `Tokenizers` | the tokenizer classes, their validation and their `json` |
| `Indexes` | the field index configurations, `IndexField.as_sql`, `Bm25Index` and the WITH clause of `create_sql` |
| `Aggregates` | every aggregate's constructor checks and `build_json` |

Conventions:

- A Python exception is an `Err` of the matching `Error` constructor.
- A dict is a sequence of members. Assigning a key keeps its first position
  and takes the new value, as CPython's dicts do.
- Python's `bool` is an `int`, so `isinstance(True, int)` holds here too.
- Search expressions are a datatype, and `Compile` is their `as_sql`.
- A combinator (`Boolean`, `TermSet`, `ConstScore`) sets `ignore_lhs` and
  `legacy` on its children before compiling them. This is passed down as a
  `Force` argument. `ForceIsSettingFlags` proves that passing it down is the
  same as setting the flags on the child.

Where the code and its documentation disagree, the model follows the code:

- `Proximity` only requires at least three values. It does not check that their
  number is odd.
- `Boost` and `DisjunctionMax` force nothing on their children.
- `ConstScore` forces only `legacy`.
- The version test `version >= "0.20"` compares text, not version numbers.
  `Dialect.VersionComparedAsText` shows the consequences.

## Definitions

The functions that define the model carry no contract of their own. Each one
is listed here with the source it models and the members of the table below
that state its properties.

- `Dialect.SchemaSql` models `_make_schema_sql` (src/paradedb/expressions.py:136-143). Its properties: `Dialect.SchemaSqlShape`, `Dialect.SchemaSqlIgnoresKey`.
- `Expressions.Compile` models the `as_sql` of every expression (src/paradedb/expressions.py:163-1628). Its properties: `ExpressionLaws.ForceIsSettingFlags`, `ExpressionLaws.SearchLayout`, `ExpressionLaws.RangeCompiles`, `ExpressionLaws.TermCompiles`, `ExpressionLaws.JsonOpCompiles`, `ExpressionLaws.BooleanCompiles` and the scenarios.
- `Expressions.MatchCall` models `Match.as_sql` with the flags in force (src/paradedb/expressions.py:328-368). Its properties: `ExpressionLaws.ForceFieldNode`, `Expressions.FieldPlacement`.
- `Expressions.FieldCall` models the shared shape of the field functions' `as_sql`: `match`, `range`, `range_term`, `regex`, `term`, `fuzzy_term`, `phrase` and `phrase_prefix` (src/paradedb/expressions.py:328-993). Its properties: `Expressions.FieldPlacement`, `ExpressionLaws.FieldCallArity`, `ExpressionLaws.RangeFieldCall`, `ExpressionLaws.TermFieldCall`.
- `Expressions.RangeLiteral` models `Range._format` (src/paradedb/expressions.py:499-510). Its property: `ExpressionLaws.RangeLiteralForms`.
- `Expressions.MakeRange` models `Range.make_range` (src/paradedb/expressions.py:496-497). Its property: `ExpressionLaws.RangeCompiles`.
- `Expressions.PathAccess` models `JsonOp.build_key` (src/paradedb/expressions.py:1630-1635). Its properties: `ExpressionLaws.PathAccessAppend`, `ExpressionLoops.BuildKey`.
- `Expressions.JsonParam` models `_resolve_value` (src/paradedb/expressions.py:125-133). Its property: `ExpressionLaws.JsonParamForms`.
- `Expressions.MoreLikeThisCall` models `MoreLikeThis.as_sql` (src/paradedb/expressions.py:1311-1351). Its property: `ExpressionLaws.MoreLikeThisParams`.
- `Expressions.ProximitySql` models `Proximity.as_sql` (src/paradedb/expressions.py:1558-1604). Its properties: `ExpressionLaws.ProximityGrammar`, `ExpressionLaws.ProximityLayout`, `ExpressionLoops.CompileProximity`.
- `Lookups.Registered` models the registered lookup classes (src/paradedb/lookups.py:220-461). Its properties: `Lookups.SearchOperatorsFixed`, `Lookups.OtherLookupsUnqualified`, `Lookups.DefaultPreparedLookups`.
- `Lookups.FinalKwargs` models the keyword merge of `ExpressionLookup.as_sql` (src/paradedb/lookups.py:178-192). Its properties: `Lookups.FinalKwargsLaws`, `Lookups.MergeKwargs`.
- `Lookups.PreparesRhs` models `get_prep_lookup` (src/paradedb/lookups.py:213-412). Its properties: `Lookups.DefaultPreparedLookups`, `Lookups.SkipListWins`.
- `Indexes.TextMembers` models `TextFieldIndexConfig.json` (src/paradedb/indexes.py:55-68). Its properties: `Indexes.TextMembersKeys`, `Indexes.TextMembersHas`, `Indexes.TextGivenHas`.
- `Indexes.ScalarJson` models the `json` of the numeric, boolean and date-time configurations (src/paradedb/indexes.py:118-123). Its property: `Indexes.ScalarJsonLayout`.
- `Indexes.CategoryObject` models `_to_json_string` before serialisation (src/paradedb/indexes.py:317-318). Its property: `Indexes.CategoryObjectLaws`.
- `Indexes.KeyPart` models the `key_field=` entry (src/paradedb/indexes.py:306-310). Its property: `Indexes.WithParts`.
- `Tokenizers.DefaultConfig` models `Tokenizer.default_config` (src/paradedb/tokenizers.py:133-147). Its properties: `Tokenizers.DefaultConfigLaws`, `Tokenizers.NoStopwordKeys`.
- `Tokenizers.Head` models the fixed members of each tokenizer's `json` (src/paradedb/tokenizers.py:173-475). Its properties: `Tokenizers.HeadKeys`, `Tokenizers.TokenizerJsonLayout`.
- `Aggregates.TermJson` models `Term.json` (src/paradedb/aggregates.py:108-128). Its properties: `Aggregates.TermLayout`, `Aggregates.TermAggsBeside`.
- `Aggregates.HistogramJson` models the histograms' `json` (src/paradedb/aggregates.py:267-293). Its properties: `Aggregates.HistogramJsonDefined`, `Aggregates.HistogramFlags`.
- `Aggregates.PercentileJson` models `Percentile.json` (src/paradedb/aggregates.py:470-479). Its property: `Aggregates.PercentileLayout`.
- `Aggregates.TopHitJson` models `TopHit.json` (src/paradedb/aggregates.py:579-588). Its property: `Aggregates.TopHitLayout`.

## Model

| member | source | states |
|---|---|---|
| Text.Split | src/paradedb/utils.py:55-62 | `s.split(c)` never returns an empty list, has one element exactly when `c` does not occur, and joining the pieces with `c` gives `s` back |
| Text.SplitOnce | src/paradedb/expressions.py:116 | text with exactly one separator splits into its two sides |
| Text.JoinAppend | src/paradedb/utils.py:123 | joining one more element appends the separator and that element |
| Text.ReplaceChar | src/paradedb/lookups.py:143 | `s.replace(c, r)` leaves no `c` when `r` contains none |
| Text.ReplaceCharAppend | src/paradedb/lookups.py:143 | replacing a character distributes over concatenation |
| Text.NatDigits | src/paradedb/utils.py:121 | the decimal digits of a natural number are digits and read back as that number |
| Text.IntToString | src/paradedb/utils.py:121 | `str(i)` is non-empty, reads back as `i`, and carries a leading minus exactly for negative `i` |
| Text.StrLessIrreflexive | src/paradedb/expressions.py:68 | Python's string `<` is irreflexive |
| Text.StrLessTrichotomy | src/paradedb/expressions.py:68 | any two strings are equal or ordered one way or the other |
| Values.EqualsZeroIsFalsyNumber | src/paradedb/expressions.py:969 | `v != 0` is false exactly for the falsy numbers (False, 0, 0.0), never for None or a string |
| Json.Keys | src/paradedb/indexes.py:55-68 | the keys of an object are its members' names, position by position |
| Json.Get | src/paradedb/aggregates.py:210-212 | `d.get(k)` finds a value exactly when `k` is a key |
| Json.Put | src/paradedb/indexes.py:62-67 | `d[k] = v`: the key order is kept, or `k` is appended when new; `k` then reads as `v`; every other key reads as before; no key is duplicated |
| Json.Merge | src/paradedb/tokenizers.py:173-175 | `{**a, **b}`: every key of `b` reads as in `b`, every other key as in `a`, and no key is duplicated |
| Json.KeysAppend | src/paradedb/tokenizers.py:173-175 | the keys of a concatenation are the keys of the parts, in order |
| Json.GetAppend | src/paradedb/tokenizers.py:173-175 | a lookup in a concatenation finds the first part's entry before the second's |
| Json.PutHas | src/paradedb/indexes.py:62-67 | after `d[k] = v` the keys are `k` and the old keys, nothing else |
| Json.PutNew | src/paradedb/aggregates.py:280-282 | assigning a key the object lacks appends it at the end |
| Json.MergeDisjoint | src/paradedb/tokenizers.py:173-175 | spreading an object with no key in common appends its members unchanged |
| Json.PutIf | src/paradedb/aggregates.py:120-121 | `if v is not None: d[k] = v` assigns exactly when the value is present |
| Json.AssignAllKeys | src/paradedb/tokenizers.py:133-147 | a run of conditional assignments of distinct new keys appends exactly the given keys, in order, each once |
| Json.AssignedAt | src/paradedb/tokenizers.py:133-147 | with distinct names, the value recorded for a name is the one given to it |
| Json.AssignAllAt | src/paradedb/aggregates.py:470-479 | after the assignments each named key reads as the value it was given, absent when that is None |
| Json.AssignAllKeeps | src/paradedb/aggregates.py:470-479 | a key no assignment names reads as before |
| Json.GivenNamesFrom | src/paradedb/tokenizers.py:133-147 | a key is written only if some assignment names it |
| Json.AssignedFrom | src/paradedb/tokenizers.py:133-147 | a key no assignment names receives no value |
| Json.GivenNamesIn | src/paradedb/tokenizers.py:133-147 | a key is written exactly when some assignment names it with a value that is not None |
| Json.AssignAllGet | src/paradedb/indexes.py:62-67 | after the assignments a key holds the value last assigned to it, or else its old value |
| Json.FromStrings | src/paradedb/tokenizers.py:144-145 | a list of strings becomes a JSON array of the same strings in the same order |
| Utils.NewKeyField | src/paradedb/utils.py:9-21 | ValueError exactly when the table is given by name without a truthy primary key; otherwise the key field keeps both arguments |
| Utils.KeySql | src/paradedb/utils.py:26-36 | `get_sql()` is the table and the key column joined by one dot, and splits back into the two |
| Utils.KeyColumnPriority | src/paradedb/utils.py:26-36 | the key column is the model's `paradedb_key_field`, else the given primary key, else the model's primary key name; a named table uses the given key |
| Utils.NewTableField | src/paradedb/utils.py:66-80 | ValueError exactly when neither table nor key is truthy, or when the key is not a KeyField; otherwise the field and table are kept |
| Utils.FieldSql | src/paradedb/utils.py:82-87 | `get_sql()` is the table and the field joined by one dot, and splits back into the two |
| Utils.FieldTableSource | src/paradedb/utils.py:82-87 | the table comes from the model, else from the given name, else from the key field |
| Utils.FieldPrimaryKey | src/paradedb/utils.py:89-94 | the key field's primary key wins; else the model's key name; else None |
| Utils.ArrayItems | src/paradedb/utils.py:114-123 | one rendered literal per item, position by position |
| Utils.PostgresArray | src/paradedb/utils.py:113-124 | `ARRAY[...]` around the items' literals joined by ", "; `ARRAY[]` for no items |
| Utils.UndoubleReplace | src/paradedb/utils.py:119 | doubling a character is undone by halving its doubled runs |
| Utils.QuoteBodyDecodes | src/paradedb/utils.py:119-120 | a quoted array element decodes back to the original string |
| Utils.CountSpecial | src/paradedb/utils.py:131-135 | at most one special character per input character |
| Utils.EscapeText | src/paradedb/utils.py:131-135 | escaping adds exactly one character per special character |
| Utils.EscapeQuery | src/paradedb/utils.py:127-137 | a value that is not a string is returned unchanged; a string grows by one backslash per special character |
| Utils.EscapeTextDecodes | src/paradedb/utils.py:131-135 | removing the added backslashes gives the input back, so escaping loses nothing |
| Utils.EscapeTextAppend | src/paradedb/utils.py:135 | escaping distributes over concatenation |
| Utils.EscapeChar | src/paradedb/utils.py:132-135 | a special character gains exactly one backslash before it, and any other character is kept |
| Dialect.Schema | src/paradedb/expressions.py:56-71 | `paradedb` when legacy is forced or the function is in `PARADEDB_USE_LEGACY`; else `pdb` under `PARADEBD_USE_V2`; else `pdb` exactly when the version is at least "0.20" |
| Dialect.DefaultLegacyFunctions | src/paradedb/settings.py:22-24 | with the default settings `term` and `match` always use the legacy schema |
| Dialect.VersionComparedAsText | src/paradedb/expressions.py:68 | the text comparison accepts "0.9.0" and rejects "0.100.0" and "0.19.2" |
| Dialect.BoolText | src/paradedb/expressions.py:74-75 | "true" or "false", and "true" exactly for True |
| Dialect.SchemaSqlShape | src/paradedb/expressions.py:136-143 | the call always ends the text; a left-hand side wins over the key prefix; the bare call exactly when neither is given |
| Dialect.SchemaSqlIgnoresKey | src/paradedb/expressions.py:137-138 | with a left-hand side the key field has no effect |
| Expressions.KeyStrTruthy | src/paradedb/expressions.py:141 | a key field prints as empty text exactly when it is the empty string |
| Expressions.DeriveKey | src/paradedb/expressions.py:90-122 | a string field derives no key; an `F()` derives the alias-qualified model key; a TableField derives its table, and fails when its text does not split into two parts |
| Expressions.ResolveField | src/paradedb/expressions.py:90-122 | a string field is kept with its key; any other field ends with a derived KeyField |
| Expressions.ResolveKey | src/paradedb/expressions.py:90-122 | with `field_name=None` a string or KeyField key is unchanged |
| Expressions.NewSearch | src/paradedb/expressions.py:207-230 | ValueError exactly when the operator is not one of the five; the value is escaped exactly when asked and a scalar |
| Expressions.NewMatch | src/paradedb/expressions.py:255-326 | a tokenizer given by name must be a known one; otherwise every argument is kept |
| Expressions.NewRange | src/paradedb/expressions.py:438-525 | ValueError exactly when the range type or the bounds are unknown |
| Expressions.NewRangeTerm | src/paradedb/expressions.py:581-633 | ValueError exactly when a given relation or the cast is unknown |
| Expressions.NewPhrase | src/paradedb/expressions.py:878-907 | AssertionError exactly when there are fewer than two phrases |
| Expressions.NewPhrasePrefix | src/paradedb/expressions.py:938-960 | AssertionError exactly when there are fewer than two phrases |
| Expressions.NewDisjunctionMax | src/paradedb/expressions.py:1082-1101 | AssertionError exactly when the tie breaker is not a Python int |
| Expressions.NewBoolean | src/paradedb/expressions.py:1123-1155 | ValueError exactly when all three groups are empty |
| Expressions.IsNegative | src/paradedb/expressions.py:1460 | `v < 0` raises TypeError exactly for a string; an int compares by value; a bool is never negative |
| Expressions.NewProxRegex | src/paradedb/expressions.py:1452-1472 | a truthy negative `max_expansions` is rejected; a falsy one is always accepted |
| Expressions.NewProximity | src/paradedb/expressions.py:1536-1556 | ValueError exactly when fewer than three values are given |
| Expressions.FieldPlacement | src/paradedb/expressions.py:741-768 | under the legacy schema the field is bound as the first parameter and is never a left-hand side; under the current schema it is the left-hand side unless `ignore_lhs` |
| Expressions.OptionalArgs | src/paradedb/expressions.py:1231-1261 | at most one parameter per option |
| Expressions.ProxItemParts | src/paradedb/expressions.py:1511-1527 | one SQL part per ProximityArray item |
| Expressions.ProxParts | src/paradedb/expressions.py:1558-1600 | one SQL part per Proximity element when the loop succeeds |
| Expressions.CompileAll | src/paradedb/expressions.py:1157-1181 | one compiled text per child when no child fails |
| ExpressionLoops.CompileAllStaysFailed | src/paradedb/expressions.py:1163-1181 | once a child fails, the combinator fails with that child's error |
| ExpressionLoops.ComposeChildren | src/paradedb/expressions.py:795-806 | the loop over the children computes exactly `CompileAll` |
| ExpressionLoops.CompileProxArray | src/paradedb/expressions.py:1511-1527 | the loop over the items computes exactly the ProximityArray SQL |
| ExpressionLoops.ProxPartsStaysFailed | src/paradedb/expressions.py:1558-1600 | the first rejected element decides the Proximity error |
| ExpressionLoops.ProxElement | src/paradedb/expressions.py:1564-1596 | one pass of the Proximity loop yields exactly that element's SQL part and parameters, or the error the element raises |
| ExpressionLoops.CompileProximity | src/paradedb/expressions.py:1558-1604 | the loop over the values computes exactly the Proximity SQL and parameters |
| ExpressionLoops.BuildKey | src/paradedb/expressions.py:1631-1635 | the loop appends exactly one `['key']` accessor per key |
| ExpressionLaws.WithFlags | src/paradedb/expressions.py:1163-1166 | setting the flags does not change the kind of node |
| ExpressionLaws.ForceIsSettingFlags | src/paradedb/expressions.py:1163-1166 | compiling a child forced by its parent is the same as setting `ignore_lhs` and `legacy` on it and compiling it |
| ExpressionLaws.ForceFieldNode | src/paradedb/expressions.py:741-768 | the same, for a node that reads the flags |
| ExpressionLaws.ForceOtherNode | src/paradedb/expressions.py:1103-1116 | the same, for a node that does not read them |
| ExpressionLaws.CombinatorsIgnoreForce | src/paradedb/expressions.py:1015-1116 | the combinators read neither flag, so forcing them changes nothing |
| ExpressionLaws.SearchLayout | src/paradedb/expressions.py:232-248 | a scalar value is bound as the only parameter; a list is spliced in as an ARRAY with none; an expression fails exactly when it fails to compile |
| ExpressionLaws.RangeLiteralForms | src/paradedb/expressions.py:499-510 | `None` is `NULL`; a date or a string is quoted; an int is written in decimal and reads back as itself, with a leading minus when negative; any other value is its `str()` |
| ExpressionLaws.RangeFieldCall | src/paradedb/expressions.py:469-494 | the legacy range call has `%s` then `range:=` and the range literal as arguments with the field as its only parameter; the current one has the `range:=` argument alone, no parameter, and the field as left-hand side unless `ignore_lhs` |
| ExpressionLaws.RangeCompiles | src/paradedb/expressions.py:469-497 | a Range fails exactly when its field does not resolve, and otherwise compiles to the range call over `range:=` and `make_range` |
| ExpressionLaws.FieldCallArity | src/paradedb/expressions.py:741-768 | with as many arguments as parameters, the call still has as many arguments as parameters, the given parameters last and in order |
| ExpressionLaws.TermFieldCall | src/paradedb/expressions.py:741-768 | the term call has one parameter per argument; the value is the last parameter; under the legacy schema the field is the first argument's parameter and never the left-hand side |
| ExpressionLaws.TermArgsArePlaceholders | src/paradedb/expressions.py:752-755 | the value argument is a `%s` placeholder, cast to the enum type when one is given |
| ExpressionLaws.TermCompiles | src/paradedb/expressions.py:741-768 | a Term fails exactly when its field does not resolve, and otherwise compiles to the term call over its value argument |
| ExpressionLaws.JsonOpCompiles | src/paradedb/expressions.py:1622-1628 | a JsonOp fails exactly when its field does not resolve; otherwise it is the field, the path accessors and `@@@ %s`, with the resolved value as the one parameter |
| ExpressionLaws.JsonParamForms | src/paradedb/expressions.py:125-133 | `_resolve_value`: a list becomes its `ARRAY[...]` literal, an `F()` its `alias.column`, and a plain value stays itself |
| ExpressionLaws.PathAccessAppend | src/paradedb/expressions.py:1631-1635 | the accessors of a longer path are those of its prefix followed by those of the rest |
| ExpressionLaws.BooleanGroupsOrder | src/paradedb/expressions.py:1183-1192 | the groups appear in the order must, must_not, should, each only when non-empty |
| ExpressionLaws.BooleanCompiles | src/paradedb/expressions.py:1157-1197 | an accepted Boolean compiles exactly when every child compiles forced; it then has at least one group and binds no parameter |
| ExpressionLaws.TokenAccepted | src/paradedb/expressions.py:1565-1595 | one Proximity element is accepted exactly when the grammar allows it in its slot |
| ExpressionLaws.ProximityGrammar | src/paradedb/expressions.py:1558-1600 | the Proximity values are accepted exactly when every slot holds what the grammar allows: operators in odd slots, values and distances alternating in even ones |
| ExpressionLaws.DistanceBoundAsInt | src/paradedb/expressions.py:1589-1595 | an accepted distance is written as one placeholder bound to one int |
| ExpressionLaws.DistancesBoundAsInts | src/paradedb/expressions.py:1589-1595 | every distance is bound as one int parameter |
| ExpressionLaws.ProximityLayout | src/paradedb/expressions.py:1598-1602 | the Proximity text is parenthesised, and prefixed by `field @@@` when a field is given |
| ExpressionLaws.PresentValuesAppend | src/paradedb/expressions.py:1231-1255 | the bound options of a concatenation are those of each part, in order |
| ExpressionLaws.OptionalArgsBindPresent | src/paradedb/expressions.py:1231-1255 | the parameters of the optional arguments are exactly the present options, in order |
| ExpressionLaws.MoreLikeThisParams | src/paradedb/expressions.py:1311-1351 | a truthy document id is bound first; else a document is bound as its JSON; then the truthy knobs follow in order |
| ExpressionLaws.SnippetParams | src/paradedb/expressions.py:1231-1261 | Snippet binds exactly its options that are not None, in their fixed order |
| ExpressionLaws.TermScenario | src/paradedb/expressions.py:741-768 | `Term("rank", 100, match_op=True)` under the defaults renders `id @@@ paradedb.term(%s,%s)` with the field and the value bound |
| ExpressionLaws.TermScenarioSql | src/paradedb/expressions.py:741-768 | the field call behind that scenario renders that text and those parameters |
| ExpressionLaws.LegacyTermText | src/paradedb/expressions.py:136-143 | the text of a legacy two-argument term call keyed on `id` |
| ExpressionLaws.RegexScenario | src/paradedb/expressions.py:689-709 | `Regex("title", "^well$", match_op=True)` under `PARADEBD_USE_V2` renders `title @@@ pdb.regex(%s)` |
| ExpressionLaws.RegexForcedScenario | src/paradedb/expressions.py:1163-1170 | the same Regex inside a Boolean group loses its left-hand side and uses the legacy call with the field bound |
| Lookups.Flatten | src/paradedb/lookups.py:100-102 | the models of every application, application by application |
| Lookups.PreloadedKeys | src/paradedb/lookups.py:99-102 | after preloading a table is known exactly when it was known before or some model uses it |
| Lookups.PreloadedLastWins | src/paradedb/lookups.py:99-102 | of two models on one table, the one loaded last wins |
| Lookups.ModelResolver.constructor | src/paradedb/lookups.py:88-89 | the cache starts empty |
| Lookups.ModelResolver.ResolveModel | src/paradedb/lookups.py:92-96 | the cached model when the table is known, ModelNotFoundError otherwise |
| Lookups.ModelResolver.Preload | src/paradedb/lookups.py:98-102 | the cache afterwards is the old cache with every model of every application assigned under its table, in order |
| Lookups.PreloadedStep | src/paradedb/lookups.py:101-102 | loading the next model is one more cache assignment |
| Lookups.FlattenStep | src/paradedb/lookups.py:100-101 | the next application appends its models |
| Lookups.ParseLhs | src/paradedb/lookups.py:141-159 | ModelNotFoundError exactly when `alias.column` names an unknown table and the setting asks to raise; a known table yields its model, alias and column; anything else falls back to the query's model |
| Lookups.QuotedColumnParses | src/paradedb/lookups.py:141-148 | a quoted `"alias"."column"` parses back into its alias, table, model and column |
| Lookups.LookupParameter.constructor | src/paradedb/lookups.py:111-113 | the arguments are kept as given |
| Lookups.Normalize | src/paradedb/lookups.py:161-176 | a given LookupParameter is used as is, any other value gets a fresh one with the value spread by its kind |
| Lookups.SearchOperatorsFixed | src/paradedb/lookups.py:242-451 | every Search lookup qualifies its column by table and fixes `op` to its own operator |
| Lookups.OtherLookupsUnqualified | src/paradedb/lookups.py:242-451 | no lookup outside the Search family adds keyword arguments or qualifies its column by table |
| Lookups.DefaultPreparedLookups | src/paradedb/lookups.py:213-412 | with no skip list, exactly the six plain lookups without their own `get_prep_lookup` prepare their value |
| Lookups.SkipListWins | src/paradedb/lookups.py:213-216 | a lookup named in `PARADEDB_LOOKUP_SKIP_RHS_PREP` never prepares its value |
| Lookups.DefaultKeyName | src/paradedb/lookups.py:185-188 | without `paradedb_key_field` the key name is never empty |
| Lookups.FinalKwargsLaws | src/paradedb/lookups.py:178-192 | the lookup's fixed keyword arguments override the caller's; every other caller argument survives; `key_field` is added as `alias.key` only when missing |
| Lookups.CallArgs | src/paradedb/lookups.py:194-201 | the field comes first unless excluded, then the caller's arguments unless excluded |
| Lookups.MergeKwargs | src/paradedb/lookups.py:178-192 | the parameter object ends up holding exactly `FinalKwargs`; on failure it keeps the merged fixed arguments |
| Lookups.BuildCall | src/paradedb/lookups.py:178-204 | the expression call built from the final keyword arguments; the caller's parameter object is left holding them, minus `match_op` where it is read |
| Lookups.AsSql | src/paradedb/lookups.py:131-211 | a missing model fails before anything is changed; otherwise the built call and the parameter object agree with `ParseLhs`, `FinalKwargs` and `BuildCall` |
| Lookups.RelatedSql | src/paradedb/lookups.py:417-426 | `table.key` of the related model, splitting back into the two, with the relation's parameters unchanged |
| Tokenizers.NewTokenizer | src/paradedb/tokenizers.py:96-124 | ValueError exactly when a given stemmer or stop-word language is unknown; otherwise the filters are kept |
| Tokenizers.NewNGram | src/paradedb/tokenizers.py:426-440 | only the stemmer is checked, and no stop-word setting is passed on |
| Tokenizers.DefaultConfigLaws | src/paradedb/tokenizers.py:133-147 | `default_config()` holds exactly the given filters, each once and in the fixed order, with its value |
| Tokenizers.TokenizerJson | src/paradedb/tokenizers.py:126-128 | the base class has no JSON (NotImplementedError); every subclass has |
| Tokenizers.TokenizerSql | src/paradedb/tokenizers.py:130-131 | `sql()` always raises NotImplementedError |
| Tokenizers.SpreadConfig | src/paradedb/tokenizers.py:173-175 | spreading `default_config()` after fixed members overwrites none of them |
| Tokenizers.HeadKeys | src/paradedb/tokenizers.py:442-449 | no tokenizer writes a fixed member under a filter key or writes one twice, and `type` names the class |
| Tokenizers.TokenizerJsonLayout | src/paradedb/tokenizers.py:417-419 | a tokenizer's JSON is its fixed members and then the given filters, with unique keys and the class name as `type` |
| Tokenizers.NGramOmitsStopwords | src/paradedb/tokenizers.py:436-449 | an n-gram tokenizer's JSON never has stop-word settings |
| Tokenizers.NoStopwordKeys | src/paradedb/tokenizers.py:143-146 | omitted stop-word settings are not written |
| Indexes.NewTextFieldConfig | src/paradedb/indexes.py:25-52 | ValueError exactly when a truthy record or normalizer is not an allowed one |
| Indexes.NewJsonFieldConfig | src/paradedb/indexes.py:73-95 | the same checks as text, with `expand_dots` kept |
| Indexes.TokenizerMember | src/paradedb/indexes.py:63-64 | a tokenizer contributes its JSON when set, and the base class fails |
| Indexes.TextJson | src/paradedb/indexes.py:55-68 | a text configuration has JSON unless its tokenizer is the base class |
| Indexes.ConfigJson | src/paradedb/indexes.py:98-101 | a configuration has JSON exactly when its tokenizer, if any, has |
| Indexes.TextMembersKeys | src/paradedb/indexes.py:55-68 | the four fixed settings first, then the given optional ones in order, each key once, with `record` as given |
| Indexes.TextGivenNames | src/paradedb/indexes.py:63-68 | the optional settings written are tokenizer, normalizer and column, each when given and truthy |
| Indexes.TextGivenHas | src/paradedb/indexes.py:63-68 | an optional key is written exactly when its setting is given and truthy |
| Indexes.TextMembersHas | src/paradedb/indexes.py:55-68 | a key is present exactly when it is fixed or is a given optional setting |
| Indexes.TextJsonLayout | src/paradedb/indexes.py:55-68 | every key once, and the record as given |
| Indexes.TextJsonOptional | src/paradedb/indexes.py:63-68 | tokenizer, normalizer and column are present exactly when given; text JSON has no `expand_dots` |
| Indexes.JsonDefaultsOmitNormalizer | src/paradedb/indexes.py:73-101 | a JSON configuration with default arguments has no normalizer, and `expand_dots` as given |
| Indexes.ScalarJsonLayout | src/paradedb/indexes.py:118-123 | numeric, boolean and date-time JSON is `fast` and `indexed`, plus `column` when truthy |
| Indexes.NewIndexFieldConfig | src/paradedb/indexes.py:172-184 | each omitted category becomes the empty list |
| Indexes.ConfigJsons | src/paradedb/indexes.py:317-318 | one field and JSON pair per configuration, and the only error is NotImplementedError |
| Indexes.ConfigJsonsLaws | src/paradedb/indexes.py:317-318 | success exactly when every configuration has JSON, each pair at its own position |
| Indexes.ObjectOfKeys | src/paradedb/indexes.py:318 | the category object has one key per configured field, each once |
| Indexes.ObjectOfLastWins | src/paradedb/indexes.py:318 | a field configured more than once keeps its last configuration |
| Indexes.CategoryObjectLaws | src/paradedb/indexes.py:317-318 | the category object exists exactly when every configuration has JSON; it then holds each field once, with its last configuration |
| Indexes.StripCast | src/paradedb/indexes.py:219-220 | one leading `::` is removed and nothing else changes |
| Indexes.IndexField.constructor | src/paradedb/indexes.py:189-200 | the field, the cast and the resolver are kept |
| Indexes.IndexField.AsSql | src/paradedb/indexes.py:202-226 | the field goes through the resolver when given; the cast loses one leading `::`; the text is `(field::cast)` with a truthy cast, else `(field)`; no parameters |
| Indexes.IndexStatement.constructor | src/paradedb/indexes.py:289-301 | the statement starts with no extra text |
| Indexes.ExtraParts | src/paradedb/indexes.py:312-313 | one `k=v` entry per extra setting, in order, with the value printed by `str()` |
| Indexes.CategoryParts | src/paradedb/indexes.py:320-349 | at most one entry per category |
| Indexes.WithParts | src/paradedb/indexes.py:306-349 | the key field entry first, then the extra settings, then the categories; only the first two without a field configuration |
| Indexes.Bm25Index.constructor | src/paradedb/indexes.py:235-262 | every argument is kept |
| Indexes.Bm25Index.CreateSql | src/paradedb/indexes.py:306-351 | the statement's extra text becomes ` WITH (` and the entries joined by ", " and `)`; on error the statement is unchanged and the error is that of the entries |
| Indexes.AppendExtra | src/paradedb/indexes.py:312-313 | the loop appends exactly `ExtraParts` |
| Indexes.AppendCategories | src/paradedb/indexes.py:320-349 | the loop appends exactly `CategoryParts`, or fails with its error |
| Indexes.NewBm25Index | src/paradedb/indexes.py:249 | AssertionError exactly when the name is missing or empty |
| Indexes.CategoryPartsStep | src/paradedb/indexes.py:320-349 | an empty category is skipped; any other appends its entry or fails with its error |
| Indexes.CategoryPartsFailsFrom | src/paradedb/indexes.py:320-349 | the first category that fails decides the error |
| Aggregates.ParseDirection | src/paradedb/aggregates.py:61-62 | exactly `asc` and `desc` pass, and anything else is a ValueError |
| Aggregates.NewTermOrder | src/paradedb/aggregates.py:54-64 | a valid direction keeps its target and order, and any other is a ValueError |
| Aggregates.TermOrderJson | src/paradedb/aggregates.py:66-67 | the one-entry object mapping the target to the direction |
| Aggregates.TermOrderFromDict | src/paradedb/aggregates.py:69-73 | the first entry of the dict, and a ValueError for an empty dict |
| Aggregates.TermOrderRoundTrip | src/paradedb/aggregates.py:66-73 | reading back a rendered order gives the order |
| Aggregates.NewTopHitSort | src/paradedb/aggregates.py:526-531 | a valid direction keeps its field and order, and any other is a ValueError |
| Aggregates.CountJson | src/paradedb/aggregates.py:45-50 | `{"value_count": {"field": str(field)}}` |
| Aggregates.NewTerm | src/paradedb/aggregates.py:77-106 | an order that is neither an order object nor a dict is a ValueError; a dict is read with `from_dict`; otherwise the Term holds the field, the order (None or the given object), the sizes, `min_doc_count`, `missing`, the error flag and `aggs` as given |
| Aggregates.TermEntriesDistinct | src/paradedb/aggregates.py:109-123 | the optional term settings are distinct and never `field` |
| Aggregates.TermLayout | src/paradedb/aggregates.py:108-123 | `terms` names the field; order, missing and the error flag appear when set; the sizes appear only when positive; each key once |
| Aggregates.TermAggsBeside | src/paradedb/aggregates.py:125-128 | `aggs` sits beside `terms`, never inside it |
| Aggregates.BoundFromTuple | src/paradedb/aggregates.py:144-147 | a tuple becomes a bound exactly when it has two items, otherwise AssertionError |
| Aggregates.ResolveBound | src/paradedb/aggregates.py:180-186 | a bound is present exactly when given |
| Aggregates.CheckBounds | src/paradedb/aggregates.py:241-260 | `min_doc_count` with extended bounds, or truthy extended bounds without truthy hard bounds, are ValueErrors; accepted extended bounds always come with hard bounds |
| Aggregates.NewHistogram | src/paradedb/aggregates.py:224-265 | a histogram is built exactly when its bounds check passes; it then holds the field, the interval, the offset, `min_doc_count`, `keyed` and `is_normalized_to_ns` as given and each bound as read by `ResolveBound`, and its extended bounds always come with hard bounds |
| Aggregates.NewDateHistogram | src/paradedb/aggregates.py:151-190 | the same for date histograms, with `fixed_interval` in place of the interval and no `is_normalized_to_ns` |
| Aggregates.NestExtended | src/paradedb/aggregates.py:279-282 | the nested write fails with KeyError or TypeError unless `hard_bounds` is an object, which then gains `extended_bounds` |
| Aggregates.HistogramNamesDistinct | src/paradedb/aggregates.py:267-288 | the histogram settings are written under distinct keys |
| Aggregates.HistogramEarlyBounds | src/paradedb/aggregates.py:276-277 | before the nested write `hard_bounds` holds the hard bounds alone, when given |
| Aggregates.NestedBoundsAppend | src/paradedb/aggregates.py:279-282 | writing the extended bounds appends them to the hard bounds object |
| Aggregates.HistogramJsonDefined | src/paradedb/aggregates.py:241-293 | every histogram a constructor accepts has JSON, and its `hard_bounds` holds the hard bounds with the extended bounds nested inside |
| Aggregates.HistogramFlags | src/paradedb/aggregates.py:284-288 | `keyed` and `is_normalized_to_ns` appear exactly when they are not None |
| Aggregates.NestedKeys | src/paradedb/aggregates.py:267-288 | the flags are not written before their turn |
| Aggregates.RangeJson | src/paradedb/aggregates.py:340-353 | the field, then one bucket per range in order, then `keyed` when not None |
| Aggregates.MetricJson | src/paradedb/aggregates.py:368-376 | `{name: {"field": f}}` plus `missing` when given, under the metric's own name |
| Aggregates.NewPercentile | src/paradedb/aggregates.py:449-468 | ValueError exactly when `percents` is given and is not a list of numbers |
| Aggregates.PercentileLayout | src/paradedb/aggregates.py:470-479 | the field always; `percents`, `keyed` and `missing` exactly when not None |
| Aggregates.EntrySorts | src/paradedb/aggregates.py:543-544 | one sort per entry of a dict |
| Aggregates.SortsFromArray | src/paradedb/aggregates.py:537-546 | the only error is ValueError |
| Aggregates.FromArrayJson | src/paradedb/aggregates.py:537-546 | the nested loop computes exactly `SortsFromArray` |
| Aggregates.EntrySortsFails | src/paradedb/aggregates.py:543-544 | a bad entry fails the whole dict |
| Aggregates.SortsFromArrayFails | src/paradedb/aggregates.py:539-544 | an item that is not a dict, or holds a bad entry, fails the whole list |
| Aggregates.PrefixFails | src/paradedb/aggregates.py:539-544 | a failing prefix fails the whole list |
| Aggregates.SortsJson | src/paradedb/aggregates.py:581 | one JSON object per sort |
| Aggregates.EntrySortsJson | src/paradedb/aggregates.py:543-544 | a dict's sorts render back to its entries, one object per entry |
| Aggregates.SortsRoundTrip | src/paradedb/aggregates.py:537-581 | reading a list of dicts and rendering it again splits every dict into one-entry objects, in order |
| Aggregates.NewTopHit | src/paradedb/aggregates.py:559-577 | a non-list is a ValueError; an empty list is an IndexError; a list starting with a dict is read as dicts into exactly `SortsFromArray`; `from_` must be an int; otherwise every item must be a sort object and the sorts are those objects in order; `docvalue_fields` is kept |
| Aggregates.TopHitLayout | src/paradedb/aggregates.py:579-588 | `sort` and `size` always; `from` and `docvalue_fields` exactly when given |
| Aggregates.AggregateJson | src/paradedb/aggregates.py:45-592 | every aggregate except a histogram built outside its constructor has JSON |
| Aggregates.BuildJson | src/paradedb/aggregates.py:590-592 | the same object either way, serialised unless the dict is asked for |

## Left out

- Database I/O: `get_version` reads `paradedb.version_info()`. The version text is a parameter of the compile context.
- Django settings: they are read once at import. The settings are a record with the documented defaults, and settings.py's type assertions are left out.
- `compose_sql`: the database driver's quoting of parameters into text is an uninterpreted function in the compile context.
- `F()` resolution: Django's query resolution is left out. An `F()` arrives resolved to its alias, column, target and model.
- `resolve_sql_from_table_column_string` is left out, because it passes an unsupported keyword argument and cannot run.
- `_resolve_value` of a `models.Value`, and `ValueCast`: both are approximated by `compose_sql` of `%s::cast`.
- Python argument binding: the lookup adapter stops at the constructor call (class, positional arguments, keyword arguments). How Python binds them into the expression's parameters is left out.
- Persistent flags: combinators set `ignore_lhs` and `legacy` on their children and leave them set. The model passes the flags down per compilation, so it does not capture the flags staying on a child that is shared or compiled again.
- Persistent `wrap`: `Proximity.as_sql` sets `wrap = False` on a `ProximityRegex` or `ProximityArray` in a value slot and leaves it set (src/paradedb/expressions.py:1578-1580). The model renders that slot unwrapped for that one compilation and keeps the node's own `wrap` everywhere else. It does not capture the cleared flag on the same object met again: inside a later `ProximityArray` of the same `Proximity`, or in a later compilation of its own.
- The unused `key_field` and `legacy` arguments of `Search`, and `ignore_lhs` and `legacy` of `Exists`: `as_sql` never reads them.
- `Phrase`'s `int(slop)`: Python's `int()` of arbitrary input is left out. The slop is an int.
- `str.isdigit`: the distance check accepts only ASCII digits. Python also accepts other Unicode digits.
- Floating point: a float is its `str()` text; float arithmetic is not modelled.
- Date and time values: `_resolve_from_and_to` converts them to timestamps, which needs a clock and time zones. A range bound is a JSON value.
- JSON escaping: `json.dumps` text is modelled by `Serialize` with quoting, but not with Python's escaping of non-ASCII and control characters.
- Dict keys: they are strings only.
- `__repr__` methods, `deconstruct`, and the `Facet` aggregate: they produce no query text this model covers.
- `Bm25Index.create_sql` outside the WITH clause: the `IndexExpression` wrapping, Django's `_create_index_sql` and the index condition are left out.
- `Bm25Index.CreateSql`: it does not count, because its contract speaks of `old` state. `WithParts` carries the same promise as a value.
- `ExpressionLookup.process_lhs` and `process_rhs` are Django's. The compiled column and the right-hand value are inputs.
- `ProximityLookup.post_process_expression` returns None, so `as_sql` never replaces the expression. Its `isinstance(processed, expr)` test is never reached and is left out.
- Django's own value preparation in `get_prep_lookup` is left out. The model only decides whether it happens.
- `register_lookup_for_all_fields` and the monkey patch: they are registration side effects. The registered lookups are a constant table.
- `Dialect.Schema`: it keeps the lexicographic version comparison of the code instead of comparing version numbers.
