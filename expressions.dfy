/**
 * The search expressions: each node validates its arguments when it is built
 * and compiles to SQL text plus the list of parameters bound to its `%s`
 * placeholders.
 */
module Expressions {
  import opened Wrappers
  import opened Text
  import opened Values
  import opened Json
  import opened Settings
  import opened Utils
  import opened Dialect

  /** A KeyField the constructor accepted. */
  type Key = k: KeyField | ValidKeyField(k) witness KeyField(NamedTable("t"), Some("id"))

  /** A TableField the constructor accepted. */
  type Column = t: TableField | ValidTableField(t) witness TableField("f", Some(NamedTable("t")), None)

  /** An `F()` reference as the query resolves it: the column's alias and name, and its model. */
  datatype FRef = FRef(name: string, alias: string, target: string, model: Model)

  /** The field argument of a node: a column name, an `F()` or a TableField. */
  datatype FieldArg = FText(text: string) | FF(f: FRef) | FTable(column: Column)

  /** The `key_field` argument of a node: a string, a KeyField, an `F()` or a TableField. */
  datatype KeyArg = KText(text: string) | KKey(key: Key) | KF(f: FRef) | KTable(column: Column)

  /** `str(key_field)` */
  function KeyStr(k: KeyArg): string
  {
    match k
    case KText(s) => s
    case KKey(key) => KeySql(key)
    case KF(f) => "F(" + f.name + ")"
    case KTable(t) => FieldSql(t)
  }

  /** A non-string key always prints as a non-empty text, so truthiness is non-emptiness. */
  lemma KeyStrTruthy(k: KeyArg)
    ensures KeyStr(k) == "" <==> k.KText? && k.text == ""
  {
    if k.KKey? { assert KeySql(k.key)[|KeyTable(k.key)|] == '.'; }
    if k.KTable? { assert FieldSql(k.column)[|FieldTable(k.column)|] == '.'; }
  }

  /** `_resolve_field_name(compiler, field)` with no key field. */
  function FieldName(f: FieldArg): string
  {
    match f
    case FText(s) => s
    case FF(r) => r.alias + "." + r.target
    case FTable(t) => FieldSql(t)
  }

  // ------------------------------------------------------ key field resolution

  /**
   * `_resolve_and_set_key_field` for an `F()` or a TableField: the plain column
   * name and the KeyField derived from it; None for a plain string.
   */
  function DeriveKey(f: FieldArg): (r: Result<Option<(string, Key)>>)
    ensures f.FText? ==> r == Ok(None)
    ensures f.FF? ==> (r.Err? <==> ModelKeyName(f.f.model) == "")
    ensures f.FF? && r.Ok? ==>
              r.value.Some? && r.value.value.0 == f.f.target &&
              KeySql(r.value.value.1) == f.f.alias + "." + ModelKeyName(f.f.model)
    ensures f.FTable? ==>
              (r.Err? <==>
                 |Split(FieldSql(f.column), '.')| != 2 ||
                 (!NonEmpty(FieldPrimaryKey(f.column)) && Split(FieldSql(f.column), '.')[1] == ""))
    ensures f.FTable? && r.Ok? ==>
              r.value.Some? && r.value.value.0 == f.column.field &&
              KeyTable(r.value.value.1) == Split(FieldSql(f.column), '.')[0]
  {
    match f
    case FText(_) => Ok(None)
    case FF(ref) =>
      var k :- NewKeyField(NamedTable(ref.alias), Some(ModelKeyName(ref.model)));
      Ok(Some((ref.target, k)))
    case FTable(t) =>
      var parts := Split(FieldSql(t), '.');
      if |parts| != 2 then Err(ValueError)
      else
        var pk := FieldPrimaryKey(t);
        var column := if NonEmpty(pk) then pk.value else parts[1];
        var k :- NewKeyField(NamedTable(parts[0]), Some(column));
        Ok(Some((t.field, k)))
  }

  /** A node's field and key once resolution has replaced them. */
  datatype Bound = Bound(field: string, key: KeyArg)

  function ResolveField(f: FieldArg, key: KeyArg): (r: Result<Bound>)
    ensures f.FText? ==> r == Ok(Bound(f.text, key))
    ensures r.Ok? && !f.FText? ==> r.value.key.KKey?
  {
    var d :- DeriveKey(f);
    if d.Some? then Ok(Bound(d.value.0, KKey(d.value.1))) else Ok(Bound(f.text, key))
  }

  /** The resolution done with `field_name=None`: only the key is replaced. */
  function ResolveKey(k: KeyArg): (r: Result<KeyArg>)
    ensures k.KText? || k.KKey? ==> r == Ok(k)
  {
    match k
    case KF(ref) =>
      var d :- DeriveKey(FF(ref));
      Ok(if d.Some? then KKey(d.value.1) else k)
    case KTable(t) =>
      var d :- DeriveKey(FTable(t));
      Ok(if d.Some? then KKey(d.value.1) else k)
    case _ => Ok(k)
  }

  // ---------------------------------------------------------------- node data

  datatype Tokenizer = NoTokenizer | TokenizerName(name: string) | TokenizerObject

  /** A range endpoint: a Python scalar, or a date already rendered by `strftime`. */
  datatype RangeValue = RangeScalar(v: Scalar) | RangeDate(text: string)

  /** The value of a Search node. */
  datatype SearchValue =
    | SearchScalar(v: Scalar)
    | SearchList(items: seq<Scalar>)
    | SearchCast(castValue: Scalar, cast: string)   // a ValueCast
    | SearchExpr(e: Expr)

  datatype ProxRegex = ProxRegex(regex: Scalar, maxExpansions: Scalar, wrap: bool)

  /** An element of a ProximityArray. */
  datatype ProxItem = ItemRegex(r: ProxRegex) | ItemValue(v: Scalar)

  /** An element of a Proximity sequence. */
  datatype ProxToken = TokenValue(v: Scalar) | TokenRegex(r: ProxRegex) | TokenArray(items: seq<ProxItem>, wrap: bool)

  /** The value of a JsonOp, before `_resolve_value`. */
  datatype JsonValue = JsonScalar(v: Scalar) | JsonList(items: seq<Scalar>) | JsonWrapped(wrapped: Scalar) | JsonF(f: FRef)

  /** The tuning knobs of MoreLikeThis, in the order the SQL lists them. */
  datatype MltOptions = MltOptions(
    minDocFrequency: Scalar, maxDocFrequency: Scalar, minTermFrequency: Scalar,
    maxQueryTerms: Scalar, minWordLength: Scalar, maxWordLength: Scalar, boostFactor: Scalar)

  datatype Expr =
    | All(key: KeyArg, matchOp: bool, legacy: bool)
    | Empty(key: KeyArg, matchOp: bool)
    | Search(field: FieldArg, searchValue: SearchValue, op: string)
    | Match(field: FieldArg, value: Scalar, distance: Scalar, conjunctionMode: bool, tokenizer: Tokenizer,
            key: KeyArg, transpositionCostOne: bool, prefix: bool, escaped: bool,
            matchOp: bool, ignoreLhs: bool, legacy: bool)
    | Exists(optField: Option<FieldArg>, key: KeyArg, matchOp: bool)
    | Range(field: FieldArg, rangeType: string, start: RangeValue, end: RangeValue, bounds: string,
            key: KeyArg, matchOp: bool, ignoreLhs: bool, legacy: bool)
    | RangeTerm(field: FieldArg, term: Scalar, cast: string, relation: Option<string>,
                key: KeyArg, matchOp: bool, ignoreLhs: bool, legacy: bool)
    | Regex(field: FieldArg, value: Scalar, key: KeyArg, matchOp: bool, ignoreLhs: bool, legacy: bool)
    | Term(field: FieldArg, value: Scalar, enumCast: Option<string>,
           key: KeyArg, matchOp: bool, ignoreLhs: bool, legacy: bool)
    | TermSet(terms: seq<Expr>, key: KeyArg, matchOp: bool)
    | FuzzyTerm(field: FieldArg, value: Scalar, distance: Scalar, transpositionCostOne: bool, prefix: bool,
                key: KeyArg, matchOp: bool, ignoreLhs: bool, legacy: bool)
    | Phrase(field: FieldArg, phrases: seq<Scalar>, slop: int,
             key: KeyArg, matchOp: bool, ignoreLhs: bool, legacy: bool)
    | PhrasePrefix(field: FieldArg, phrases: seq<Scalar>, maxExpansion: Scalar,
                   key: KeyArg, matchOp: bool, ignoreLhs: bool, legacy: bool)
    | ConstScore(score: Scalar, query: Expr, key: KeyArg, matchOp: bool)
    | Bm25Score(key: KeyArg)
    | Boost(factor: Scalar, query: Expr, key: KeyArg, matchOp: bool)
    | DisjunctionMax(disjuncts: seq<Expr>, tieBreaker: Scalar, key: KeyArg, matchOp: bool)
    | Boolean(must: seq<Expr>, mustNot: seq<Expr>, should: seq<Expr>, key: KeyArg, matchOp: bool)
    | Snippet(field: FieldArg, limit: Scalar, offset: Scalar, startTag: Scalar, endTag: Scalar,
              maxNumChars: Scalar, key: KeyArg, matchOp: bool)
    | MoreLikeThis(documentId: Scalar, document: Members, fields: seq<Scalar>, options: MltOptions,
                   stopWords: seq<Scalar>, key: KeyArg, matchOp: bool)
    | Parse(queryText: Scalar, lenient: bool, conjunctionMode: bool, key: KeyArg, matchOp: bool, legacy: bool)
    | ParseWithField(field: FieldArg, value: Scalar, lenient: bool, conjunctionMode: bool,
                     key: KeyArg, matchOp: bool)
    | ProximityRegex(regexNode: ProxRegex)
    | ProximityArray(items: seq<ProxItem>, wrap: bool)
    | Proximity(tokens: seq<ProxToken>, optField: Option<FieldArg>)
    | JsonOp(field: FieldArg, path: seq<string>, jsonValue: JsonValue)

  // ------------------------------------------------------------- constructors

  const SearchOps: seq<string> := ["@@@", "|||", "===", "###", "&&&"]
  const MatchTokenizers: seq<string> := ["whitespace", "keyword", "ngram", "regex", "icu", "jieba",
    "chinese_lindera", "chinese_compatible", "source_code", "raw"]
  const RangeTypes: seq<string> := ["int4range", "int8range", "daterange", "tsrange", "tstzrange"]
  const RangeBounds: seq<string> := ["[)", "(]", "[]", "()"]
  const Relations: seq<string> := ["Intersects", "Within", "Contains"]
  const RangeCasts: seq<string> := ["tsrange", "int4range", "int8range", "daterange", "\"char\"", "bigint",
    "date", "double precision", "integer", "numeric", "real", "smallint", "timestamp with time zone",
    "timestamp without time zone", "tstzrange", "numrange"]
  const ProximityOps: seq<string> := ["##", "##>"]

  /** `Search(field, value, escaped, op)`: the operator is checked, the value escaped when asked. */
  function NewSearch(field: FieldArg, value: SearchValue, escaped: bool, op: string): (r: Result<Expr>)
    ensures r.Err? <==> op !in SearchOps
    ensures r.Err? ==> r.error == ValueError
    ensures r.Ok? ==> r.value.Search? && r.value.field == field && r.value.op == op
    ensures r.Ok? && escaped && value.SearchScalar? ==> r.value.searchValue == SearchScalar(EscapeQuery(value.v))
    ensures r.Ok? && !(escaped && value.SearchScalar?) ==> r.value.searchValue == value
  {
    if op !in SearchOps then Err(ValueError)
    else
      var v := if escaped && value.SearchScalar? then SearchScalar(EscapeQuery(value.v)) else value;
      Ok(Search(field, v, op))
  }

  /** `Match(...)`: a tokenizer given by name must be one of the known names. */
  function NewMatch(field: FieldArg, value: Scalar, distance: Scalar, conjunctionMode: bool, tokenizer: Tokenizer,
                    key: KeyArg, transpositionCostOne: bool, prefix: bool, escaped: bool, matchOp: bool,
                    ignoreLhs: bool, legacy: bool): (r: Result<Expr>)
    ensures r.Err? <==> tokenizer.TokenizerName? && tokenizer.name !in MatchTokenizers
    ensures r.Ok? ==> r.value == Match(field, value, distance, conjunctionMode, tokenizer, key,
                                       transpositionCostOne, prefix, escaped, matchOp, ignoreLhs, legacy)
  {
    if tokenizer.TokenizerName? && tokenizer.name !in MatchTokenizers then Err(ValueError)
    else Ok(Match(field, value, distance, conjunctionMode, tokenizer, key, transpositionCostOne, prefix,
                  escaped, matchOp, ignoreLhs, legacy))
  }

  /** `Range(...)`: the range type and the bounds are validated. */
  function NewRange(field: FieldArg, rangeType: string, start: RangeValue, end: RangeValue, bounds: string,
                    key: KeyArg, matchOp: bool, ignoreLhs: bool, legacy: bool): (r: Result<Expr>)
    ensures r.Err? <==> rangeType !in RangeTypes || bounds !in RangeBounds
    ensures r.Err? ==> r.error == ValueError
    ensures r.Ok? ==> r.value == Range(field, rangeType, start, end, bounds, key, matchOp, ignoreLhs, legacy)
  {
    if rangeType !in RangeTypes || bounds !in RangeBounds then Err(ValueError)
    else Ok(Range(field, rangeType, start, end, bounds, key, matchOp, ignoreLhs, legacy))
  }

  /** `RangeTerm(...)`: the relation, when given, and the cast are validated. */
  function NewRangeTerm(field: FieldArg, term: Scalar, cast: string, relation: Option<string>,
                        key: KeyArg, matchOp: bool, ignoreLhs: bool, legacy: bool): (r: Result<Expr>)
    ensures r.Err? <==> (relation.Some? && relation.value !in Relations) || cast !in RangeCasts
    ensures r.Err? ==> r.error == ValueError
    ensures r.Ok? ==> r.value == RangeTerm(field, term, cast, relation, key, matchOp, ignoreLhs, legacy)
  {
    if relation.Some? && relation.value !in Relations then Err(ValueError)
    else if cast !in RangeCasts then Err(ValueError)
    else Ok(RangeTerm(field, term, cast, relation, key, matchOp, ignoreLhs, legacy))
  }

  /** `Phrase(...)`: more than one phrase is required. */
  function NewPhrase(field: FieldArg, phrases: seq<Scalar>, slop: int,
                     key: KeyArg, matchOp: bool, ignoreLhs: bool, legacy: bool): (r: Result<Expr>)
    ensures r.Err? <==> |phrases| <= 1
    ensures r.Err? ==> r.error == AssertionError
    ensures r.Ok? ==> r.value == Phrase(field, phrases, slop, key, matchOp, ignoreLhs, legacy)
  {
    if |phrases| <= 1 then Err(AssertionError)
    else Ok(Phrase(field, phrases, slop, key, matchOp, ignoreLhs, legacy))
  }

  /** `PhrasePrefix(...)`: more than one phrase is required. */
  function NewPhrasePrefix(field: FieldArg, phrases: seq<Scalar>, maxExpansion: Scalar,
                           key: KeyArg, matchOp: bool, ignoreLhs: bool, legacy: bool): (r: Result<Expr>)
    ensures r.Err? <==> |phrases| <= 1
    ensures r.Err? ==> r.error == AssertionError
    ensures r.Ok? ==> r.value == PhrasePrefix(field, phrases, maxExpansion, key, matchOp, ignoreLhs, legacy)
  {
    if |phrases| <= 1 then Err(AssertionError)
    else Ok(PhrasePrefix(field, phrases, maxExpansion, key, matchOp, ignoreLhs, legacy))
  }

  /** `DisjunctionMax(...)`: the tie breaker must be a Python int (a bool is one). */
  function NewDisjunctionMax(disjuncts: seq<Expr>, tieBreaker: Scalar, key: KeyArg, matchOp: bool)
    : (r: Result<Expr>)
    ensures r.Err? <==> !IsPyInt(tieBreaker)
    ensures r.Err? ==> r.error == AssertionError
    ensures r.Ok? ==> r.value == DisjunctionMax(disjuncts, tieBreaker, key, matchOp)
  {
    if !IsPyInt(tieBreaker) then Err(AssertionError)
    else Ok(DisjunctionMax(disjuncts, tieBreaker, key, matchOp))
  }

  /** `Boolean(...)`: at least one of the three groups must be non-empty (None is empty). */
  function NewBoolean(must: seq<Expr>, mustNot: seq<Expr>, should: seq<Expr>, key: KeyArg, matchOp: bool)
    : (r: Result<Expr>)
    ensures r.Err? <==> must == [] && mustNot == [] && should == []
    ensures r.Err? ==> r.error == ValueError
    ensures r.Ok? ==> r.value == Boolean(must, mustNot, should, key, matchOp)
  {
    if must == [] && mustNot == [] && should == [] then Err(ValueError)
    else Ok(Boolean(must, mustNot, should, key, matchOp))
  }

  /** Python's `v < 0` for a truthy value; comparing a string with 0 raises TypeError. */
  function IsNegative(v: Scalar): (r: Result<bool>)
    requires Truthy(v)
    ensures r.Err? <==> v.SStr?
    ensures v.SInt? ==> r == Ok(v.i < 0)
    ensures v.SBool? ==> r == Ok(false)
  {
    match v
    case SInt(i) => Ok(i < 0)
    case SBool(_) => Ok(false)
    case SFloat(t) => Ok(|t| > 0 && t[0] == '-')
    case SStr(_) => Err(TypeError)
  }

  /** `ProximityRegex(...)`: a truthy `max_expansions` must not be negative. */
  function NewProxRegex(regex: Scalar, maxExpansions: Scalar, wrap: bool): (r: Result<ProxRegex>)
    ensures maxExpansions.SInt? ==> (r.Err? <==> maxExpansions.i < 0)
    ensures !Truthy(maxExpansions) ==> r == Ok(ProxRegex(regex, maxExpansions, wrap))
    ensures r.Ok? ==> r.value == ProxRegex(regex, maxExpansions, wrap)
  {
    if Truthy(maxExpansions) then
      var negative :- IsNegative(maxExpansions);
      if negative then Err(ValueError) else Ok(ProxRegex(regex, maxExpansions, wrap))
    else Ok(ProxRegex(regex, maxExpansions, wrap))
  }

  /** `Proximity(values, field)`: at least three values are required. */
  function NewProximity(tokens: seq<ProxToken>, optField: Option<FieldArg>): (r: Result<Expr>)
    ensures r.Err? <==> |tokens| < 3
    ensures r.Err? ==> r.error == ValueError
    ensures r.Ok? ==> r.value == Proximity(tokens, optField)
  {
    if |tokens| < 3 then Err(ValueError) else Ok(Proximity(tokens, optField))
  }

  // ----------------------------------------------------------------- compiling

  /** The SQL text and the parameters bound to its placeholders, in order. */
  datatype Compiled = Compiled(sql: string, params: seq<Scalar>)

  /**
   * What compiling needs from its surroundings: the settings, the server's
   * version string and the connection's `compose_sql`, which inlines parameters.
   */
  datatype Context = Context(config: Config, version: string, compose: (string, seq<Scalar>) -> string)

  /** The `ignore_lhs`/`legacy` flags a combinator sets on the children it compiles. */
  datatype Force = Force(ignoreLhs: bool, legacy: bool)

  const NoForce := Force(false, false)
  const ForceBoth := Force(true, true)

  function Compose(ctx: Context, c: Compiled): string
  {
    ctx.compose(c.sql, c.params)
  }

  /** `f"{key_field} @@@ {sql}"` when the match operator is wanted. */
  function MatchPrefix(matchOp: bool, key: KeyArg, sql: string): string
  {
    if matchOp then KeyStr(key) + " @@@ " + sql else sql
  }

  /**
   * The shared tail of the field functions (match, range, range_term, regex,
   * term, fuzzy_term, phrase, phrase_prefix): under the legacy schema the field
   * is the first argument and the first parameter; otherwise it is the left-hand
   * side, unless `ignore_lhs` is set.
   */
  function FieldCall(ctx: Context, func: string, args: seq<string>, params: seq<Scalar>, field: string,
                     key: KeyArg, matchOp: bool, ignoreLhs: bool, legacy: bool): Compiled
  {
    var schema := Schema(legacy, func, ctx.config, ctx.version);
    var withField := schema == Legacy;
    Compiled(
      SchemaSql(func, if withField then ["%s"] + args else args, schema,
                if !ignoreLhs && !withField then field else "", "@@@",
                if matchOp then KeyStr(key) else ""),
      if withField then [SStr(field)] + params else params)
  }

  /** Where a field function puts its field, by schema. */
  lemma FieldPlacement(ctx: Context, func: string, args: seq<string>, params: seq<Scalar>, field: string,
                       key: KeyArg, matchOp: bool, ignoreLhs: bool, legacy: bool)
    ensures var c := FieldCall(ctx, func, args, params, field, key, matchOp, ignoreLhs, legacy);
      var schema := Schema(legacy, func, ctx.config, ctx.version);
      && (schema == Legacy ==>
            c.params == [SStr(field)] + params &&
            c.sql == SchemaSql(func, ["%s"] + args, schema, "", "@@@", if matchOp then KeyStr(key) else ""))
      && (schema == Current ==>
            c.params == params &&
            c.sql == SchemaSql(func, args, schema, if ignoreLhs then "" else field, "@@@",
                               if matchOp then KeyStr(key) else ""))
  {
  }

  /** `Range._format` */
  function RangeLiteral(v: RangeValue): string
  {
    match v
    case RangeDate(t) => "'" + t + "'"
    case RangeScalar(SNone) => "NULL"
    case RangeScalar(SStr(s)) => "'" + s + "'"
    case RangeScalar(x) => PyStr(x)
  }

  /** `Range.make_range`: a PostgreSQL range constructor call with its bounds text. */
  function MakeRange(rangeType: string, start: RangeValue, end: RangeValue, bounds: string): string
  {
    rangeType + "(" + RangeLiteral(start) + ", " + RangeLiteral(end) + ", '" + bounds + "')"
  }

  /** `JsonOp.build_key`: one `['key']` accessor per key. */
  function PathAccess(keys: seq<string>): string
  {
    if |keys| == 0 then "" else PathAccess(keys[..|keys| - 1]) + "['" + keys[|keys| - 1] + "']"
  }

  /** `_resolve_value` for a JsonOp value. */
  function JsonParam(ctx: Context, v: JsonValue): Scalar
  {
    match v
    case JsonList(items) => SStr(PostgresArray(items))
    case JsonWrapped(x) => SStr(ctx.compose("%s", [x]))
    case JsonF(f) => SStr(f.alias + "." + f.target)
    case JsonScalar(x) => x
  }

  /** Appends `text` and its parameter for every option that is present. */
  function OptionalArgs(opts: seq<(string, Scalar)>, byTruth: bool): (c: Compiled)
    ensures |c.params| <= |opts|
  {
    if |opts| == 0 then Compiled("", [])
    else
      var init := OptionalArgs(opts[..|opts| - 1], byTruth);
      var (text, v) := opts[|opts| - 1];
      if (if byTruth then Truthy(v) else !v.SNone?) then Compiled(init.sql + text, init.params + [v])
      else init
  }

  function SnippetOptions(e: Expr): seq<(string, Scalar)>
    requires e.Snippet?
  {
    [(", \"limit\":=%s", e.limit), (", \"offset\":=%s", e.offset), (", start_tag:=%s", e.startTag),
     (", end_tag:=%s", e.endTag), (", max_num_chars:=%s", e.maxNumChars)]
  }

  function MltKnobs(o: MltOptions): seq<(string, Scalar)>
  {
    [(", min_doc_frequency :=%s", o.minDocFrequency), (", max_doc_frequency :=%s", o.maxDocFrequency),
     (", min_term_frequency :=%s", o.minTermFrequency), (", max_query_terms :=%s", o.maxQueryTerms),
     (", min_word_length :=%s", o.minWordLength), (", max_word_length :=%s", o.maxWordLength),
     (", boost_factor :=%s", o.boostFactor)]
  }

  /** `MoreLikeThis.as_sql` before the match-operator prefix. */
  function MoreLikeThisCall(e: Expr): Compiled
    requires e.MoreLikeThis?
  {
    var byId := Truthy(e.documentId);
    var head := if byId then "key_value :=%s" + (if e.fields != [] then ", fields := " + PostgresArray(e.fields) else "")
                else "";
    var byDoc := e.document != [] && !byId;
    var doc := if byDoc then "document :=%s" else "";
    var knobs := OptionalArgs(MltKnobs(e.options), true);
    var stop := if e.stopWords != [] then ", stopwords:= " + PostgresArray(e.stopWords) else "";
    Compiled("pdb.more_like_this(" + head + doc + knobs.sql + stop + ")",
             (if byId then [e.documentId] else []) +
             (if byDoc then [SStr(Serialize(JObject(e.document)))] else []) + knobs.params)
  }

  /** `ProximityRegex.as_sql` with the given `wrap`. */
  function ProxRegexSql(r: ProxRegex, wrap: bool): Compiled
  {
    var sql := "pdb.prox_regex(%s" + (if Truthy(r.maxExpansions) then ", %s" else "") + ")";
    Compiled(if wrap then "(" + sql + ")" else sql,
             [r.regex] + (if Truthy(r.maxExpansions) then [r.maxExpansions] else []))
  }

  /** The parts and parameters contributed by the first `n` items of a ProximityArray. */
  function ProxItemParts(ctx: Context, items: seq<ProxItem>): (r: (seq<string>, seq<Scalar>))
    ensures |r.0| == |items|
  {
    if |items| == 0 then ([], [])
    else
      var (parts, params) := ProxItemParts(ctx, items[..|items| - 1]);
      match items[|items| - 1]
      case ItemRegex(rx) => (parts + [Compose(ctx, ProxRegexSql(rx, rx.wrap))], params)
      case ItemValue(v) => (parts + ["%s"], params + [v])
  }

  /** `ProximityArray.as_sql` with the given `wrap`. */
  function ProxArraySql(ctx: Context, items: seq<ProxItem>, wrap: bool): Compiled
  {
    var (parts, params) := ProxItemParts(ctx, items);
    var sql := "pdb.prox_array(" + Join(parts, ", ") + ")";
    Compiled(if wrap then "(" + sql + ")" else sql, params)
  }

  /** At an even index, whether the Proximity loop expects a value (else a distance). */
  predicate ValueSlot(i: nat)
  {
    (i / 2) % 2 == 0
  }

  /** The SQL part and parameters of one Proximity element, by position. */
  function ProxTokenSql(ctx: Context, t: ProxToken, i: nat): Result<(string, seq<Scalar>)>
  {
    if i % 2 == 1 then
      if t.TokenValue? && t.v.SStr? && t.v.s in ProximityOps then Ok((t.v.s, [])) else Err(ValueError)
    else if ValueSlot(i) then
      match t
      case TokenRegex(rx) => Ok((Compose(ctx, ProxRegexSql(rx, false)), []))
      case TokenArray(items, _) => Ok((Compose(ctx, ProxArraySql(ctx, items, false)), []))
      case TokenValue(v) => Ok(("%s", [v]))
    else
      if t.TokenValue? && IsPyInt(t.v) then Ok(("%s", [SInt(PyIntValue(t.v))]))
      else if t.TokenValue? && t.v.SStr? && IsDigits(t.v.s) then Ok(("%s", [SInt(DigitsValue(t.v.s))]))
      else Err(ValueError)
  }

  /** The parts and parameters of the first `n` Proximity elements. */
  function ProxParts(ctx: Context, tokens: seq<ProxToken>, n: nat): (r: Result<(seq<string>, seq<Scalar>)>)
    requires n <= |tokens|
    ensures r.Ok? ==> |r.value.0| == n
  {
    if n == 0 then Ok(([], []))
    else
      var (parts, params) :- ProxParts(ctx, tokens, n - 1);
      var (part, ps) :- ProxTokenSql(ctx, tokens[n - 1], n - 1);
      Ok((parts + [part], params + ps))
  }

  /** `Proximity.as_sql` */
  function ProximitySql(ctx: Context, tokens: seq<ProxToken>, optField: Option<FieldArg>): Result<Compiled>
  {
    var (parts, params) :- ProxParts(ctx, tokens, |tokens|);
    var sql := "(" + Join(parts, " ") + ")";
    var truthy := optField.Some? && !(optField.value.FText? && optField.value.text == "");
    Ok(Compiled(if truthy then FieldName(optField.value) + " @@@ " + sql else sql, params))
  }

  /** Python truthiness of an optional field. */
  predicate FieldGiven(f: Option<FieldArg>)
  {
    f.Some? && !(f.value.FText? && f.value.text == "")
  }

  /** `ARRAY[...]` around composed children. */
  function ArrayOf(parts: seq<string>): string
  {
    "ARRAY[" + Join(parts, ", ") + "]"
  }

  /** The `must`/`must_not`/`should` arguments of a boolean query, empty groups left out. */
  function BooleanGroups(must: seq<string>, mustNot: seq<string>, should: seq<string>): seq<string>
  {
    (if must != [] then ["must := " + ArrayOf(must)] else []) +
    (if mustNot != [] then ["must_not := " + ArrayOf(mustNot)] else []) +
    (if should != [] then ["should := " + ArrayOf(should)] else [])
  }

  /** The nodes whose SQL depends on their `ignore_lhs` flag. */
  predicate HasIgnoreLhs(e: Expr)
  {
    e.Match? || e.Range? || e.RangeTerm? || e.Regex? || e.Term? || e.FuzzyTerm? || e.Phrase? || e.PhrasePrefix?
  }

  /** The nodes whose SQL depends on their `legacy` flag. */
  predicate HasLegacy(e: Expr)
  {
    HasIgnoreLhs(e) || e.All? || e.Parse?
  }

  /** `Match.as_sql`, with the flags in force. */
  function MatchCall(ctx: Context, field: FieldArg, value: Scalar, distance: Scalar, conj: bool,
                     tokenizer: Tokenizer, key: KeyArg, tco: bool, prefix: bool, escaped: bool,
                     matchOp: bool, ignoreLhs: bool, legacy: bool): Result<Compiled>
  {
    var b :- ResolveField(field, key);
    if tokenizer.TokenizerObject? then Err(ValueError)
    else
      var named := tokenizer.TokenizerName?;
      Ok(FieldCall(ctx, "match",
        [" %s", " conjunction_mode:=%s", " transposition_cost_one:=%s", " prefix:=%s", "distance:=%s"] +
          (if named then ["tokenizer:=paradedb.tokenizer(%s)"] else []),
        [if escaped then EscapeQuery(value) else value, SStr(BoolText(conj)), SStr(BoolText(tco)),
         SStr(BoolText(prefix)), distance] + (if named then [SStr(tokenizer.name)] else []),
        b.field, b.key, matchOp, ignoreLhs, legacy))
  }

  /**
   * `as_sql` of every node, followed by `compose_sql` where a parent splices a
   * child in. `force` holds the flags the parent has set on this node.
   */
  function Compile(e: Expr, ctx: Context, force: Force): Result<Compiled>
    decreases e
  {
    var ignoreLhs := force.ignoreLhs || (HasIgnoreLhs(e) && e.ignoreLhs);
    var legacy := force.legacy || (HasLegacy(e) && e.legacy);
    match e
    case All(key, matchOp, _) =>
      var k :- ResolveKey(key);
      Ok(Compiled(MatchPrefix(matchOp, k, if legacy then "paradedb.all()" else "pdb.all()"), []))
    case Empty(key, matchOp) =>
      var k :- ResolveKey(key);
      Ok(Compiled(MatchPrefix(matchOp, k, "pdb.empty()"), []))
    case Search(field, value, op) =>
      var lhs := FieldName(field) + " " + op + " ";
      (match value
       case SearchExpr(x) =>
         var c :- Compile(x, ctx, NoForce);
         Ok(Compiled(lhs + Compose(ctx, c), []))
       case SearchCast(v, cast) => Ok(Compiled(lhs + ctx.compose("%s::" + cast, [v]), []))
       case SearchList(items) => Ok(Compiled(lhs + " " + PostgresArray(items), []))
       case SearchScalar(v) => Ok(Compiled(lhs + " %s", [v])))
    case Match(field, value, distance, conj, tokenizer, key, tco, prefix, escaped, matchOp, _, _) =>
      MatchCall(ctx, field, value, distance, conj, tokenizer, key, tco, prefix, escaped, matchOp, ignoreLhs, legacy)
    case Exists(optField, key, matchOp) =>
      if optField.None? then Ok(Compiled(MatchPrefix(matchOp, key, "pdb.exists()"), []))
      else
        var b :- ResolveField(optField.value, key);
        if b.field != "" then Ok(Compiled(MatchPrefix(matchOp, b.key, "paradedb.exists(%s)"), [SStr(b.field)]))
        else Ok(Compiled(MatchPrefix(matchOp, b.key, "pdb.exists()"), []))
    case Range(field, rangeType, start, end, bounds, key, matchOp, _, _) =>
      var b :- ResolveField(field, key);
      Ok(FieldCall(ctx, "range", ["range:= " + MakeRange(rangeType, start, end, bounds)], [],
                   b.field, b.key, matchOp, ignoreLhs, legacy))
    case RangeTerm(field, term, cast, relation, key, matchOp, _, _) =>
      var b :- ResolveField(field, key);
      Ok(FieldCall(ctx, "range_term",
        [PyStr(term) + "::" + cast] + (if relation.Some? then ["'" + relation.value + "'"] else []), [],
        b.field, b.key, matchOp, ignoreLhs, legacy))
    case Regex(field, value, key, matchOp, _, _) =>
      var b :- ResolveField(field, key);
      Ok(FieldCall(ctx, "regex", ["%s"], [value], b.field, b.key, matchOp, ignoreLhs, legacy))
    case Term(field, value, enumCast, key, matchOp, _, _) =>
      var b :- ResolveField(field, key);
      Ok(FieldCall(ctx, "term", [if NonEmpty(enumCast) then "%s::" + enumCast.value else "%s"], [value],
                   b.field, b.key, matchOp, ignoreLhs, legacy))
    case TermSet(terms, key, matchOp) =>
      var parts :- CompileAll(terms, ctx, ForceBoth);
      Ok(Compiled(MatchPrefix(matchOp, key, "paradedb.term_set(terms := " + ArrayOf(parts) + ")"), []))
    case FuzzyTerm(field, value, distance, tco, prefix, key, matchOp, _, _) =>
      var b :- ResolveField(field, key);
      Ok(FieldCall(ctx, "fuzzy_term", ["%s", "transposition_cost_one:=%s", "prefix:=%s", "distance:=%s"],
                   [value, SStr(BoolText(tco)), SStr(BoolText(prefix)), distance],
                   b.field, b.key, matchOp, ignoreLhs, legacy))
    case Phrase(field, phrases, slop, key, matchOp, _, _) =>
      var b :- ResolveField(field, key);
      Ok(FieldCall(ctx, "phrase", [PostgresArray(phrases), "%s"], [SInt(slop)],
                   b.field, b.key, matchOp, ignoreLhs, legacy))
    case PhrasePrefix(field, phrases, maxExpansion, key, matchOp, _, _) =>
      var b :- ResolveField(field, key);
      var expand := !PyEqualsZero(maxExpansion);
      Ok(FieldCall(ctx, "phrase_prefix",
        [PostgresArray(phrases)] + (if expand then ["max_expansion:=%s"] else []),
        if expand then [maxExpansion] else [], b.field, b.key, matchOp, ignoreLhs, legacy))
    case ConstScore(score, query, key, matchOp) =>
      var c :- Compile(query, ctx, Force(false, true));
      Ok(Compiled(MatchPrefix(matchOp, key, "paradedb.const_score(%s::real, " + Compose(ctx, c) + ")"), [score]))
    case Bm25Score(key) =>
      var k :- ResolveKey(key);
      Ok(Compiled("pdb.score(" + KeyStr(k) + ")", []))
    case Boost(factor, query, key, matchOp) =>
      var c :- Compile(query, ctx, NoForce);
      Ok(Compiled(MatchPrefix(matchOp, key, "paradedb.boost(%s, " + Compose(ctx, c) + ")"), [factor]))
    case DisjunctionMax(disjuncts, tieBreaker, key, matchOp) =>
      var parts :- CompileAll(disjuncts, ctx, NoForce);
      Ok(Compiled(MatchPrefix(matchOp, key,
        "paradedb.disjunction_max(" + ArrayOf(parts) + ", tie_breaker:=" + PyStr(tieBreaker) + ")"), []))
    case Boolean(must, mustNot, should, key, matchOp) =>
      var m :- CompileAll(must, ctx, ForceBoth);
      var n :- CompileAll(mustNot, ctx, ForceBoth);
      var s :- CompileAll(should, ctx, ForceBoth);
      Ok(Compiled(MatchPrefix(matchOp, key, "paradedb.boolean(" + Join(BooleanGroups(m, n, s), ", ") + ")"), []))
    case Snippet(field, _, _, _, _, _, key, matchOp) =>
      var b :- ResolveField(field, key);
      var opts := OptionalArgs(SnippetOptions(e), false);
      Ok(Compiled(MatchPrefix(matchOp, b.key, "pdb.snippet(" + b.field + " " + opts.sql + ")"), opts.params))
    case MoreLikeThis(_, _, _, _, _, key, matchOp) =>
      var c := MoreLikeThisCall(e);
      Ok(Compiled(MatchPrefix(matchOp, key, c.sql), c.params))
    case Parse(text, lenient, conj, key, matchOp, _) =>
      var schema := Schema(legacy, "parse", ctx.config, ctx.version);
      Ok(Compiled(MatchPrefix(matchOp, key, schema + ".parse(%s, lenient:=%s, conjunction_mode:=%s)"),
                  [text, SStr(BoolText(lenient)), SStr(BoolText(conj))]))
    case ParseWithField(field, value, lenient, conj, key, matchOp) =>
      var b :- ResolveField(field, key);
      Ok(Compiled(MatchPrefix(matchOp, b.key, "paradedb.parse_with_field(%s, %s, lenient:=%s, conjunction_mode:=%s)"),
                  [SStr(b.field), value, SStr(BoolText(lenient)), SStr(BoolText(conj))]))
    case ProximityRegex(rx) => Ok(ProxRegexSql(rx, rx.wrap))
    case ProximityArray(items, wrap) => Ok(ProxArraySql(ctx, items, wrap))
    case Proximity(tokens, optField) => ProximitySql(ctx, tokens, optField)
    case JsonOp(field, path, value) =>
      var b :- ResolveField(field, KText(""));
      Ok(Compiled(b.field + PathAccess(path) + " @@@ %s", [JsonParam(ctx, value)]))
  }

  /** Compiles and composes each child in order; the first failure stops the loop. */
  function CompileAll(es: seq<Expr>, ctx: Context, force: Force): (r: Result<seq<string>>)
    ensures r.Ok? ==> |r.value| == |es|
    decreases es
  {
    if |es| == 0 then Ok([])
    else
      var init :- CompileAll(es[..|es| - 1], ctx, force);
      var c :- Compile(es[|es| - 1], ctx, force);
      Ok(init + [Compose(ctx, c)])
  }
}
