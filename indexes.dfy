/**
 * The BM25 index definition: per-field configuration objects and their JSON,
 * the `IndexField` expression that wraps a column in a tokenizer cast, and the
 * `WITH (...)` clause of the index's CREATE statement.
 */
module Indexes {
  import opened Wrappers
  import opened Text
  import opened Values
  import opened Json
  import opened Utils
  import opened Tokenizers

  // ----------------------------------------------------------- field configs

  /** The settings shared by text and JSON fields; `None` is a Python `None`. */
  datatype TextOptions = TextOptions(
    fast: bool,
    tokenizer: Option<Tokenizer>,
    normalizer: Option<string>,
    record: Option<string>,
    indexed: bool,
    fieldnorms: bool,
    column: Option<string>)

  /** The defaults of `TextFieldIndexConfig`. */
  const TextDefaults := TextOptions(true, None, Some("raw"), Some("position"), true, true, None)

  /** The defaults of `JSONFieldIndexConfig`: as for text, but with no normalizer. */
  const JsonDefaults := TextOptions(true, None, None, Some("position"), true, true, None)

  const Records: seq<string> := ["position", "freq", "basic"]
  const Normalizers: seq<string> := ["raw", "lowercase"]

  /** The configuration of one indexed field, by category. */
  datatype FieldConfig =
    | TextFieldConfig(field: string, opts: TextOptions)
    | JsonFieldConfig(field: string, opts: TextOptions, expandDots: bool)
    | NumericFieldConfig(field: string, fast: bool, indexed: bool, column: Option<string>)
    | BooleanFieldConfig(field: string, fast: bool, indexed: bool, column: Option<string>)
    | DateTimeFieldConfig(field: string, fast: bool, indexed: bool, column: Option<string>)

  /** What the text constructor checks: a record or normalizer that is given (truthy) is a known one. */
  predicate ValidTextOptions(o: TextOptions)
  {
    && (NonEmpty(o.record) ==> o.record.value in Records)
    && (NonEmpty(o.normalizer) ==> o.normalizer.value in Normalizers)
  }

  /** `TextFieldIndexConfig(field, ...)` */
  function NewTextFieldConfig(field: string, o: TextOptions): (r: Result<FieldConfig>)
    ensures r.Ok? <==> ValidTextOptions(o)
    ensures r.Err? ==> r.error == ValueError
    ensures r.Ok? ==> r.value == TextFieldConfig(field, o)
  {
    if NonEmpty(o.record) && o.record.value !in Records then Err(ValueError)
    else if NonEmpty(o.normalizer) && o.normalizer.value !in Normalizers then Err(ValueError)
    else Ok(TextFieldConfig(field, o))
  }

  /** `JSONFieldIndexConfig(field, ...)`: the text checks, then `expand_dots`. */
  function NewJsonFieldConfig(field: string, o: TextOptions, expandDots: bool): (r: Result<FieldConfig>)
    ensures r.Ok? <==> ValidTextOptions(o)
    ensures r.Err? ==> r.error == ValueError
    ensures r.Ok? ==> r.value == JsonFieldConfig(field, o, expandDots)
  {
    var _ :- NewTextFieldConfig(field, o);
    Ok(JsonFieldConfig(field, o, expandDots))
  }

  function OptionalText(s: Option<string>): Json
  {
    if s.Some? then JStr(s.value) else JNull
  }

  /** The four settings every text configuration writes. */
  function TextBase(o: TextOptions): Members
  {
    [("fast", JBool(o.fast)), ("indexed", JBool(o.indexed)),
     ("fieldnorms", JBool(o.fieldnorms)), ("record", OptionalText(o.record))]
  }

  /** The settings written only when given (truthy), in order; `tok` is the tokenizer's JSON. */
  function TextEntries(o: TextOptions, tok: Option<Json>): seq<(string, Option<Json>)>
  {
    [("tokenizer", tok),
     ("normalizer", if NonEmpty(o.normalizer) then Some(JStr(o.normalizer.value)) else None),
     ("column", if NonEmpty(o.column) then Some(JStr(o.column.value)) else None)]
  }

  /** The tokenizer's JSON as a member value, when one is set. */
  function TokenizerMember(o: TextOptions): (r: Result<Option<Json>>)
    ensures r.Err? <==> o.tokenizer.Some? && o.tokenizer.value.kind.Base?
    ensures r.Err? ==> r.error == NotImplementedError
    ensures r.Ok? ==> (r.value.Some? <==> o.tokenizer.Some?)
  {
    if o.tokenizer.Some? then
      var j :- TokenizerJson(o.tokenizer.value); Ok(Some(JObject(j)))
    else Ok(None)
  }

  /** The `json` of a text configuration. */
  function TextJson(o: TextOptions): (r: Result<Members>)
    ensures r.Err? <==> o.tokenizer.Some? && o.tokenizer.value.kind.Base?
    ensures r.Err? ==> r.error == NotImplementedError
  {
    var tok :- TokenizerMember(o);
    Ok(TextMembers(o, tok))
  }

  /** The text JSON once the tokenizer's member value is known. */
  function TextMembers(o: TextOptions, tok: Option<Json>): Members
  {
    AssignAll(TextBase(o), TextEntries(o, tok))
  }

  /** Only a text or JSON field whose tokenizer is the base class has no JSON. */
  predicate HasJson(c: FieldConfig)
  {
    (c.TextFieldConfig? || c.JsonFieldConfig?) ==> !(c.opts.tokenizer.Some? && c.opts.tokenizer.value.kind.Base?)
  }

  /** The `json` property of each configuration class. */
  function ConfigJson(c: FieldConfig): (r: Result<Members>)
    ensures r.Ok? <==> HasJson(c)
    ensures r.Err? ==> r.error == NotImplementedError
  {
    match c
    case TextFieldConfig(_, o) => TextJson(o)
    case JsonFieldConfig(_, o, expandDots) =>
      var j :- TextJson(o);
      Ok(Put(j, "expand_dots", JBool(expandDots)))
    case NumericFieldConfig(_, fast, indexed, column) => Ok(ScalarJson(fast, indexed, column))
    case BooleanFieldConfig(_, fast, indexed, column) => Ok(ScalarJson(fast, indexed, column))
    case DateTimeFieldConfig(_, fast, indexed, column) => Ok(ScalarJson(fast, indexed, column))
  }

  /** The `json` of numeric, boolean and date-time configurations. */
  function ScalarJson(fast: bool, indexed: bool, column: Option<string>): Members
  {
    PutIf([("fast", JBool(fast)), ("indexed", JBool(indexed))], "column",
          if NonEmpty(column) then Some(JStr(column.value)) else None)
  }

  /**
   * A text configuration's JSON holds its four fixed settings first, then the
   * given settings in order, each key once.
   */
  lemma TextMembersKeys(o: TextOptions, tok: Option<Json>)
    ensures Keys(TextMembers(o, tok)) == Keys(TextBase(o)) + GivenNames(TextEntries(o, tok))
    ensures UniqueKeys(TextMembers(o, tok))
    ensures Get(TextMembers(o, tok), "record") == Some(OptionalText(o.record))
  {
    var base := TextBase(o);
    var ps := TextEntries(o, tok);
    TextBaseLaws(o);
    TextEntriesFresh(o, tok);
    AssignAllKeys(base, ps);
    AssignAllGet(base, ps, "record");
    AssignedFrom(ps, "record");
  }

  /** The four fixed settings, each once, `record` last. */
  lemma TextBaseLaws(o: TextOptions)
    ensures Keys(TextBase(o)) == ["fast", "indexed", "fieldnorms", "record"]
    ensures UniqueKeys(TextBase(o))
    ensures Get(TextBase(o), "record") == Some(OptionalText(o.record))
  {
    var base := TextBase(o);
    var front := base[..3];
    assert base == front + [("record", OptionalText(o.record))];
    assert Keys(front) == ["fast", "indexed", "fieldnorms"];
    GetAppend(front, [("record", OptionalText(o.record))], "record");
  }

  /** The optional settings are distinct and none is a fixed one. */
  lemma TextEntriesFresh(o: TextOptions, tok: Option<Json>)
    ensures DistinctNames(TextEntries(o, tok))
    ensures forall i :: 0 <= i < |TextEntries(o, tok)| ==>
      TextEntries(o, tok)[i].0 !in ["fast", "indexed", "fieldnorms", "record"]
  {
  }

  /** The optional text settings that are given, in order. */
  lemma TextGivenNames(o: TextOptions, tok: Option<Json>)
    ensures GivenNames(TextEntries(o, tok))
         == (if tok.Some? then ["tokenizer"] else [])
            + (if NonEmpty(o.normalizer) then ["normalizer"] else [])
            + (if NonEmpty(o.column) then ["column"] else [])
  {
    var ps := TextEntries(o, tok);
    assert ps[..3] == ps;
    assert ps[..2][..1] == ps[..1];
    assert ps[..1][..0] == [];
    assert GivenNames(ps[..1]) == (if tok.Some? then ["tokenizer"] else []);
    assert GivenNames(ps[..2]) == GivenNames(ps[..1]) + (if NonEmpty(o.normalizer) then ["normalizer"] else []);
    assert GivenNames(ps) == GivenNames(ps[..2]) + (if NonEmpty(o.column) then ["column"] else []);
  }

  /** The keys of a text configuration's JSON: the four fixed ones and the given optional ones. */
  lemma TextMembersHas(o: TextOptions, tok: Option<Json>, k: string)
    ensures k in Keys(TextMembers(o, tok))
        <==> || k in ["fast", "indexed", "fieldnorms", "record"]
             || (k == "tokenizer" && tok.Some?)
             || (k == "normalizer" && NonEmpty(o.normalizer))
             || (k == "column" && NonEmpty(o.column))
  {
    var base := ["fast", "indexed", "fieldnorms", "record"];
    var given := GivenNames(TextEntries(o, tok));
    TextMembersKeys(o, tok);
    assert Keys(TextBase(o)) == base;
    assert k in Keys(TextMembers(o, tok)) <==> k in base || k in given;
    TextGivenHas(o, tok, k);
  }

  lemma TextGivenHas(o: TextOptions, tok: Option<Json>, k: string)
    ensures k in GivenNames(TextEntries(o, tok))
        <==> || (k == "tokenizer" && tok.Some?)
             || (k == "normalizer" && NonEmpty(o.normalizer))
             || (k == "column" && NonEmpty(o.column))
  {
    TextGivenNames(o, tok);
    var a := if tok.Some? then ["tokenizer"] else [];
    var b := if NonEmpty(o.normalizer) then ["normalizer"] else [];
    var c := if NonEmpty(o.column) then ["column"] else [];
    assert k in a + b + c <==> k in a || k in b || k in c;
  }

  /** A text configuration's JSON, when it has one, has each key once and the record as given. */
  lemma TextJsonLayout(o: TextOptions)
    requires TextJson(o).Ok?
    ensures UniqueKeys(TextJson(o).value)
    ensures Get(TextJson(o).value, "record") == Some(OptionalText(o.record))
  {
    TextMembersKeys(o, TokenizerMember(o).value);
  }

  /** A text configuration's JSON holds the tokenizer, normalizer and column exactly when given. */
  lemma TextJsonOptional(o: TextOptions)
    requires TextJson(o).Ok?
    ensures "tokenizer" in Keys(TextJson(o).value) <==> o.tokenizer.Some?
    ensures "normalizer" in Keys(TextJson(o).value) <==> NonEmpty(o.normalizer)
    ensures "column" in Keys(TextJson(o).value) <==> NonEmpty(o.column)
    ensures "expand_dots" !in Keys(TextJson(o).value)
  {
    var tok := TokenizerMember(o).value;
    TextMembersHas(o, tok, "tokenizer");
    TextMembersHas(o, tok, "normalizer");
    TextMembersHas(o, tok, "column");
    TextMembersHas(o, tok, "expand_dots");
  }

  /** The JSON configuration defaults to no normalizer: its JSON has no normalizer key. */
  lemma JsonDefaultsOmitNormalizer(field: string, expandDots: bool)
    ensures ConfigJson(JsonFieldConfig(field, JsonDefaults, expandDots)).Ok?
    ensures "normalizer" !in Keys(ConfigJson(JsonFieldConfig(field, JsonDefaults, expandDots)).value)
    ensures Get(ConfigJson(JsonFieldConfig(field, JsonDefaults, expandDots)).value, "expand_dots")
         == Some(JBool(expandDots))
  {
    TextJsonOptional(JsonDefaults);
    var j := TextJson(JsonDefaults).value;
    PutNew(j, "expand_dots", JBool(expandDots));
    KeysAppend(j, [("expand_dots", JBool(expandDots))]);
  }

  /** Numeric, boolean and date-time JSON is `fast` and `indexed`, plus the column when given. */
  lemma ScalarJsonLayout(fast: bool, indexed: bool, column: Option<string>)
    ensures ScalarJson(fast, indexed, column)
         == [("fast", JBool(fast)), ("indexed", JBool(indexed))]
            + (if NonEmpty(column) then [("column", JStr(column.value))] else [])
  {
    var base := [("fast", JBool(fast)), ("indexed", JBool(indexed))];
    assert Keys(base) == ["fast", "indexed"];
    if NonEmpty(column) {
      PutNew(base, "column", JStr(column.value));
    }
  }

  /** `IndexFieldConfig`: each category given as `None` (or empty) becomes an empty list. */
  datatype IndexFieldConfig = IndexFieldConfig(
    textFields: seq<FieldConfig>,
    jsonFields: seq<FieldConfig>,
    numericFields: seq<FieldConfig>,
    booleanFields: seq<FieldConfig>,
    datetimeFields: seq<FieldConfig>)

  function NewIndexFieldConfig(text: Option<seq<FieldConfig>>, json: Option<seq<FieldConfig>>,
                               numeric: Option<seq<FieldConfig>>, boolean: Option<seq<FieldConfig>>,
                               datetime: Option<seq<FieldConfig>>): (r: IndexFieldConfig)
    ensures r.textFields == (if text.Some? then text.value else [])
    ensures r.jsonFields == (if json.Some? then json.value else [])
    ensures r.numericFields == (if numeric.Some? then numeric.value else [])
    ensures r.booleanFields == (if boolean.Some? then boolean.value else [])
    ensures r.datetimeFields == (if datetime.Some? then datetime.value else [])
  {
    IndexFieldConfig(text.GetOr([]), json.GetOr([]), numeric.GetOr([]), boolean.GetOr([]), datetime.GetOr([]))
  }

  // -------------------------------------------------------- category JSON

  /** Each configuration's field with its JSON, in order; the first configuration without JSON fails. */
  function ConfigJsons(configs: seq<FieldConfig>): (r: Result<seq<(string, Members)>>)
    ensures r.Err? ==> r.error == NotImplementedError
    ensures r.Ok? ==> |r.value| == |configs|
  {
    if |configs| == 0 then Ok([])
    else
      var init :- ConfigJsons(configs[..|configs| - 1]);
      var last := configs[|configs| - 1];
      var j :- ConfigJson(last);
      Ok(init + [(last.field, j)])
  }

  /** The object the dict comprehension builds: each field assigned its JSON in turn. */
  function ObjectOf(pairs: seq<(string, Members)>): Members
  {
    if |pairs| == 0 then []
    else Put(ObjectOf(pairs[..|pairs| - 1]), pairs[|pairs| - 1].0, JObject(pairs[|pairs| - 1].1))
  }

  /** `{c.field: c.json for c in configs}` */
  function CategoryObject(configs: seq<FieldConfig>): Result<Members>
  {
    var pairs :- ConfigJsons(configs);
    Ok(ObjectOf(pairs))
  }

  /** Every configuration with JSON contributes its field and that JSON, at its own position. */
  lemma ConfigJsonsLaws(configs: seq<FieldConfig>)
    ensures ConfigJsons(configs).Ok? <==> forall i :: 0 <= i < |configs| ==> HasJson(configs[i])
    ensures ConfigJsons(configs).Ok? ==> forall i :: 0 <= i < |configs| ==>
      ConfigJsons(configs).value[i] == (configs[i].field, ConfigJson(configs[i]).value)
  {
    ConfigJsonsOk(configs);
    if ConfigJsons(configs).Ok? {
      forall i | 0 <= i < |configs|
        ensures ConfigJsons(configs).value[i] == (configs[i].field, ConfigJson(configs[i]).value)
      {
        ConfigJsonsAt(configs, i);
      }
    }
  }

  /** The list is built exactly when every configuration has JSON. */
  lemma {:induction false} ConfigJsonsOk(configs: seq<FieldConfig>)
    ensures ConfigJsons(configs).Ok? <==> forall i :: 0 <= i < |configs| ==> HasJson(configs[i])
  {
    if |configs| > 0 {
      var init := configs[..|configs| - 1];
      ConfigJsonsOk(init);
      assert forall i :: 0 <= i < |init| ==> init[i] == configs[i];
    }
  }

  /** The pair at position `i` is the `i`-th configuration's field and JSON. */
  lemma {:induction false} ConfigJsonsAt(configs: seq<FieldConfig>, i: nat)
    requires ConfigJsons(configs).Ok? && i < |configs|
    ensures ConfigJsons(configs).value[i].0 == configs[i].field
    ensures ConfigJson(configs[i]) == Ok(ConfigJsons(configs).value[i].1)
  {
    var init := configs[..|configs| - 1];
    if i < |init| {
      ConfigJsonsAt(init, i);
      assert init[i] == configs[i];
    }
  }

  /** The fields of the pairs, in order. */
  function Fields(pairs: seq<(string, Members)>): seq<string>
  {
    if |pairs| == 0 then [] else Fields(pairs[..|pairs| - 1]) + [pairs[|pairs| - 1].0]
  }

  /** The object holds one key per field, each once. */
  lemma {:induction false} ObjectOfKeys(pairs: seq<(string, Members)>, k: string)
    ensures UniqueKeys(ObjectOf(pairs))
    ensures k in Keys(ObjectOf(pairs)) <==> k in Fields(pairs)
  {
    if |pairs| > 0 {
      var init := pairs[..|pairs| - 1];
      var last := pairs[|pairs| - 1];
      ObjectOfKeys(init, k);
      PutHas(ObjectOf(init), last.0, JObject(last.1), k);
    }
  }

  /** A field assigned more than once keeps the value of its last assignment. */
  lemma {:induction false} ObjectOfLastWins(pairs: seq<(string, Members)>, i: nat)
    requires i < |pairs|
    requires forall j :: i < j < |pairs| ==> pairs[j].0 != pairs[i].0
    ensures Get(ObjectOf(pairs), pairs[i].0) == Some(JObject(pairs[i].1))
  {
    if i < |pairs| - 1 {
      var init := pairs[..|pairs| - 1];
      assert init[i] == pairs[i];
      forall j | i < j < |init| ensures init[j].0 != init[i].0 {
        assert init[j] == pairs[j];
      }
      ObjectOfLastWins(init, i);
    }
  }

  /**
   * A category's object exists exactly when every configuration has JSON; it then
   * holds each configured field once, and a field configured twice takes the
   * last configuration's JSON.
   */
  lemma CategoryObjectLaws(configs: seq<FieldConfig>, i: nat)
    requires i < |configs|
    requires forall j :: i < j < |configs| ==> configs[j].field != configs[i].field
    ensures CategoryObject(configs).Ok? <==> forall j :: 0 <= j < |configs| ==> HasJson(configs[j])
    ensures CategoryObject(configs).Ok? ==>
      && UniqueKeys(CategoryObject(configs).value)
      && Get(CategoryObject(configs).value, configs[i].field) == Some(JObject(ConfigJson(configs[i]).value))
  {
    ConfigJsonsLaws(configs);
    if CategoryObject(configs).Ok? {
      var pairs := ConfigJsons(configs).value;
      assert pairs[i].0 == configs[i].field;
      forall j | i < j < |pairs| ensures pairs[j].0 != pairs[i].0 {
        assert pairs[j].0 == configs[j].field;
      }
      ObjectOfKeys(pairs, "");
      ObjectOfLastWins(pairs, i);
    }
  }

  /** One `cat='<json>'` entry of the WITH clause. */
  function CategoryPart(name: string, configs: seq<FieldConfig>): Result<string>
  {
    var o :- CategoryObject(configs);
    Ok(name + "_fields='" + Serialize(JObject(o)) + "'")
  }

  // ----------------------------------------------------------- IndexField

  /** The cast with one leading `::` removed. */
  function StripCast(cast: string): (r: string)
    ensures |cast| >= 2 && cast[..2] == "::" ==> "::" + r == cast
    ensures !(|cast| >= 2 && cast[..2] == "::") ==> r == cast
  {
    if |cast| >= 2 && cast[..2] == "::" then cast[2..] else cast
  }

  /**
   * `IndexField`: a column of the index, optionally cast to a tokenizer.  The
   * column arrives resolved to its name; a field resolver, when given, is applied
   * to it each time the SQL is built.
   */
  class IndexField {
    var indexField: string
    var tokenizerCast: Option<string>
    const fieldResolver: Option<string -> string>

    constructor (field: string, tokenizerCast: Option<string>, fieldResolver: Option<string -> string>)
      ensures indexField == field && this.tokenizerCast == tokenizerCast && this.fieldResolver == fieldResolver
    {
      indexField := field;
      this.tokenizerCast := tokenizerCast;
      this.fieldResolver := fieldResolver;
    }

    /** `as_sql`: `(column::cast)`, or `(column)` without a cast, and no parameters. */
    method AsSql() returns (sql: string, params: seq<Scalar>)
      modifies this
      ensures indexField == if fieldResolver.Some? then fieldResolver.value(old(indexField)) else old(indexField)
      ensures tokenizerCast == if NonEmpty(old(tokenizerCast)) then Some(StripCast(old(tokenizerCast).value))
                               else old(tokenizerCast)
      ensures NonEmpty(old(tokenizerCast)) ==> sql == "(" + indexField + "::" + tokenizerCast.value + ")"
      ensures !NonEmpty(old(tokenizerCast)) ==> sql == "(" + indexField + ")"
      ensures params == []
    {
      if fieldResolver.Some? {
        indexField := fieldResolver.value(indexField);
      }
      if tokenizerCast.Some? && tokenizerCast.value != "" {
        var cast := tokenizerCast.value;
        if |cast| >= 2 && cast[..2] == "::" {
          tokenizerCast := Some(cast[2..]);
        }
        sql := "(" + indexField + "::" + tokenizerCast.value + ")";
      } else {
        sql := "(" + indexField + ")";
      }
      params := [];
    }
  }

  // ------------------------------------------------------------ Bm25Index

  /** The statement `create_sql` returns; only its `extra` part is modelled. */
  class IndexStatement {
    var extra: string

    constructor ()
      ensures extra == ""
    {
      extra := "";
    }
  }

  /** The `key_field=` entry: the index's own key field, else the model's key name. */
  function KeyPart(keyField: Option<string>, model: Model): string
  {
    "key_field=" + (if NonEmpty(keyField) then keyField.value else ModelKeyName(model))
  }

  /** The `k=v` entries of `with_extra`, in order. */
  function ExtraParts(extra: seq<(string, Scalar)>): (r: seq<string>)
    ensures |r| == |extra|
    ensures forall i :: 0 <= i < |extra| ==> r[i] == extra[i].0 + "=" + PyStr(extra[i].1)
  {
    seq(|extra|, i requires 0 <= i < |extra| => extra[i].0 + "=" + PyStr(extra[i].1))
  }

  /** The five categories, in the order the clause lists them. */
  function Categories(c: IndexFieldConfig): seq<(string, seq<FieldConfig>)>
  {
    [("text", c.textFields), ("json", c.jsonFields), ("numeric", c.numericFields),
     ("boolean", c.booleanFields), ("datetime", c.datetimeFields)]
  }

  /** One entry per non-empty category, in order. */
  function CategoryParts(cats: seq<(string, seq<FieldConfig>)>): (r: Result<seq<string>>)
    ensures r.Ok? ==> |r.value| <= |cats|
  {
    if |cats| == 0 then Ok([])
    else
      var init :- CategoryParts(cats[..|cats| - 1]);
      var (name, configs) := cats[|cats| - 1];
      if |configs| == 0 then Ok(init)
      else
        var part :- CategoryPart(name, configs);
        Ok(init + [part])
  }

  /** The entries of the WITH clause: the key field, the extra settings, then the field categories. */
  function WithParts(keyField: Option<string>, model: Model, withExtra: Option<seq<(string, Scalar)>>,
                     fieldsConfig: Option<IndexFieldConfig>): (r: Result<seq<string>>)
    ensures r.Ok? ==> |r.value| >= 1 + |withExtra.GetOr([])|
    ensures r.Ok? ==> r.value[0] == KeyPart(keyField, model)
    ensures r.Ok? ==> r.value[1..1 + |withExtra.GetOr([])|] == ExtraParts(withExtra.GetOr([]))
    ensures fieldsConfig.None? ==> r == Ok([KeyPart(keyField, model)] + ExtraParts(withExtra.GetOr([])))
  {
    var head := [KeyPart(keyField, model)] + ExtraParts(withExtra.GetOr([]));
    if fieldsConfig.None? then Ok(head)
    else
      var cats :- CategoryParts(Categories(fieldsConfig.value));
      assert (head + cats)[1..1 + |withExtra.GetOr([])|] == ExtraParts(withExtra.GetOr([]));
      Ok(head + cats)
  }

  /** `Bm25Index`: what `create_sql` reads of it. */
  class Bm25Index {
    const name: string
    const fieldsConfig: Option<IndexFieldConfig>
    const keyField: Option<string>
    const withExtra: Option<seq<(string, Scalar)>>

    constructor (name: string, fieldsConfig: Option<IndexFieldConfig>, keyField: Option<string>,
                 withExtra: Option<seq<(string, Scalar)>>)
      requires name != ""
      ensures this.name == name && this.fieldsConfig == fieldsConfig
      ensures this.keyField == keyField && this.withExtra == withExtra
    {
      this.name := name;
      this.fieldsConfig := fieldsConfig;
      this.keyField := keyField;
      this.withExtra := withExtra;
    }

    /** The WITH-clause part of `create_sql`, written into the statement's `extra`. */
    method CreateSql(model: Model, statement: IndexStatement) returns (r: Result<()>)
      modifies statement
      ensures var parts := WithParts(keyField, model, withExtra, fieldsConfig);
        && (r.Ok? <==> parts.Ok?)
        && (r.Err? ==> r.error == parts.error && statement.extra == old(statement.extra))
        && (r.Ok? ==> statement.extra == " WITH (" + Join(parts.value, ", ") + ")")
    {
      var withParts := AppendExtra([KeyPart(keyField, model)], if withExtra.Some? then withExtra.value else []);
      if fieldsConfig.Some? {
        var all := AppendCategories(withParts, Categories(fieldsConfig.value));
        if all.Err? {
          return Err(all.error);
        }
        withParts := all.value;
      }
      statement.extra := " WITH (" + Join(withParts, ", ") + ")";
      r := Ok(());
    }
  }

  /** Appends one `k=v` entry per extra setting, in order. */
  method AppendExtra(parts: seq<string>, extra: seq<(string, Scalar)>) returns (r: seq<string>)
    ensures r == parts + ExtraParts(extra)
  {
    r := parts;
    var i := 0;
    while i < |extra|
      invariant 0 <= i <= |extra|
      invariant r == parts + ExtraParts(extra[..i])
    {
      assert ExtraParts(extra[..i + 1]) == ExtraParts(extra[..i]) + [extra[i].0 + "=" + PyStr(extra[i].1)];
      Assoc(parts, ExtraParts(extra[..i]), [extra[i].0 + "=" + PyStr(extra[i].1)]);
      r := r + [extra[i].0 + "=" + PyStr(extra[i].1)];
      i := i + 1;
    }
    assert extra[..i] == extra;
  }

  /** Appends one entry per non-empty category, in order; the first category that cannot be serialised fails. */
  method AppendCategories(parts: seq<string>, cats: seq<(string, seq<FieldConfig>)>) returns (r: Result<seq<string>>)
    ensures r.Ok? <==> CategoryParts(cats).Ok?
    ensures r.Err? ==> r.error == CategoryParts(cats).error
    ensures r.Ok? ==> r.value == parts + CategoryParts(cats).value
  {
    var acc := parts;
    var j := 0;
    while j < |cats|
      invariant 0 <= j <= |cats|
      invariant CategoryParts(cats[..j]).Ok?
      invariant acc == parts + CategoryParts(cats[..j]).value
    {
      CategoryPartsStep(cats, j + 1);
      var (catName, configs) := cats[j];
      if |configs| > 0 {
        var part := CategoryPart(catName, configs);
        if part.Err? {
          CategoryPartsFailsFrom(cats, j + 1);
          return Err(part.error);
        }
        Assoc(parts, CategoryParts(cats[..j]).value, [part.value]);
        acc := acc + [part.value];
      }
      j := j + 1;
    }
    assert cats[..j] == cats;
    return Ok(acc);
  }

  /** `Bm25Index(name=...)`: an index needs a name. */
  method NewBm25Index(name: Option<string>, fieldsConfig: Option<IndexFieldConfig>, keyField: Option<string>,
                      withExtra: Option<seq<(string, Scalar)>>) returns (r: Result<Bm25Index>)
    ensures r.Err? <==> !NonEmpty(name)
    ensures r.Err? ==> r.error == AssertionError
    ensures r.Ok? ==> fresh(r.value) && r.value.name == name.value && r.value.keyField == keyField
                      && r.value.fieldsConfig == fieldsConfig && r.value.withExtra == withExtra
  {
    if !NonEmpty(name) {
      return Err(AssertionError);
    }
    var index := new Bm25Index(name.value, fieldsConfig, keyField, withExtra);
    return Ok(index);
  }

  /** One more category: skipped when empty, else its entry is appended or its failure propagated. */
  lemma CategoryPartsStep(cats: seq<(string, seq<FieldConfig>)>, n: nat)
    requires 0 < n <= |cats|
    requires CategoryParts(cats[..n - 1]).Ok?
    ensures var (name, configs) := cats[n - 1];
      && (|configs| == 0 ==> CategoryParts(cats[..n]) == CategoryParts(cats[..n - 1]))
      && (|configs| > 0 && CategoryPart(name, configs).Ok? ==>
            CategoryParts(cats[..n]) == Ok(CategoryParts(cats[..n - 1]).value + [CategoryPart(name, configs).value]))
      && (|configs| > 0 && CategoryPart(name, configs).Err? ==>
            CategoryParts(cats[..n]).Err? && CategoryParts(cats[..n]).error == CategoryPart(name, configs).error)
  {
    assert cats[..n][..n - 1] == cats[..n - 1];
  }

  /** A failing prefix of the categories makes the whole list fail with its error. */
  lemma {:induction false} CategoryPartsFailsFrom(cats: seq<(string, seq<FieldConfig>)>, n: nat)
    requires n <= |cats|
    requires CategoryParts(cats[..n]).Err?
    ensures CategoryParts(cats).Err? && CategoryParts(cats).error == CategoryParts(cats[..n]).error
  {
    if n == |cats| {
      assert cats[..n] == cats;
    } else {
      var init := cats[..|cats| - 1];
      assert init[..n] == cats[..n];
      CategoryPartsFailsFrom(init, n);
    }
  }
}
