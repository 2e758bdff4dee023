/** Field references, identity keys and the value encoders of the core. */
module Utils {
  import opened Wrappers
  import opened Text
  import opened Values

  /** What the core reads from an ORM model class. */
  datatype Model = Model(
    dbTable: string,
    pkName: string,
    pkColumn: string,
    keyOverride: Option<string>)   // the optional `paradedb_key_field` class attribute

  /** `getattr(model, "paradedb_key_field", model._meta.pk.name)` */
  function ModelKeyName(m: Model): string
  {
    if m.keyOverride.Some? then m.keyOverride.value else m.pkName
  }

  /** A table given either as a model or as a raw table name. */
  datatype TableRef = ModelTable(model: Model) | NamedTable(name: string)

  /** Python truthiness of an optional table argument (a model class is always truthy). */
  predicate TableGiven(t: Option<TableRef>)
  {
    t.Some? && (t.value.NamedTable? ==> t.value.name != "")
  }

  predicate NonEmpty(s: Option<string>) { s.Some? && s.value != "" }

  // ---------------------------------------------------------------- KeyField

  datatype KeyField = KeyField(table: TableRef, primaryKeyField: Option<string>)

  /** What the constructor guarantees: a raw table name always comes with a key column. */
  predicate ValidKeyField(k: KeyField)
  {
    k.table.NamedTable? ==> NonEmpty(k.primaryKeyField)
  }

  /** `KeyField(table, primary_key_field)`; the table's type is checked by the types here. */
  function NewKeyField(table: TableRef, primaryKeyField: Option<string>): (r: Result<KeyField>)
    ensures r.Err? <==> table.NamedTable? && !NonEmpty(primaryKeyField)
    ensures r.Err? ==> r.error == ValueError
    ensures r.Ok? ==> ValidKeyField(r.value) && r.value == KeyField(table, primaryKeyField)
  {
    if table.NamedTable? && !NonEmpty(primaryKeyField) then Err(ValueError)
    else Ok(KeyField(table, primaryKeyField))
  }

  /** `KeyField.get_table()` */
  function KeyTable(k: KeyField): string
  {
    match k.table
    case ModelTable(m) => m.dbTable
    case NamedTable(n) => n
  }

  /** The key column `KeyField.get_sql()` puts after the dot. */
  function KeyColumn(k: KeyField): string
    requires ValidKeyField(k)
  {
    match k.table
    case ModelTable(m) =>
      if m.keyOverride.Some? then m.keyOverride.value
      else if k.primaryKeyField.None? then m.pkName
      else k.primaryKeyField.value
    case NamedTable(_) => k.primaryKeyField.value
  }

  /** `KeyField.get_sql()`: "table.key". */
  function KeySql(k: KeyField): (r: string)
    requires ValidKeyField(k)
    ensures '.' !in KeyTable(k) && '.' !in KeyColumn(k) ==> Split(r, '.') == [KeyTable(k), KeyColumn(k)]
  {
    if '.' !in KeyTable(k) && '.' !in KeyColumn(k) then
      SplitOnce(KeyTable(k), KeyColumn(k), '.');
      KeyTable(k) + "." + KeyColumn(k)
    else KeyTable(k) + "." + KeyColumn(k)
  }

  /** The key column chosen by `get_sql`, in the source's priority order. */
  lemma KeyColumnPriority(k: KeyField)
    requires ValidKeyField(k)
    ensures k.table.ModelTable? && k.table.model.keyOverride.Some? ==>
              KeyColumn(k) == k.table.model.keyOverride.value
    ensures k.table.ModelTable? && k.table.model.keyOverride.None? && k.primaryKeyField.Some? ==>
              KeyColumn(k) == k.primaryKeyField.value
    ensures k.table.ModelTable? && k.table.model.keyOverride.None? && k.primaryKeyField.None? ==>
              KeyColumn(k) == k.table.model.pkName
    ensures k.table.NamedTable? ==> KeyColumn(k) == k.primaryKeyField.value != ""
  {
  }

  // -------------------------------------------------------------- TableField

  /** The `key_field` argument of TableField: a KeyField or (wrongly) a string. */
  datatype TableKeyArg = TableKeyText(text: string) | TableKeyObject(key: KeyField)

  predicate TableKeyGiven(k: Option<TableKeyArg>)
  {
    k.Some? && (k.value.TableKeyText? ==> k.value.text != "")
  }

  /** A stored TableField; a falsy string key argument is kept as None (it is never a KeyField). */
  datatype TableField = TableField(field: string, table: Option<TableRef>, keyField: Option<KeyField>)

  predicate ValidTableField(t: TableField)
  {
    && (TableGiven(t.table) || t.keyField.Some?)
    && (t.keyField.Some? ==> ValidKeyField(t.keyField.value))
  }

  /** `TableField(field, table, key_field)` */
  function NewTableField(field: string, table: Option<TableRef>, keyField: Option<TableKeyArg>)
    : (r: Result<TableField>)
    requires keyField.Some? && keyField.value.TableKeyObject? ==> ValidKeyField(keyField.value.key)
    ensures r.Err? <==>
      (!TableGiven(table) && !TableKeyGiven(keyField)) ||
      (TableKeyGiven(keyField) && keyField.value.TableKeyText?)
    ensures r.Ok? ==> ValidTableField(r.value) && r.value.field == field && r.value.table == table
    ensures r.Ok? ==> (r.value.keyField.Some? <==> keyField.Some? && keyField.value.TableKeyObject?)
  {
    if !TableGiven(table) && !TableKeyGiven(keyField) then Err(ValueError)
    else if TableKeyGiven(keyField) && keyField.value.TableKeyText? then Err(ValueError)
    else
      var key := if keyField.Some? && keyField.value.TableKeyObject? then Some(keyField.value.key) else None;
      Ok(TableField(field, table, key))
  }

  /** The table name `TableField.get_sql()` uses. */
  function FieldTable(t: TableField): string
    requires ValidTableField(t)
  {
    match t.table
    case Some(ModelTable(m)) => m.dbTable
    case Some(NamedTable(n)) => if n != "" then n else KeyTable(t.keyField.value)
    case None => KeyTable(t.keyField.value)
  }

  /** `TableField.get_sql()`: "table.field". */
  function FieldSql(t: TableField): (r: string)
    requires ValidTableField(t)
    ensures '.' !in FieldTable(t) && '.' !in t.field ==> Split(r, '.') == [FieldTable(t), t.field]
  {
    if '.' !in FieldTable(t) && '.' !in t.field then
      SplitOnce(FieldTable(t), t.field, '.');
      FieldTable(t) + "." + t.field
    else FieldTable(t) + "." + t.field
  }

  /** Where get_sql takes its table from: the model, the given name, else the key's table. */
  lemma FieldTableSource(t: TableField)
    requires ValidTableField(t)
    ensures t.table.Some? && t.table.value.ModelTable? ==> FieldTable(t) == t.table.value.model.dbTable
    ensures TableGiven(t.table) && t.table.value.NamedTable? ==> FieldTable(t) == t.table.value.name
    ensures !TableGiven(t.table) ==> FieldTable(t) == KeyTable(t.keyField.value)
  {
  }

  /** `TableField.get_table_primary_key_field()`: the key's column first, then the model's. */
  function FieldPrimaryKey(t: TableField): (r: Option<string>)
    ensures t.keyField.Some? ==> r == t.keyField.value.primaryKeyField
    ensures t.keyField.None? && t.table.Some? && t.table.value.ModelTable? ==>
              r == Some(ModelKeyName(t.table.value.model))
    ensures t.keyField.None? && (t.table.None? || t.table.value.NamedTable?) ==> r.None?
  {
    if t.keyField.Some? then t.keyField.value.primaryKeyField
    else if t.table.Some? && t.table.value.ModelTable? then Some(ModelKeyName(t.table.value.model))
    else None
  }

  // ---------------------------------------------------------- postgres_array

  /** A string with backslashes doubled and then single quotes doubled. */
  function QuoteBody(s: string): string
  {
    ReplaceChar(ReplaceChar(s, '\\', "\\\\"), '\'', "''")
  }

  /** One element of an ARRAY constructor. */
  function ArrayItem(v: Scalar): string
  {
    match v
    case SNone => "NULL"
    case SStr(s) => "'" + QuoteBody(s) + "'"
    case _ => PyStr(v)
  }

  function ArrayItems(items: seq<Scalar>): (r: seq<string>)
    ensures |r| == |items|
    ensures forall i :: 0 <= i < |items| ==> r[i] == ArrayItem(items[i])
  {
    seq(|items|, i requires 0 <= i < |items| => ArrayItem(items[i]))
  }

  /** `postgres_array(items)`: a PostgreSQL ARRAY constructor with inline literals. */
  function PostgresArray(items: seq<Scalar>): (r: string)
    ensures r == "ARRAY[" + Join(ArrayItems(items), ", ") + "]"
    ensures items == [] ==> r == "ARRAY[]"
  {
    "ARRAY[" + Join(ArrayItems(items), ", ") + "]"
  }

  /** Reverses the doubling of `c`: a doubled `c` becomes one. */
  function Undouble(t: string, c: char): string
  {
    if |t| >= 2 && t[0] == c && t[1] == c then [c] + Undouble(t[2..], c)
    else if |t| == 0 then ""
    else [t[0]] + Undouble(t[1..], c)
  }

  lemma {:induction false} UndoubleReplace(s: string, c: char)
    ensures Undouble(ReplaceChar(s, c, [c, c]), c) == s
  {
    if |s| > 0 {
      ReplaceCharAppend([s[0]], s[1..], c, [c, c]);
      assert [s[0]] + s[1..] == s;
      UndoubleReplace(s[1..], c);
      var rest := ReplaceChar(s[1..], c, [c, c]);
      if s[0] == c {
        assert ReplaceChar(s, c, [c, c]) == [c, c] + rest;
        assert ([c, c] + rest)[2..] == rest;
      } else {
        assert ReplaceChar(s, c, [c, c]) == [s[0]] + rest;
        assert ([s[0]] + rest)[1..] == rest;
      }
    }
  }

  /** A quoted array element reads back as the original string. */
  lemma QuoteBodyDecodes(s: string)
    ensures Undouble(Undouble(QuoteBody(s), '\''), '\\') == s
  {
    UndoubleReplace(ReplaceChar(s, '\\', "\\\\"), '\'');
    UndoubleReplace(s, '\\');
  }

  // ------------------------------------------------------------ escape_query

  /** Python's `str.isspace()` characters, which `\s` matches in a str pattern. */
  predicate IsPyWhitespace(ch: char)
  {
    ch == ' ' || ('\t' <= ch <= '\r') || ('\U{1c}' <= ch <= '\U{1f}') || ch == '\U{85}' ||
    ch == '\U{a0}' || ch == '\U{1680}' || ('\U{2000}' <= ch <= '\U{200a}') || ch == '\U{2028}' ||
    ch == '\U{2029}' || ch == '\U{202f}' || ch == '\U{205f}' || ch == '\U{3000}'
  }

  /** The character class escape_query prefixes with a backslash. */
  predicate IsQuerySpecial(ch: char)
  {
    ch in "+^`:{}\"[]()<>~!\\*," || IsPyWhitespace(ch)
  }

  function CountSpecial(s: string): (n: nat)
    ensures n <= |s|
  {
    if |s| == 0 then 0 else (if IsQuerySpecial(s[0]) then 1 else 0) + CountSpecial(s[1..])
  }

  function EscapeText(s: string): (r: string)
    ensures |r| == |s| + CountSpecial(s)
  {
    if |s| == 0 then ""
    else (if IsQuerySpecial(s[0]) then ['\\', s[0]] else [s[0]]) + EscapeText(s[1..])
  }

  /** `escape_query(value)`: strings are escaped, any other value is returned unchanged. */
  function EscapeQuery(v: Scalar): (r: Scalar)
    ensures !v.SStr? ==> r == v
    ensures v.SStr? ==> r.SStr? && |r.s| == |v.s| + CountSpecial(v.s)
  {
    if v.SStr? then SStr(EscapeText(v.s)) else v
  }

  /** Drops the backslash in front of every escaped character. */
  function Unescape(t: string): string
  {
    if |t| >= 2 && t[0] == '\\' then [t[1]] + Unescape(t[2..])
    else if |t| == 0 then ""
    else [t[0]] + Unescape(t[1..])
  }

  /** Escaping loses nothing: removing the added backslashes gives the input back. */
  lemma {:induction false} EscapeTextDecodes(s: string)
    ensures Unescape(EscapeText(s)) == s
  {
    if |s| > 0 {
      EscapeTextDecodes(s[1..]);
      var rest := EscapeText(s[1..]);
      if IsQuerySpecial(s[0]) {
        assert (['\\', s[0]] + rest)[2..] == rest;
      } else {
        assert ([s[0]] + rest)[1..] == rest;
        assert s[0] != '\\';
      }
      assert s == [s[0]] + s[1..];
    }
  }

  /** Escaping works character by character, so it distributes over concatenation. */
  lemma {:induction false} EscapeTextAppend(a: string, b: string)
    ensures EscapeText(a + b) == EscapeText(a) + EscapeText(b)
  {
    if |a| > 0 {
      assert (a + b)[0] == a[0];
      assert (a + b)[1..] == a[1..] + b;
      EscapeTextAppend(a[1..], b);
    } else {
      assert a + b == b;
    }
  }

  /** A special character gains exactly one backslash; any other character is kept as is. */
  lemma EscapeChar(ch: char)
    ensures IsQuerySpecial(ch) ==> EscapeText([ch]) == ['\\', ch]
    ensures !IsQuerySpecial(ch) ==> EscapeText([ch]) == [ch]
  {
  }
}
