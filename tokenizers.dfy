/**
 * Tokenizer descriptors: the language tables, constructor validation and the
 * JSON configuration each tokenizer contributes to an index definition.
 */
module Tokenizers {
  import opened Wrappers
  import opened Json

  /** `StemmerLanguage.ALL` */
  const StemmerLanguages: seq<string> := [
    "Arabic", "Danish", "Dutch", "English", "Finnish", "French", "German", "Greek", "Hungarian",
    "Italian", "Norwegian", "Portuguese", "Romanian", "Russian", "Spanish", "Swedish", "Tamil", "Turkish"
  ]

  /** `StopWordLanguage.ALL` */
  const StopWordLanguages: seq<string> := [
    "Danish", "Dutch", "English", "Finnish", "French", "German", "Hungarian", "Italian", "Norwegian",
    "Portuguese", "Russian", "Spanish", "Swedish"
  ]

  /** The optional token filters every tokenizer takes; `None` is an omitted argument. */
  datatype Filters = Filters(
    stemmer: Option<string>,
    removeLong: Option<int>,
    lowercase: Option<bool>,
    stopwordsLanguage: Option<string>,
    stopwords: Option<seq<string>>,
    asciiFolding: Option<bool>)

  /** The tokenizer classes whose JSON is only their name and the filters. */
  datatype PlainKind =
    | DefaultKind | Whitespace | Raw | KeyWord | SourceCode
    | ChineseCompatible | Lindera | Jieba | Icu | Literal

  /** The class attribute `name` of each plain tokenizer. */
  function PlainName(k: PlainKind): string
  {
    match k
    case DefaultKind => "default"
    case Whitespace => "whitespace"
    case Raw => "raw"
    case KeyWord => "keyword"
    case SourceCode => "source_code"
    case ChineseCompatible => "chinese_compatible"
    case Lindera => "chinese_lindera"
    case Jieba => "jieba"
    case Icu => "icu"
    case Literal => "literal"
  }

  /** The base class itself, a plain subclass, or one of the two subclasses with extra settings. */
  datatype Kind =
    | Base
    | Plain(plain: PlainKind)
    | RegexKind(pattern: string)
    | NGramKind(minGram: int, maxGram: int, prefixOnly: bool)

  datatype Tokenizer = Tokenizer(kind: Kind, filters: Filters)

  /** What the constructor checks: each language, when given, is one it knows. */
  predicate ValidFilters(f: Filters)
  {
    && (f.stemmer.Some? ==> f.stemmer.value in StemmerLanguages)
    && (f.stopwordsLanguage.Some? ==> f.stopwordsLanguage.value in StopWordLanguages)
  }

  /** `Tokenizer.__init__` (every subclass passes its filters through unchanged). */
  function NewTokenizer(kind: Kind, f: Filters): (r: Result<Tokenizer>)
    ensures r.Ok? <==> ValidFilters(f)
    ensures r.Err? ==> r.error == ValueError
    ensures r.Ok? ==> r.value.kind == kind && r.value.filters == f
  {
    if f.stemmer.Some? && f.stemmer.value !in StemmerLanguages then Err(ValueError)
    else if f.stopwordsLanguage.Some? && f.stopwordsLanguage.value !in StopWordLanguages then Err(ValueError)
    else Ok(Tokenizer(kind, f))
  }

  /** `NGramTokenizer(...)`: it takes no stop-word arguments and passes none on. */
  function NewNGram(minGram: int, maxGram: int, prefixOnly: bool, stemmer: Option<string>,
                    removeLong: Option<int>, lowercase: Option<bool>, asciiFolding: Option<bool>)
    : (r: Result<Tokenizer>)
    ensures r.Ok? <==> (stemmer.Some? ==> stemmer.value in StemmerLanguages)
    ensures r.Ok? ==> r.value.filters.stopwordsLanguage.None? && r.value.filters.stopwords.None?
  {
    NewTokenizer(NGramKind(minGram, maxGram, prefixOnly),
                 Filters(stemmer, removeLong, lowercase, None, None, asciiFolding))
  }

  /** The six optional filters under the keys `default_config()` gives them, in its order. */
  function FilterEntries(f: Filters): seq<(string, Option<Json>)>
  {
    [("stemmer", if f.stemmer.Some? then Some(JStr(f.stemmer.value)) else None),
     ("remove_long", if f.removeLong.Some? then Some(JInt(f.removeLong.value)) else None),
     ("lowercase", if f.lowercase.Some? then Some(JBool(f.lowercase.value)) else None),
     ("stopwords_language", if f.stopwordsLanguage.Some? then Some(JStr(f.stopwordsLanguage.value)) else None),
     ("stopwords", if f.stopwords.Some? then Some(FromStrings(f.stopwords.value)) else None),
     ("ascii_folding", if f.asciiFolding.Some? then Some(JBool(f.asciiFolding.value)) else None)]
  }

  /** `default_config()`: a fresh object with each given filter assigned, one after the other. */
  function DefaultConfig(f: Filters): Members
  {
    AssignAll([], FilterEntries(f))
  }

  /**
   * `default_config()` holds the given filters and nothing else, each once and
   * in the fixed order, each with the value it was given.
   */
  lemma DefaultConfigLaws(f: Filters, k: string)
    ensures Keys(DefaultConfig(f)) == GivenNames(FilterEntries(f))
    ensures UniqueKeys(DefaultConfig(f))
    ensures Get(DefaultConfig(f), k) == Assigned(FilterEntries(f), k)
    ensures k in Keys(DefaultConfig(f)) ==> k in FilterNames
  {
    var ps := FilterEntries(f);
    assert forall i :: 0 <= i < |ps| ==> ps[i].0 == FilterNames[i];
    AssignAllKeys([], ps);
    AssignAllGet([], ps, k);
    GivenNamesIn(ps, k);
  }

  /** The keys `default_config()` may write. */
  const FilterNames: seq<string> :=
    ["stemmer", "remove_long", "lowercase", "stopwords_language", "stopwords", "ascii_folding"]

  /** The `type` each tokenizer class writes. */
  function TypeName(kind: Kind): string
    requires !kind.Base?
  {
    match kind
    case Plain(k) => PlainName(k)
    case RegexKind(_) => "regex"
    case NGramKind(_, _, _) => "ngram"
  }

  /** The members a tokenizer's `json` writes before spreading `default_config()`. */
  function Head(kind: Kind): Members
    requires !kind.Base?
  {
    match kind
    case Plain(k) => [("type", JStr(PlainName(k)))]
    case RegexKind(p) => [("type", JStr("regex")), ("pattern", JStr(p))]
    case NGramKind(lo, hi, prefixOnly) =>
      [("type", JStr("ngram")), ("min_gram", JInt(lo)), ("max_gram", JInt(hi)), ("prefix_only", JBool(prefixOnly))]
  }

  /** The `json` property; the base class has none. */
  function TokenizerJson(t: Tokenizer): (r: Result<Members>)
    ensures r.Err? <==> t.kind.Base?
    ensures r.Err? ==> r.error == NotImplementedError
  {
    if t.kind.Base? then Err(NotImplementedError)
    else Ok(Merge(Head(t.kind), DefaultConfig(t.filters)))
  }

  /** `sql()`: no tokenizer class overrides the base, which raises. */
  function TokenizerSql(t: Tokenizer): (r: Result<string>)
    ensures r.Err? && r.error == NotImplementedError
  {
    Err(NotImplementedError)
  }

  /** Spreading `default_config()` after members that use no filter key appends it unchanged. */
  lemma SpreadConfig(head: Members, f: Filters)
    requires UniqueKeys(head)
    requires forall k :: k in Keys(head) ==> k !in FilterNames
    ensures Merge(head, DefaultConfig(f)) == head + DefaultConfig(f)
    ensures UniqueKeys(head + DefaultConfig(f))
    ensures Keys(head + DefaultConfig(f)) == Keys(head) + GivenNames(FilterEntries(f))
    ensures forall k :: k in Keys(head) ==> Get(head + DefaultConfig(f), k) == Get(head, k)
  {
    var config := DefaultConfig(f);
    forall k | k in Keys(config) ensures k !in Keys(head) {
      DefaultConfigLaws(f, k);
    }
    DefaultConfigLaws(f, "");
    MergeDisjoint(head, config);
    KeysAppend(head, config);
    forall k | k in Keys(head) ensures Get(head + config, k) == Get(head, k) {
      GetAppend(head, config, k);
    }
  }

  /** No tokenizer writes a fixed member under a filter key, and none writes one twice. */
  lemma HeadKeys(kind: Kind)
    requires !kind.Base?
    ensures UniqueKeys(Head(kind))
    ensures forall k :: k in Keys(Head(kind)) ==> k !in FilterNames
    ensures Get(Head(kind), "type") == Some(JStr(TypeName(kind)))
  {
    var head := Head(kind);
    assert Keys(head) == seq(|head|, i requires 0 <= i < |head| => head[i].0);
  }

  /**
   * A tokenizer's JSON is its fixed members followed by the given filters: the
   * spread overwrites nothing, `type` names the class, and every key occurs once.
   */
  lemma TokenizerJsonLayout(t: Tokenizer)
    requires !t.kind.Base?
    ensures TokenizerJson(t) == Ok(Head(t.kind) + DefaultConfig(t.filters))
    ensures UniqueKeys(TokenizerJson(t).value)
    ensures Get(TokenizerJson(t).value, "type") == Some(JStr(TypeName(t.kind)))
    ensures Keys(TokenizerJson(t).value) == Keys(Head(t.kind)) + GivenNames(FilterEntries(t.filters))
  {
    HeadKeys(t.kind);
    SpreadConfig(Head(t.kind), t.filters);
  }

  /** An n-gram tokenizer never carries stop-word settings into its JSON. */
  lemma NGramOmitsStopwords(minGram: int, maxGram: int, prefixOnly: bool, stemmer: Option<string>,
                            removeLong: Option<int>, lowercase: Option<bool>, asciiFolding: Option<bool>)
    requires NewNGram(minGram, maxGram, prefixOnly, stemmer, removeLong, lowercase, asciiFolding).Ok?
    ensures var t := NewNGram(minGram, maxGram, prefixOnly, stemmer, removeLong, lowercase, asciiFolding).value;
      TokenizerJson(t).Ok?
      && "stopwords" !in Keys(TokenizerJson(t).value)
      && "stopwords_language" !in Keys(TokenizerJson(t).value)
  {
    var t := NewNGram(minGram, maxGram, prefixOnly, stemmer, removeLong, lowercase, asciiFolding).value;
    TokenizerJsonLayout(t);
    NoStopwordKeys(t.filters);
    HeadKeys(t.kind);
    assert "stopwords" in FilterNames && "stopwords_language" in FilterNames;
  }

  lemma NoStopwordKeys(f: Filters)
    requires f.stopwords.None? && f.stopwordsLanguage.None?
    ensures "stopwords" !in GivenNames(FilterEntries(f))
    ensures "stopwords_language" !in GivenNames(FilterEntries(f))
  {
    var ps := FilterEntries(f);
    GivenNamesIn(ps, "stopwords");
    GivenNamesIn(ps, "stopwords_language");
  }
}
