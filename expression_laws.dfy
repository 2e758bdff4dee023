/** Properties of the expression compiler. */
module ExpressionLaws {
  import opened Wrappers
  import opened Text
  import opened Values
  import opened Json
  import opened Settings
  import opened Utils
  import opened Dialect
  import opened Expressions

  /** The node with the flags a parent sets on it (Python's `q.ignore_lhs = True` etc.). */
  function WithFlags(e: Expr, f: Force): (r: Expr)
    ensures r.Match? == e.Match?
  {
    if HasIgnoreLhs(e) then e.(ignoreLhs := e.ignoreLhs || f.ignoreLhs, legacy := e.legacy || f.legacy)
    else if e.All? then All(e.key, e.matchOp, e.legacy || f.legacy)
    else if e.Parse? then Parse(e.queryText, e.lenient, e.conjunctionMode, e.key, e.matchOp, e.legacy || f.legacy)
    else e
  }

  /**
   * Passing the parent's flags down is the same as setting them on the child
   * and compiling it unforced.
   */
  lemma ForceIsSettingFlags(e: Expr, ctx: Context, f: Force)
    ensures Compile(e, ctx, f) == Compile(WithFlags(e, f), ctx, NoForce)
  {
    if HasIgnoreLhs(e) {
      ForceFieldNode(e, ctx, f);
    } else {
      ForceOtherNode(e, ctx, f);
    }
  }

  lemma ForceFieldNode(e: Expr, ctx: Context, f: Force)
    requires HasIgnoreLhs(e)
    ensures Compile(e, ctx, f) == Compile(WithFlags(e, f), ctx, NoForce)
  {
    if e.Match? {
      ForceMatch(e, ctx, f);
    } else if e.Range? {
      ForceRange(e, ctx, f);
    } else if e.RangeTerm? {
      ForceRangeTerm(e, ctx, f);
    } else if e.Regex? {
      ForceRegex(e, ctx, f);
    } else if e.Term? {
      ForceTerm(e, ctx, f);
    } else if e.FuzzyTerm? {
      ForceFuzzyTerm(e, ctx, f);
    } else if e.Phrase? {
      ForcePhrase(e, ctx, f);
    } else {
      ForcePhrasePrefix(e, ctx, f);
    }
  }

  lemma ForceMatch(e: Expr, ctx: Context, f: Force)
    requires e.Match?
    ensures Compile(e, ctx, f) == Compile(WithFlags(e, f), ctx, NoForce)
  {
    MatchFlags(e, f);
  }

  lemma MatchFlags(e: Expr, f: Force)
    requires e.Match?
    ensures var r := WithFlags(e, f);
      && r.Match? && r.field == e.field && r.value == e.value && r.distance == e.distance
      && r.conjunctionMode == e.conjunctionMode && r.tokenizer == e.tokenizer && r.key == e.key
      && r.transpositionCostOne == e.transpositionCostOne && r.prefix == e.prefix
      && r.escaped == e.escaped && r.matchOp == e.matchOp
      && r.ignoreLhs == (e.ignoreLhs || f.ignoreLhs) && r.legacy == (e.legacy || f.legacy)
  {
  }

  lemma ForceRange(e: Expr, ctx: Context, f: Force)
    requires e.Range?
    ensures Compile(e, ctx, f) == Compile(WithFlags(e, f), ctx, NoForce)
  {
  }

  lemma ForceRangeTerm(e: Expr, ctx: Context, f: Force)
    requires e.RangeTerm?
    ensures Compile(e, ctx, f) == Compile(WithFlags(e, f), ctx, NoForce)
  {
  }

  lemma ForceRegex(e: Expr, ctx: Context, f: Force)
    requires e.Regex?
    ensures Compile(e, ctx, f) == Compile(WithFlags(e, f), ctx, NoForce)
  {
  }

  lemma ForceTerm(e: Expr, ctx: Context, f: Force)
    requires e.Term?
    ensures Compile(e, ctx, f) == Compile(WithFlags(e, f), ctx, NoForce)
  {
  }

  lemma ForceFuzzyTerm(e: Expr, ctx: Context, f: Force)
    requires e.FuzzyTerm?
    ensures Compile(e, ctx, f) == Compile(WithFlags(e, f), ctx, NoForce)
  {
  }

  lemma ForcePhrase(e: Expr, ctx: Context, f: Force)
    requires e.Phrase?
    ensures Compile(e, ctx, f) == Compile(WithFlags(e, f), ctx, NoForce)
  {
  }

  lemma ForcePhrasePrefix(e: Expr, ctx: Context, f: Force)
    requires e.PhrasePrefix?
    ensures Compile(e, ctx, f) == Compile(WithFlags(e, f), ctx, NoForce)
  {
  }

  lemma ForceOtherNode(e: Expr, ctx: Context, f: Force)
    requires !HasIgnoreLhs(e)
    ensures Compile(e, ctx, f) == Compile(WithFlags(e, f), ctx, NoForce)
  {
    if e.All? {
      ForceAll(e, ctx, f);
    } else if e.Parse? {
      ForceParse(e, ctx, f);
    } else {
      ForceUnflagged(e, ctx, f);
    }
  }

  lemma ForceAll(e: Expr, ctx: Context, f: Force)
    requires e.All?
    ensures Compile(e, ctx, f) == Compile(WithFlags(e, f), ctx, NoForce)
  {
  }

  lemma ForceParse(e: Expr, ctx: Context, f: Force)
    requires e.Parse?
    ensures Compile(e, ctx, f) == Compile(WithFlags(e, f), ctx, NoForce)
  {
  }

  lemma ForceUnflagged(e: Expr, ctx: Context, f: Force)
    requires !HasLegacy(e)
    ensures WithFlags(e, f) == e
    ensures Compile(e, ctx, f) == Compile(e, ctx, NoForce)
  {
  }

  /** Combinators read neither flag, so forcing them does not reach their children. */
  lemma CombinatorsIgnoreForce(e: Expr, ctx: Context, f: Force)
    requires e.TermSet? || e.Boolean? || e.Boost? || e.DisjunctionMax? || e.ConstScore?
    ensures Compile(e, ctx, f) == Compile(e, ctx, NoForce)
  {
  }

  // ----------------------------------------------------------------- Search

  /** Search: a scalar is bound as the only parameter, everything else is spliced in. */
  lemma SearchLayout(field: FieldArg, value: SearchValue, op: string, ctx: Context, f: Force)
    ensures var r := Compile(Search(field, value, op), ctx, f);
      var lhs := FieldName(field) + " " + op + " ";
      && (value.SearchScalar? ==> r == Ok(Compiled(lhs + " %s", [value.v])))
      && (value.SearchList? ==> r == Ok(Compiled(lhs + " " + PostgresArray(value.items), [])))
      && (r.Ok? ==> (r.value.params != [] <==> value.SearchScalar?))
      && (r.Err? <==> value.SearchExpr? && Compile(value.e, ctx, NoForce).Err?)
  {
  }

  // ------------------------------------------------------------------ Range

  /**
   * `Range._format`: `None` is `NULL`, a string or a date is quoted, an int is
   * written unquoted in decimal, and any other value is its `str()`.
   */
  lemma RangeLiteralForms(v: RangeValue)
    ensures v == RangeScalar(SNone) ==> RangeLiteral(v) == "NULL"
    ensures v.RangeDate? ==> RangeLiteral(v) == "'" + v.text + "'"
    ensures v.RangeScalar? && v.v.SStr? ==> RangeLiteral(v) == "'" + v.v.s + "'"
    ensures v.RangeScalar? && v.v.SInt? && v.v.i >= 0 ==>
      IsDigits(RangeLiteral(v)) && DigitsValue(RangeLiteral(v)) == v.v.i
    ensures v.RangeScalar? && v.v.SInt? && v.v.i < 0 ==>
      RangeLiteral(v)[0] == '-' && DigitsValue(RangeLiteral(v)[1..]) == -v.v.i
    ensures v.RangeScalar? && (v.v.SBool? || v.v.SFloat?) ==> RangeLiteral(v) == PyStr(v.v)
  {
  }

  /**
   * Range: the one argument is `range:=` followed by the constructor call
   * `MakeRange` writes; the legacy schema puts the field before it as a
   * parameter, the current one binds no parameter.
   */
  lemma RangeFieldCall(ctx: Context, arg: string, field: string, key: KeyArg,
                       matchOp: bool, ignoreLhs: bool, legacy: bool)
    ensures var c := FieldCall(ctx, "range", [arg], [], field, key, matchOp, ignoreLhs, legacy);
      var schema := Schema(legacy, "range", ctx.config, ctx.version);
      && (schema == Legacy ==>
            c == Compiled(SchemaSql("range", ["%s", arg], Legacy, "", "@@@", if matchOp then KeyStr(key) else ""),
                          [SStr(field)]))
      && (schema == Current ==>
            c == Compiled(SchemaSql("range", [arg], Current, if ignoreLhs then "" else field,
                                    "@@@", if matchOp then KeyStr(key) else ""),
                          []))
  {
    FieldPlacement(ctx, "range", [arg], [], field, key, matchOp, ignoreLhs, legacy);
    assert ["%s"] + [arg] == ["%s", arg];
    assert [SStr(field)] + [] == [SStr(field)];
  }

  /** A Range compiles to the `range` field call with that argument. */
  lemma RangeCompiles(field: FieldArg, rangeType: string, start: RangeValue, end: RangeValue, bounds: string,
                      key: KeyArg, matchOp: bool, ignoreLhs: bool, legacy: bool, ctx: Context, f: Force)
    ensures var b := ResolveField(field, key);
      Compile(Range(field, rangeType, start, end, bounds, key, matchOp, ignoreLhs, legacy), ctx, f)
      == if b.Err? then Err(b.error)
         else Ok(FieldCall(ctx, "range", ["range:= " + MakeRange(rangeType, start, end, bounds)], [],
                           b.value.field, b.value.key, matchOp, f.ignoreLhs || ignoreLhs, f.legacy || legacy))
  {
  }

  // ------------------------------------------------------------------- Term

  /**
   * A field function binds one parameter per argument: with as many arguments
   * as parameters, the field the legacy schema inserts adds one of each.
   */
  lemma FieldCallArity(ctx: Context, func: string, args: seq<string>, params: seq<Scalar>, field: string,
                       key: KeyArg, matchOp: bool, ignoreLhs: bool, legacy: bool)
    requires |args| == |params|
    ensures var c := FieldCall(ctx, func, args, params, field, key, matchOp, ignoreLhs, legacy);
      var schema := Schema(legacy, func, ctx.config, ctx.version);
      var a := if schema == Legacy then ["%s"] + args else args;
      && c.sql == SchemaSql(func, a, schema, if ignoreLhs || schema == Legacy then "" else field, "@@@",
                            if matchOp then KeyStr(key) else "")
      && |a| == |c.params|
      && c.params[|c.params| - |params|..] == params
  {
    FieldPlacement(ctx, func, args, params, field, key, matchOp, ignoreLhs, legacy);
    var schema := Schema(legacy, func, ctx.config, ctx.version);
    if schema == Legacy {
      assert ([SStr(field)] + params)[1..] == params;
    }
  }

  /**
   * Term: every argument is a `%s` placeholder (cast to the enum type when one
   * is given), one per parameter; the value is the last parameter and, under
   * the legacy schema, the field the first.
   */
  lemma TermFieldCall(ctx: Context, valueArg: string, value: Scalar, field: string,
                      key: KeyArg, matchOp: bool, ignoreLhs: bool, legacy: bool)
    ensures var c := FieldCall(ctx, "term", [valueArg], [value], field, key, matchOp, ignoreLhs, legacy);
      var schema := Schema(legacy, "term", ctx.config, ctx.version);
      var args := if schema == Legacy then ["%s", valueArg] else [valueArg];
      && c.sql == SchemaSql("term", args, schema, if ignoreLhs || schema == Legacy then "" else field,
                            "@@@", if matchOp then KeyStr(key) else "")
      && |c.params| == |args|
      && c.params[|args| - 1] == value
      && (schema == Legacy ==> c.params[0] == SStr(field))
  {
    FieldCallArity(ctx, "term", [valueArg], [value], field, key, matchOp, ignoreLhs, legacy);
    FieldPlacement(ctx, "term", [valueArg], [value], field, key, matchOp, ignoreLhs, legacy);
    assert ["%s"] + [valueArg] == ["%s", valueArg];
  }

  /** Every argument of a Term call starts with a `%s` placeholder. */
  lemma TermArgsArePlaceholders(enumCast: Option<string>)
    ensures var valueArg := if NonEmpty(enumCast) then "%s::" + enumCast.value else "%s";
      |valueArg| >= 2 && valueArg[..2] == "%s"
  {
  }

  /** A Term compiles to the `term` field call with its value argument. */
  lemma TermCompiles(field: FieldArg, value: Scalar, enumCast: Option<string>, key: KeyArg,
                     matchOp: bool, ignoreLhs: bool, legacy: bool, ctx: Context, f: Force)
    ensures var b := ResolveField(field, key);
      Compile(Term(field, value, enumCast, key, matchOp, ignoreLhs, legacy), ctx, f)
      == if b.Err? then Err(b.error)
         else Ok(FieldCall(ctx, "term", [if NonEmpty(enumCast) then "%s::" + enumCast.value else "%s"], [value],
                           b.value.field, b.value.key, matchOp, f.ignoreLhs || ignoreLhs, f.legacy || legacy))
  {
  }

  // ----------------------------------------------------------------- JsonOp

  /**
   * JsonOp: the field, one `['key']` per path key, then `@@@ %s`, with the
   * resolved value as the one parameter: a list as its `ARRAY[...]` literal, an
   * `F()` as `alias.column`, and a plain value as itself.
   */
  lemma JsonOpCompiles(field: FieldArg, path: seq<string>, value: JsonValue, ctx: Context, f: Force)
    ensures var b := ResolveField(field, KText(""));
      Compile(JsonOp(field, path, value), ctx, f)
      == if b.Err? then Err(b.error)
         else Ok(Compiled(b.value.field + PathAccess(path) + " @@@ %s", [JsonParam(ctx, value)]))
  {
    var b := ResolveField(field, KText(""));
    if b.Ok? {
      var sql := b.value.field + PathAccess(path) + " @@@ %s";
    }
  }

  /** `_resolve_value`: a list becomes its `ARRAY[...]` literal, an `F()` its `alias.column`. */
  lemma JsonParamForms(ctx: Context, value: JsonValue)
    ensures value.JsonList? ==> JsonParam(ctx, value) == SStr(PostgresArray(value.items))
    ensures value.JsonF? ==> JsonParam(ctx, value) == SStr(value.f.alias + "." + value.f.target)
    ensures value.JsonScalar? ==> JsonParam(ctx, value) == value.v
  {
  }

  /** The path accessor is one `['key']` per key, in order. */
  lemma {:induction false} PathAccessAppend(a: seq<string>, b: seq<string>)
    ensures PathAccess(a + b) == PathAccess(a) + PathAccess(b)
    decreases |b|
  {
    if |b| == 0 {
      assert a + b == a;
    } else {
      var init := b[..|b| - 1];
      assert (a + b)[..|a + b| - 1] == a + init;
      PathAccessAppend(a, init);
    }
  }

  // ---------------------------------------------------------------- Boolean

  /** The groups appear in the order must, must_not, should, and only when non-empty. */
  lemma BooleanGroupsOrder(m: seq<string>, n: seq<string>, s: seq<string>)
    ensures var g := BooleanGroups(m, n, s);
      && |g| == (if m != [] then 1 else 0) + (if n != [] then 1 else 0) + (if s != [] then 1 else 0)
      && (m != [] ==> g[0] == "must := " + ArrayOf(m))
      && (n != [] ==> g[if m != [] then 1 else 0] == "must_not := " + ArrayOf(n))
      && (s != [] ==> g[|g| - 1] == "should := " + ArrayOf(s))
  {
  }

  /**
   * A Boolean query the constructor accepts compiles, if at all, to at least one
   * group, with every child forced to the legacy schema and no left-hand side,
   * and binds no parameters of its own.
   */
  lemma BooleanCompiles(must: seq<Expr>, mustNot: seq<Expr>, should: seq<Expr>, key: KeyArg, matchOp: bool,
                        ctx: Context, f: Force)
    requires NewBoolean(must, mustNot, should, key, matchOp).Ok?
    ensures var r := Compile(Boolean(must, mustNot, should, key, matchOp), ctx, f);
      && (r.Ok? <==> CompileAll(must, ctx, ForceBoth).Ok? && CompileAll(mustNot, ctx, ForceBoth).Ok?
                     && CompileAll(should, ctx, ForceBoth).Ok?)
      && (r.Ok? ==>
            var g := BooleanGroups(CompileAll(must, ctx, ForceBoth).value, CompileAll(mustNot, ctx, ForceBoth).value,
                                   CompileAll(should, ctx, ForceBoth).value);
            r.value.params == [] && |g| >= 1 &&
            r.value.sql == MatchPrefix(matchOp, key, "paradedb.boolean(" + Join(g, ", ") + ")"))
  {
    var r := Compile(Boolean(must, mustNot, should, key, matchOp), ctx, f);
    if r.Ok? {
      var m := CompileAll(must, ctx, ForceBoth).value;
      var n := CompileAll(mustNot, ctx, ForceBoth).value;
      var s := CompileAll(should, ctx, ForceBoth).value;
      BooleanGroupsOrder(m, n, s);
    }
  }

  // -------------------------------------------------------------- Proximity

  /** What the Proximity loop accepts at position `i`, stated without the loop. */
  predicate SlotAccepts(t: ProxToken, i: nat)
  {
    if i % 2 == 1 then t == TokenValue(SStr("##")) || t == TokenValue(SStr("##>"))
    else ValueSlot(i) || (t.TokenValue? && (IsPyInt(t.v) || (t.v.SStr? && IsDigits(t.v.s))))
  }

  lemma TokenAccepted(ctx: Context, t: ProxToken, i: nat)
    ensures ProxTokenSql(ctx, t, i).Ok? <==> SlotAccepts(t, i)
  {
    if i % 2 == 1 && t.TokenValue? && t.v.SStr? && t.v.s in ProximityOps {
      assert t.v.s == "##" || t.v.s == "##>";
    }
  }

  /**
   * The Proximity grammar: odd positions hold `##` or `##>`, even positions
   * alternate between a value and a distance, and a distance is an int or a
   * string of digits. The text fails exactly when one position breaks it.
   */
  lemma {:induction false} ProximityGrammar(ctx: Context, tokens: seq<ProxToken>, n: nat)
    requires n <= |tokens|
    ensures ProxParts(ctx, tokens, n).Ok? <==> forall i :: 0 <= i < n ==> SlotAccepts(tokens[i], i)
  {
    if n > 0 {
      ProximityGrammar(ctx, tokens, n - 1);
      TokenAccepted(ctx, tokens[n - 1], n - 1);
    }
  }

  /** Distances are bound as ints, whatever form they were given in. */
  lemma {:induction false} DistancesBoundAsInts(ctx: Context, tokens: seq<ProxToken>, n: nat)
    requires n <= |tokens|
    requires ProxParts(ctx, tokens, n).Ok?
    ensures forall i :: 0 <= i < n && i % 2 == 0 && !ValueSlot(i) ==>
      ProxTokenSql(ctx, tokens[i], i).Ok? && ProxTokenSql(ctx, tokens[i], i).value.0 == "%s" &&
      |ProxTokenSql(ctx, tokens[i], i).value.1| == 1 && ProxTokenSql(ctx, tokens[i], i).value.1[0].SInt?
  {
    if n > 0 {
      DistancesBoundAsInts(ctx, tokens, n - 1);
      if (n - 1) % 2 == 0 && !ValueSlot(n - 1) {
        DistanceBoundAsInt(ctx, tokens[n - 1], n - 1);
      }
    }
  }

  /** One distance that is accepted is bound as one int. */
  lemma DistanceBoundAsInt(ctx: Context, t: ProxToken, i: nat)
    requires i % 2 == 0 && !ValueSlot(i)
    requires ProxTokenSql(ctx, t, i).Ok?
    ensures ProxTokenSql(ctx, t, i).value.0 == "%s"
    ensures |ProxTokenSql(ctx, t, i).value.1| == 1 && ProxTokenSql(ctx, t, i).value.1[0].SInt?
  {
  }

  /** A Proximity search is parenthesised, and prefixed by its field when one is given. */
  lemma ProximityLayout(ctx: Context, tokens: seq<ProxToken>, optField: Option<FieldArg>)
    ensures var r := ProximitySql(ctx, tokens, optField);
      r.Ok? ==> var sql := r.value.sql;
        && |sql| >= 2 && sql[|sql| - 1] == ')'
        && (FieldGiven(optField) ==>
              sql[..|FieldName(optField.value)| + 6] == FieldName(optField.value) + " @@@ (")
        && (!FieldGiven(optField) ==> sql[0] == '(')
  {
    var r := ProximitySql(ctx, tokens, optField);
    if r.Ok? {
      var inner := "(" + Join(ProxParts(ctx, tokens, |tokens|).value.0, " ") + ")";
      if FieldGiven(optField) {
        assert r.value.sql == (FieldName(optField.value) + " @@@ (") + inner[1..];
      }
    }
  }

  // ---------------------------------------------------------- MoreLikeThis

  /** The options that are present, front to back: the reference for OptionalArgs. */
  function PresentValues(opts: seq<(string, Scalar)>, byTruth: bool): seq<Scalar>
  {
    if |opts| == 0 then []
    else (if (if byTruth then Truthy(opts[0].1) else !opts[0].1.SNone?) then [opts[0].1] else []) +
         PresentValues(opts[1..], byTruth)
  }

  lemma {:induction false} PresentValuesAppend(a: seq<(string, Scalar)>, b: seq<(string, Scalar)>, byTruth: bool)
    ensures PresentValues(a + b, byTruth) == PresentValues(a, byTruth) + PresentValues(b, byTruth)
  {
    if |a| > 0 {
      assert (a + b)[0] == a[0] && (a + b)[1..] == a[1..] + b;
      PresentValuesAppend(a[1..], b, byTruth);
    } else {
      assert a + b == b;
    }
  }

  /** The parameters of the optional arguments are the present options, in order. */
  lemma {:induction false} OptionalArgsBindPresent(opts: seq<(string, Scalar)>, byTruth: bool)
    ensures OptionalArgs(opts, byTruth).params == PresentValues(opts, byTruth)
  {
    if |opts| > 0 {
      var init := opts[..|opts| - 1];
      OptionalArgsBindPresent(init, byTruth);
      PresentValuesAppend(init, [opts[|opts| - 1]], byTruth);
      assert init + [opts[|opts| - 1]] == opts;
    }
  }

  /**
   * MoreLikeThis: a truthy document id wins over a document; the document is
   * bound as its JSON text; then come the truthy knobs in their fixed order.
   */
  lemma MoreLikeThisParams(e: Expr)
    requires e.MoreLikeThis?
    ensures var ps := MoreLikeThisCall(e).params;
      var knobs := PresentValues(MltKnobs(e.options), true);
      && (Truthy(e.documentId) ==> ps == [e.documentId] + knobs)
      && (!Truthy(e.documentId) && e.document != [] ==> ps == [SStr(Serialize(JObject(e.document)))] + knobs)
      && (!Truthy(e.documentId) && e.document == [] ==> ps == knobs)
  {
    OptionalArgsBindPresent(MltKnobs(e.options), true);
  }

  /** Snippet binds exactly the options that are not None, in their fixed order. */
  lemma SnippetParams(e: Expr, ctx: Context, f: Force)
    requires e.Snippet?
    ensures var r := Compile(e, ctx, f);
      r.Ok? ==> r.value.params == PresentValues(SnippetOptions(e), false)
  {
    OptionalArgsBindPresent(SnippetOptions(e), false);
  }

  // ----------------------------------------------------------- scenarios

  /** `Term("rank", 100, match_op=True)` under the default settings. */
  lemma TermScenario(ctx: Context)
    requires ctx.config == Default
    ensures Compile(Term(FText("rank"), SInt(100), None, KText("id"), true, false, false), ctx, NoForce)
         == Ok(Compiled("id @@@ paradedb.term(%s,%s)", [SStr("rank"), SInt(100)]))
  {
    var e := Term(FText("rank"), SInt(100), None, KText("id"), true, false, false);
    assert ResolveField(FText("rank"), KText("id")) == Ok(Bound("rank", KText("id")));
    assert Compile(e, ctx, NoForce) == Ok(FieldCall(ctx, "term", ["%s"], [SInt(100)], "rank", KText("id"), true, false, false));
    TermScenarioSql(ctx);
  }

  /** The legacy term call the scenario above renders. */
  lemma TermScenarioSql(ctx: Context)
    requires ctx.config == Default
    ensures FieldCall(ctx, "term", ["%s"], [SInt(100)], "rank", KText("id"), true, false, false)
         == Compiled("id @@@ paradedb.term(%s,%s)", [SStr("rank"), SInt(100)])
  {
    assert Schema(false, "term", ctx.config, ctx.version) == Legacy;
    assert ["%s"] + ["%s"] == ["%s", "%s"];
    LegacyTermText();
  }

  /** The text of a legacy two-argument term call keyed on `id`. */
  lemma LegacyTermText()
    ensures SchemaSql("term", ["%s", "%s"], Legacy, "", "@@@", "id") == "id @@@ paradedb.term(%s,%s)"
  {
    assert Join(["%s", "%s"], ",") == "%s,%s";
    assert Call(Legacy, "term", ["%s", "%s"]) == "paradedb.term(%s,%s)";
  }

  /** `Regex("title", "^well$", match_op=True)` with the V2 schema forced. */
  lemma RegexScenario(ctx: Context)
    requires ctx.config == Default.(useV2 := true)
    ensures Compile(Regex(FText("title"), SStr("^well$"), KText("id"), true, false, false), ctx, NoForce)
         == Ok(Compiled("title @@@ pdb.regex(%s)", [SStr("^well$")]))
  {
    var e := Regex(FText("title"), SStr("^well$"), KText("id"), true, false, false);
    assert ResolveField(FText("title"), KText("id")) == Ok(Bound("title", KText("id")));
    assert Compile(e, ctx, NoForce) == Ok(FieldCall(ctx, "regex", ["%s"], [SStr("^well$")], "title", KText("id"), true, false, false));
    assert Schema(false, "regex", ctx.config, ctx.version) == Current;
    assert Join(["%s"], ",") == "%s";
    assert SchemaSql("regex", ["%s"], Current, "title", "@@@", "id") == "title" + " " + "@@@" + " " + "pdb.regex(%s)";
    assert "title" + " " + "@@@" + " " + "pdb.regex(%s)" == "title @@@ pdb.regex(%s)";
  }

  /** The same Regex inside a Boolean query loses its left-hand side and uses the legacy schema. */
  lemma RegexForcedScenario(ctx: Context)
    requires ctx.config == Default.(useV2 := true)
    ensures Compile(Regex(FText("title"), SStr("^well$"), KText("id"), false, false, false), ctx, ForceBoth)
         == Ok(Compiled("paradedb.regex(%s,%s)", [SStr("title"), SStr("^well$")]))
  {
    var e := Regex(FText("title"), SStr("^well$"), KText("id"), false, false, false);
    assert ResolveField(FText("title"), KText("id")) == Ok(Bound("title", KText("id")));
    assert Compile(e, ctx, ForceBoth) == Ok(FieldCall(ctx, "regex", ["%s"], [SStr("^well$")], "title", KText("id"), false, true, true));
    assert Schema(true, "regex", ctx.config, ctx.version) == Legacy;
    assert Join(["%s", "%s"], ",") == "%s,%s";
    assert ["%s"] + ["%s"] == ["%s", "%s"];
    assert FieldCall(ctx, "regex", ["%s"], [SStr("^well$")], "title", KText("id"), false, true, true)
        == Compiled(SchemaSql("regex", ["%s", "%s"], Legacy, "", "@@@", ""), [SStr("title"), SStr("^well$")]);
    assert SchemaSql("regex", ["%s", "%s"], Legacy, "", "@@@", "") == "paradedb" + "." + "regex" + "(" + "%s,%s" + ")";
    assert "paradedb" + "." + "regex" + "(" + "%s,%s" + ")" == "paradedb.regex(%s,%s)";
  }
}
