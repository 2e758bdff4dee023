/** The loops of the expression compiler, proved against the functions that specify them. */
module ExpressionLoops {
  import opened Wrappers
  import opened Text
  import opened Values
  import opened Expressions

  /** Once a prefix of the children fails, every longer prefix fails the same way. */
  lemma {:induction false} CompileAllStaysFailed(es: seq<Expr>, n: nat, ctx: Context, force: Force)
    requires n <= |es|
    requires CompileAll(es[..n], ctx, force).Err?
    ensures CompileAll(es, ctx, force) == CompileAll(es[..n], ctx, force)
  {
    if n < |es| {
      assert es[..|es| - 1][..n] == es[..n];
      CompileAllStaysFailed(es[..|es| - 1], n, ctx, force);
    } else {
      assert es[..n] == es;
    }
  }

  /**
   * The loop the combinators (TermSet, Boolean, DisjunctionMax) run over their
   * children: compile each in order and keep its composed text.
   */
  method ComposeChildren(es: seq<Expr>, ctx: Context, force: Force) returns (r: Result<seq<string>>)
    ensures r == CompileAll(es, ctx, force)
  {
    var parts: seq<string> := [];
    var i := 0;
    while i < |es|
      invariant 0 <= i <= |es|
      invariant CompileAll(es[..i], ctx, force) == Ok(parts)
    {
      var c := Compile(es[i], ctx, force);
      CompileAllStep(es, i, ctx, force);
      if c.Err? {
        CompileAllStaysFailed(es, i + 1, ctx, force);
        return Err(c.error);
      }
      parts := parts + [Compose(ctx, c.value)];
      i := i + 1;
    }
    assert es[..i] == es;
    return Ok(parts);
  }

  /** One more child: its failure ends the loop, its text is appended otherwise. */
  lemma CompileAllStep(es: seq<Expr>, i: nat, ctx: Context, force: Force)
    requires i < |es|
    requires CompileAll(es[..i], ctx, force).Ok?
    ensures var c := Compile(es[i], ctx, force);
      && (c.Err? ==> CompileAll(es[..i + 1], ctx, force) == Err(c.error))
      && (c.Ok? ==> CompileAll(es[..i + 1], ctx, force) == Ok(CompileAll(es[..i], ctx, force).value + [Compose(ctx, c.value)]))
  {
    assert es[..i + 1][..i] == es[..i];
  }

  /** The `for value in self.values` loop of ProximityArray. */
  method CompileProxArray(ctx: Context, items: seq<ProxItem>, wrap: bool) returns (c: Compiled)
    ensures c == ProxArraySql(ctx, items, wrap)
  {
    var parts: seq<string> := [];
    var params: seq<Scalar> := [];
    for i := 0 to |items|
      invariant ProxItemParts(ctx, items[..i]) == (parts, params)
    {
      assert items[..i + 1][..i] == items[..i];
      match items[i]
      case ItemRegex(rx) =>
        parts := parts + [Compose(ctx, ProxRegexSql(rx, rx.wrap))];
      case ItemValue(v) =>
        parts := parts + ["%s"];
        params := params + [v];
    }
    assert items[..|items|] == items;
    var sql := "pdb.prox_array(" + Join(parts, ", ") + ")";
    if wrap {
      sql := "(" + sql + ")";
    }
    return Compiled(sql, params);
  }

  /** Once a prefix of the Proximity values fails, every longer prefix fails the same way. */
  lemma {:induction false} ProxPartsStaysFailed(ctx: Context, tokens: seq<ProxToken>, n: nat, m: nat)
    requires n <= m <= |tokens|
    requires ProxParts(ctx, tokens, n).Err?
    ensures ProxParts(ctx, tokens, m) == ProxParts(ctx, tokens, n)
  {
    if m > n {
      ProxPartsStaysFailed(ctx, tokens, n, m - 1);
    }
  }

  /**
   * The body of the Proximity loop for the element at `idx`: an operator at an
   * odd position; at an even one a value or a distance, as `expectValue` says.
   */
  method ProxElement(ctx: Context, v: ProxToken, idx: nat, expectValue: bool) returns (r: Result<(string, seq<Scalar>)>)
    requires idx % 2 == 0 ==> expectValue == ValueSlot(idx)
    ensures r == ProxTokenSql(ctx, v, idx)
  {
    if idx % 2 == 1 {
      if !(v.TokenValue? && v.v.SStr? && v.v.s in ProximityOps) {
        return Err(ValueError);
      }
      return Ok((v.v.s, []));
    }
    if expectValue {
      match v
      case TokenRegex(rx) =>
        r := Ok((Compose(ctx, ProxRegexSql(rx, false)), []));
      case TokenArray(items, _) =>
        var inner := CompileProxArray(ctx, items, false);
        r := Ok((Compose(ctx, inner), []));
      case TokenValue(x) =>
        r := Ok(("%s", [x]));
    } else if v.TokenValue? && IsPyInt(v.v) {
      r := Ok(("%s", [SInt(PyIntValue(v.v))]));
    } else if v.TokenValue? && v.v.SStr? && IsDigits(v.v.s) {
      r := Ok(("%s", [SInt(DigitsValue(v.v.s))]));
    } else {
      r := Err(ValueError);
    }
  }

  /**
   * The Proximity loop: odd positions must hold an operator; even positions
   * alternate between a value and a distance, tracked by `expectValue`.
   */
  method CompileProximity(ctx: Context, tokens: seq<ProxToken>, optField: Option<FieldArg>) returns (r: Result<Compiled>)
    ensures r == ProximitySql(ctx, tokens, optField)
  {
    var parts: seq<string> := [];
    var params: seq<Scalar> := [];
    var expectValue := true;
    var idx := 0;
    while idx < |tokens|
      invariant 0 <= idx <= |tokens|
      invariant ProxParts(ctx, tokens, idx) == Ok((parts, params))
      invariant expectValue == ((idx + 1) / 2 % 2 == 0)
    {
      assert idx % 2 == 0 ==> (idx + 1) / 2 == idx / 2;
      var step := ProxElement(ctx, tokens[idx], idx, expectValue);
      if step.Err? {
        ProxPartsStaysFailed(ctx, tokens, idx + 1, |tokens|);
        return Err(step.error);
      }
      parts := parts + [step.value.0];
      params := params + step.value.1;
      if idx % 2 == 0 {
        expectValue := !expectValue;
      }
      assert (idx + 2) / 2 == (idx + 1) / 2 || idx % 2 == 0;
      idx := idx + 1;
    }
    var sql := "(" + Join(parts, " ") + ")";
    if FieldGiven(optField) {
      sql := FieldName(optField.value) + " @@@ " + sql;
    }
    return Ok(Compiled(sql, params));
  }

  /** `JsonOp.build_key`: appends one `['key']` accessor per key. */
  method BuildKey(keys: seq<string>) returns (s: string)
    ensures s == PathAccess(keys)
  {
    s := "";
    for i := 0 to |keys|
      invariant s == PathAccess(keys[..i])
    {
      assert keys[..i + 1][..i] == keys[..i];
      s := s + "['" + keys[i] + "']";
    }
    assert keys[..|keys|] == keys;
  }
}
