/**
 * JSON documents as the Python dictionaries the core builds: an object is an
 * ordered list of members (a dict keeps insertion order), and assigning to a key
 * (`d[k] = v`) is `Put`.
 */
module Json {
  import opened Wrappers
  import opened Text
  import opened Values

  datatype Json =
    | JNull
    | JBool(b: bool)
    | JInt(i: int)
    | JFloat(text: string)
    | JStr(s: string)
    | JArray(items: seq<Json>)
    | JObject(members: seq<(string, Json)>)

  type Members = seq<(string, Json)>

  function Keys(o: Members): (ks: seq<string>)
    ensures |ks| == |o|
    ensures forall i :: 0 <= i < |o| ==> ks[i] == o[i].0
  {
    if |o| == 0 then [] else [o[0].0] + Keys(o[1..])
  }

  /** No key occurs twice, as in every Python dict. */
  predicate UniqueKeys(o: Members)
  {
    forall i, j :: 0 <= i < j < |o| ==> o[i].0 != o[j].0
  }

  /** `d.get(k)` */
  function Get(o: Members, k: string): (r: Option<Json>)
    ensures r.Some? <==> k in Keys(o)
  {
    if |o| == 0 then None
    else if o[0].0 == k then Some(o[0].1)
    else Get(o[1..], k)
  }

  /**
   * `d[k] = v`: an existing key keeps its position and takes the new value,
   * a new key is appended.
   */
  function Put(o: Members, k: string, v: Json): (r: Members)
    ensures Keys(r) == if k in Keys(o) then Keys(o) else Keys(o) + [k]
    ensures Get(r, k) == Some(v)
    ensures forall k' :: k' != k ==> Get(r, k') == Get(o, k')
    ensures UniqueKeys(o) ==> UniqueKeys(r)
  {
    if |o| == 0 then [(k, v)]
    else if o[0].0 == k then
      PutAtHead(o, k, v);
      [(k, v)] + o[1..]
    else
      var rest := Put(o[1..], k, v);
      PutPastHead(o, k, v, rest);
      [o[0]] + rest
  }

  /** Assigning the first member's key replaces its value in place. */
  lemma PutAtHead(o: Members, k: string, v: Json)
    requires |o| > 0 && o[0].0 == k
    ensures Keys([(k, v)] + o[1..]) == Keys(o) && k in Keys(o)
    ensures Get([(k, v)] + o[1..], k) == Some(v)
    ensures forall k' :: k' != k ==> Get([(k, v)] + o[1..], k') == Get(o, k')
    ensures UniqueKeys(o) ==> UniqueKeys([(k, v)] + o[1..])
  {
    HeadTail(o);
    Cons(o[0], o[1..]);
    Cons((k, v), o[1..]);
  }

  /** Assigning past a different first member keeps it in front of the assigned rest. */
  lemma PutPastHead(o: Members, k: string, v: Json, rest: Members)
    requires |o| > 0 && o[0].0 != k
    requires Keys(rest) == if k in Keys(o[1..]) then Keys(o[1..]) else Keys(o[1..]) + [k]
    requires Get(rest, k) == Some(v)
    requires forall k' :: k' != k ==> Get(rest, k') == Get(o[1..], k')
    requires UniqueKeys(o[1..]) ==> UniqueKeys(rest)
    ensures Keys([o[0]] + rest) == if k in Keys(o) then Keys(o) else Keys(o) + [k]
    ensures Get([o[0]] + rest, k) == Some(v)
    ensures forall k' :: k' != k ==> Get([o[0]] + rest, k') == Get(o, k')
    ensures UniqueKeys(o) ==> UniqueKeys([o[0]] + rest)
  {
    HeadTail(o);
    Cons(o[0], o[1..]);
    Cons(o[0], rest);
    Assoc([o[0].0], Keys(o[1..]), [k]);
  }

  /** An object is its first member followed by the others. */
  lemma Cons(x: (string, Json), rest: Members)
    ensures Keys([x] + rest) == [x.0] + Keys(rest)
    ensures forall k :: Get([x] + rest, k) == if x.0 == k then Some(x.1) else Get(rest, k)
    ensures UniqueKeys([x] + rest) <==> x.0 !in Keys(rest) && UniqueKeys(rest)
  {
    TailOfCons(x, rest);
    if x.0 !in Keys(rest) && UniqueKeys(rest) {
      forall i, j | 0 <= i < j < |[x] + rest| ensures ([x] + rest)[i].0 != ([x] + rest)[j].0 {
        if i > 0 {
          assert ([x] + rest)[i] == rest[i - 1];
        }
        assert ([x] + rest)[j] == rest[j - 1];
      }
    }
    if UniqueKeys([x] + rest) {
      forall i | 0 <= i < |rest| ensures rest[i].0 != x.0 {
        assert ([x] + rest)[i + 1] == rest[i];
      }
    }
  }

  lemma TailOfCons<T>(x: T, s: seq<T>)
    ensures ([x] + s)[0] == x && ([x] + s)[1..] == s
  {
  }

  lemma HeadTail<T>(s: seq<T>)
    requires |s| > 0
    ensures s == [s[0]] + s[1..]
  {
  }

  lemma Assoc<T>(a: seq<T>, b: seq<T>, c: seq<T>)
    ensures a + (b + c) == (a + b) + c
  {
  }

  /** `{**a, **b}` (and `a.update(b)`): every member of `b` assigned in order. */
  function Merge(a: Members, b: Members): (r: Members)
    ensures UniqueKeys(b) ==> forall k :: k in Keys(b) ==> Get(r, k) == Get(b, k)
    ensures forall k :: k !in Keys(b) ==> Get(r, k) == Get(a, k)
    ensures UniqueKeys(a) ==> UniqueKeys(r)
    decreases |b|
  {
    if |b| == 0 then a
    else
      var a' := Put(a, b[0].0, b[0].1);
      var r := Merge(a', b[1..]);
      assert Keys(b) == [b[0].0] + Keys(b[1..]);
      assert UniqueKeys(b) ==> b[0].0 !in Keys(b[1..]) && UniqueKeys(b[1..]);
      r
  }

  lemma {:induction false} KeysAppend(a: Members, b: Members)
    ensures Keys(a + b) == Keys(a) + Keys(b)
  {
    if |a| > 0 {
      HeadTail(a);
      Assoc([a[0]], a[1..], b);
      KeysAppend(a[1..], b);
      Cons(a[0], a[1..] + b);
      Cons(a[0], a[1..]);
      Assoc([a[0].0], Keys(a[1..]), Keys(b));
    } else {
      assert a + b == b;
    }
  }

  /** A lookup in a concatenation finds the first part's entry before the second's. */
  lemma {:induction false} GetAppend(a: Members, b: Members, k: string)
    ensures Get(a + b, k) == if k in Keys(a) then Get(a, k) else Get(b, k)
  {
    if |a| > 0 {
      assert (a + b)[1..] == a[1..] + b;
      assert Keys(a) == [a[0].0] + Keys(a[1..]);
      GetAppend(a[1..], b, k);
    } else {
      assert a + b == b;
    }
  }

  /** After an assignment the object has the assigned key and the keys it had. */
  lemma PutHas(o: Members, k: string, v: Json, k': string)
    ensures k' in Keys(Put(o, k, v)) <==> k' == k || k' in Keys(o)
  {
    if k' != k {
      assert Get(Put(o, k, v), k') == Get(o, k');
    }
  }

  /** Assigning a key the object does not have yet appends it. */
  lemma {:induction false} PutNew(o: Members, k: string, v: Json)
    requires k !in Keys(o)
    ensures Put(o, k, v) == o + [(k, v)]
  {
    if |o| > 0 {
      var rest := o[1..];
      assert o[0].0 != k && k !in Keys(rest) by {
        assert Keys(o) == [o[0].0] + Keys(rest);
      }
      PutNew(rest, k, v);
      AppendAfterHead(o, (k, v));
    }
  }

  lemma AppendAfterHead<T>(s: seq<T>, x: T)
    requires |s| > 0
    ensures s + [x] == [s[0]] + (s[1..] + [x])
  {
  }

  /** Spreading an object with none of the keys already present appends its members in order. */
  lemma {:induction false} MergeDisjoint(a: Members, b: Members)
    requires UniqueKeys(b)
    requires forall k :: k in Keys(b) ==> k !in Keys(a)
    ensures Merge(a, b) == a + b
    decreases |b|
  {
    if |b| > 0 {
      assert Keys(b) == [b[0].0] + Keys(b[1..]);
      PutNew(a, b[0].0, b[0].1);
      KeysAppend(a, [b[0]]);
      assert Keys([b[0]]) == [b[0].0];
      forall k | k in Keys(b[1..]) ensures k !in Keys(a + [b[0]]) {
        var j :| 0 <= j < |b[1..]| && Keys(b[1..])[j] == k;
        assert b[1..][j] == b[j + 1];
      }
      assert UniqueKeys(b[1..]) by {
        forall i, j | 0 <= i < j < |b[1..]| ensures b[1..][i].0 != b[1..][j].0 {
          assert b[1..][i] == b[i + 1] && b[1..][j] == b[j + 1];
        }
      }
      MergeDisjoint(a + [b[0]], b[1..]);
      SplitFirst(a, b);
    } else {
      assert a + b == a;
    }
  }

  lemma SplitFirst(a: Members, b: Members)
    requires |b| > 0
    ensures a + [b[0]] + b[1..] == a + b
  {
    assert b == [b[0]] + b[1..];
  }

  /** `if v is not None: d[k] = v` */
  function PutIf(o: Members, k: string, v: Option<Json>): (r: Members)
    ensures v.None? ==> r == o
    ensures v.Some? ==> r == Put(o, k, v.value)
  {
    if v.Some? then Put(o, k, v.value) else o
  }

  /** Optional assignments `if v is not None: d[k] = v`, one after the other. */
  function AssignAll(o: Members, ps: seq<(string, Option<Json>)>): Members
  {
    if |ps| == 0 then o
    else PutIf(AssignAll(o, ps[..|ps| - 1]), ps[|ps| - 1].0, ps[|ps| - 1].1)
  }

  /** The keys of the assignments whose value is given, in order. */
  function GivenNames(ps: seq<(string, Option<Json>)>): seq<string>
  {
    if |ps| == 0 then []
    else GivenNames(ps[..|ps| - 1]) + (if ps[|ps| - 1].1.Some? then [ps[|ps| - 1].0] else [])
  }

  /** The value the last given assignment to `k` stores, if any. */
  function Assigned(ps: seq<(string, Option<Json>)>, k: string): Option<Json>
  {
    if |ps| == 0 then None
    else if ps[|ps| - 1].0 == k && ps[|ps| - 1].1.Some? then ps[|ps| - 1].1
    else Assigned(ps[..|ps| - 1], k)
  }

  predicate DistinctNames(ps: seq<(string, Option<Json>)>)
  {
    forall i, j :: 0 <= i < j < |ps| ==> ps[i].0 != ps[j].0
  }

  /** Assigning distinct new keys appends exactly the given ones, in order, each once. */
  lemma {:induction false} AssignAllKeys(o: Members, ps: seq<(string, Option<Json>)>)
    requires DistinctNames(ps)
    requires forall i :: 0 <= i < |ps| ==> ps[i].0 !in Keys(o)
    ensures Keys(AssignAll(o, ps)) == Keys(o) + GivenNames(ps)
    ensures UniqueKeys(o) ==> UniqueKeys(AssignAll(o, ps))
  {
    if |ps| == 0 {
      assert Keys(o) + [] == Keys(o);
    } else {
      var init := ps[..|ps| - 1];
      var (k, v) := ps[|ps| - 1];
      assert DistinctNames(init) by {
        forall i, j | 0 <= i < j < |init| ensures init[i].0 != init[j].0 {
          assert init[i] == ps[i] && init[j] == ps[j];
        }
      }
      forall i | 0 <= i < |init| ensures init[i].0 !in Keys(o) {
        assert init[i] == ps[i];
      }
      AssignAllKeys(o, init);
      GivenNamesFrom(init, k);
      var prior := AssignAll(o, init);
      assert k !in Keys(prior);
      if v.Some? {
        assert Keys(prior) + [k] == Keys(o) + GivenNames(ps);
      } else {
        assert Keys(prior) == Keys(o) + GivenNames(ps);
      }
    }
  }

  /** With distinct names, the value an assignment stores is the one it is given. */
  lemma {:induction false} AssignedAt(ps: seq<(string, Option<Json>)>, i: nat)
    requires i < |ps|
    requires DistinctNames(ps)
    ensures Assigned(ps, ps[i].0) == ps[i].1
  {
    var init := ps[..|ps| - 1];
    assert DistinctNames(init) by {
      forall a, b | 0 <= a < b < |init| ensures init[a].0 != init[b].0 {
        assert init[a] == ps[a] && init[b] == ps[b];
      }
    }
    if i == |ps| - 1 {
      if ps[i].1.None? {
        forall j | 0 <= j < |init| ensures init[j].0 != ps[i].0 {
          assert init[j] == ps[j];
        }
        AssignedFrom(init, ps[i].0);
      }
    } else {
      assert init[i] == ps[i];
      AssignedAt(init, i);
    }
  }

  /**
   * Assigning distinct fresh keys to an object: the i-th key reads as the value
   * it was given (absent when that is None), and the object's own keys are kept.
   */
  lemma AssignAllAt(o: Members, ps: seq<(string, Option<Json>)>, i: nat)
    requires i < |ps|
    requires DistinctNames(ps)
    requires forall j :: 0 <= j < |ps| ==> ps[j].0 !in Keys(o)
    ensures Get(AssignAll(o, ps), ps[i].0) == ps[i].1
  {
    AssignAllGet(o, ps, ps[i].0);
    AssignedAt(ps, i);
  }

  /** Keys no assignment names read as before. */
  lemma AssignAllKeeps(o: Members, ps: seq<(string, Option<Json>)>, k: string)
    requires forall j :: 0 <= j < |ps| ==> ps[j].0 != k
    ensures Get(AssignAll(o, ps), k) == Get(o, k)
  {
    AssignAllGet(o, ps, k);
    AssignedFrom(ps, k);
  }

  /** A key is among the given names only if some assignment uses it. */
  lemma {:induction false} GivenNamesFrom(ps: seq<(string, Option<Json>)>, k: string)
    requires forall i :: 0 <= i < |ps| ==> ps[i].0 != k
    ensures k !in GivenNames(ps)
  {
    if |ps| > 0 {
      var init := ps[..|ps| - 1];
      forall i | 0 <= i < |init| ensures init[i].0 != k {
        assert init[i] == ps[i];
      }
      GivenNamesFrom(init, k);
    }
  }

  /** Nothing is assigned to a key no assignment names. */
  lemma {:induction false} AssignedFrom(ps: seq<(string, Option<Json>)>, k: string)
    requires forall i :: 0 <= i < |ps| ==> ps[i].0 != k
    ensures Assigned(ps, k).None?
  {
    if |ps| > 0 {
      var init := ps[..|ps| - 1];
      forall i | 0 <= i < |init| ensures init[i].0 != k {
        assert init[i] == ps[i];
      }
      AssignedFrom(init, k);
    }
  }

  lemma {:induction false} GivenNamesIn(ps: seq<(string, Option<Json>)>, k: string)
    ensures k in GivenNames(ps) <==> exists i :: 0 <= i < |ps| && ps[i].0 == k && ps[i].1.Some?
  {
    if |ps| > 0 {
      var init := ps[..|ps| - 1];
      GivenNamesIn(init, k);
      if exists i :: 0 <= i < |init| && init[i].0 == k && init[i].1.Some? {
        var i :| 0 <= i < |init| && init[i].0 == k && init[i].1.Some?;
        assert ps[i] == init[i];
      }
      if exists i :: 0 <= i < |ps| && ps[i].0 == k && ps[i].1.Some? {
        var i :| 0 <= i < |ps| && ps[i].0 == k && ps[i].1.Some?;
        if i < |init| { assert init[i] == ps[i]; }
      }
    }
  }

  /** After the assignments, a key holds the value last assigned to it, else its old value. */
  lemma {:induction false} AssignAllGet(o: Members, ps: seq<(string, Option<Json>)>, k: string)
    ensures Get(AssignAll(o, ps), k) == if Assigned(ps, k).Some? then Assigned(ps, k) else Get(o, k)
  {
    if |ps| > 0 {
      AssignAllGet(o, ps[..|ps| - 1], k);
    }
  }

  function FromScalar(v: Scalar): Json
  {
    match v
    case SNone => JNull
    case SBool(b) => JBool(b)
    case SInt(i) => JInt(i)
    case SFloat(t) => JFloat(t)
    case SStr(s) => JStr(s)
  }

  function FromStrings(ss: seq<string>): (j: Json)
    ensures j.JArray? && |j.items| == |ss|
    ensures forall i :: 0 <= i < |ss| ==> j.items[i] == JStr(ss[i])
  {
    JArray(seq(|ss|, i requires 0 <= i < |ss| => JStr(ss[i])))
  }

  function Quote(s: string): string { "\"" + s + "\"" }

  /**
   * `json.dumps(j)` with the default separators ", " and ": ".
   * Character escaping inside strings is not modelled.
   */
  function Serialize(j: Json): string
  {
    match j
    case JNull => "null"
    case JBool(b) => if b then "true" else "false"
    case JInt(i) => IntToString(i)
    case JFloat(t) => t
    case JStr(s) => Quote(s)
    case JArray(items) =>
      "[" + Join(seq(|items|, i requires 0 <= i < |items| => Serialize(items[i])), ", ") + "]"
    case JObject(members) =>
      "{" + Join(seq(|members|, i requires 0 <= i < |members| =>
                       Quote(members[i].0) + ": " + Serialize(members[i].1)), ", ") + "}"
  }
}
