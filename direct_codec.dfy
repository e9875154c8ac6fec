/** The translation between Yandex Direct API objects and local records (the `APIParserMixing`
    mixin of direct/models.py): CamelCase/under_score names, `api_data_to_kwargs`,
    `deserialize` and `serialize`, over values that mirror the JSON the API exchanges. */
module DirectCodec {
  import opened Wrappers
  import opened Strings

  /** A JSON-like value. `Quot(n, d)` is the float `n / d` that the source produces by dividing
      API money by 10 000; it is kept exact and truncated where `int()` is applied. */
  datatype Value =
    | Null
    | Int(i: int)
    | Bool(b: bool)
    | Quot(num: int, den: int)
    | Str(s: string)
    | Date(day: int)
    | List(items: seq<Value>)
    | Obj(entries: seq<(string, Value)>)

  /** An insertion-ordered dictionary, as the Python `dict` the API results are parsed into. */
  type Dict = seq<(string, Value)>

  /** Python truthiness. */
  predicate Truthy(v: Value) {
    match v
    case Null => false
    case Int(i) => i != 0
    case Bool(b) => b
    case Quot(n, _) => n != 0
    case Str(s) => s != ""
    case Date(_) => true
    case List(items) => items != []
    case Obj(entries) => entries != []
  }

  /** The exceptions the codec raises. */
  datatype CodecError = KeyError(key: string) | TypeError | ValueError | AttributeError

  // ---------------------------------------------------------------- dictionaries

  predicate HasKey(d: Dict, k: string) {
    exists i :: 0 <= i < |d| && d[i].0 == k
  }

  predicate DistinctKeys(d: Dict) {
    forall i, j :: 0 <= i < j < |d| ==> d[i].0 != d[j].0
  }

  /** `d.get(k)`. */
  function Lookup(d: Dict, k: string): (r: Option<Value>)
    ensures r.Some? <==> HasKey(d, k)
    ensures r.Some? ==> (k, r.value) in d
  {
    if d == [] then None
    else if d[0].0 == k then Some(d[0].1)
    else
      var r := Lookup(d[1..], k);
      assert r.Some? ==> HasKey(d, k) by {
        if r.Some? { var i :| 0 <= i < |d[1..]| && d[1..][i].0 == k; assert d[i + 1].0 == k; }
      }
      assert HasKey(d, k) ==> r.Some? by {
        if HasKey(d, k) { var i :| 0 <= i < |d| && d[i].0 == k; assert d[1..][i - 1].0 == k; }
      }
      r
  }

  /** `d[k] = v`: an existing key keeps its place, a new key goes to the end. */
  function Put(d: Dict, k: string, v: Value): (r: Dict)
    ensures !HasKey(d, k) ==> r == d + [(k, v)]
  {
    if d == [] then [(k, v)]
    else if d[0].0 == k then [(k, v)] + d[1..]
    else
      assert !HasKey(d, k) ==> !HasKey(d[1..], k) by {
        if HasKey(d[1..], k) { var i :| 0 <= i < |d[1..]| && d[1..][i].0 == k; assert d[i + 1].0 == k; }
      }
      [d[0]] + Put(d[1..], k, v)
  }

  /** After `d[k] = v`, `k` holds `v` and every other key holds what it held. */
  lemma {:induction false} LookupPut(d: Dict, k: string, v: Value, k': string)
    ensures Lookup(Put(d, k, v), k') == if k' == k then Some(v) else Lookup(d, k')
  {
    if d != [] && d[0].0 != k {
      LookupPut(d[1..], k, v, k');
      assert ([d[0]] + Put(d[1..], k, v))[1..] == Put(d[1..], k, v);
    }
  }

  /** `d.pop(k)` once the caller has checked that `k` is present: every entry with key `k`
      goes, every other entry stays, in order. */
  function Pop(d: Dict, k: string): Dict {
    if d == [] then []
    else if d[0].0 == k then Pop(d[1..], k)
    else [d[0]] + Pop(d[1..], k)
  }

  /** After `d.pop(k)`, `k` is absent and every other key holds what it held. */
  lemma {:induction false} LookupPop(d: Dict, k: string, k': string)
    ensures Lookup(Pop(d, k), k') == if k' == k then None else Lookup(d, k')
  {
    if d != [] {
      LookupPop(d[1..], k, k');
      if d[0].0 != k {
        assert ([d[0]] + Pop(d[1..], k))[1..] == Pop(d[1..], k);
      }
    }
  }

  /** `d.update(e)`. */
  function UpdateWith(d: Dict, e: Dict): Dict
    decreases |e|
  {
    if e == [] then d else UpdateWith(Put(d, e[0].0, e[0].1), e[1..])
  }

  /** After `d.update(e)`, the keys of `e` hold the values of `e`, the other keys what they held. */
  lemma {:induction false} LookupUpdateWith(d: Dict, e: Dict, k: string)
    requires DistinctKeys(e)
    ensures Lookup(UpdateWith(d, e), k) == if HasKey(e, k) then Lookup(e, k) else Lookup(d, k)
    decreases |e|
  {
    if e != [] {
      var tl := e[1..];
      assert DistinctKeys(tl) by {
        forall i, j | 0 <= i < j < |tl| ensures tl[i].0 != tl[j].0 { assert tl[i] == e[i + 1] && tl[j] == e[j + 1]; }
      }
      LookupUpdateWith(Put(d, e[0].0, e[0].1), tl, k);
      LookupPut(d, e[0].0, e[0].1, k);
      assert HasKey(e, k) <==> e[0].0 == k || HasKey(tl, k) by {
        if HasKey(e, k) { var i :| 0 <= i < |e| && e[i].0 == k; if i > 0 { assert tl[i - 1].0 == k; } }
        if HasKey(tl, k) { var i :| 0 <= i < |tl| && tl[i].0 == k; assert e[i + 1].0 == k; }
      }
      if e[0].0 == k {
        forall i | 0 <= i < |tl| ensures tl[i].0 != k { assert tl[i] == e[i + 1]; }
      }
    }
  }

  lemma DistinctTail(d: Dict)
    requires d != [] && DistinctKeys(d)
    ensures DistinctKeys(d[1..])
    ensures !HasKey(d[1..], d[0].0)
  {
    var tl := d[1..];
    forall i, j | 0 <= i < j < |tl| ensures tl[i].0 != tl[j].0 { assert tl[i] == d[i + 1] && tl[j] == d[j + 1]; }
    forall i | 0 <= i < |tl| ensures tl[i].0 != d[0].0 { assert tl[i] == d[i + 1]; }
  }

  lemma DistinctCons(e: (string, Value), d: Dict)
    requires DistinctKeys(d) && !HasKey(d, e.0)
    ensures DistinctKeys([e] + d)
  {
    var r := [e] + d;
    forall i, j | 0 <= i < j < |r| ensures r[i].0 != r[j].0 {
      assert r[j] == d[j - 1];
      if i > 0 { assert r[i] == d[i - 1]; }
    }
  }

  /** With distinct keys, looking up the key of an entry gives that entry's value. */
  lemma {:induction false} LookupAt(d: Dict, i: nat)
    requires DistinctKeys(d) && i < |d|
    ensures Lookup(d, d[i].0) == Some(d[i].1)
  {
    if i > 0 {
      DistinctTail(d);
      assert d[0].0 != d[i].0;
      assert d[1..][i - 1] == d[i];
      LookupAt(d[1..], i - 1);
    }
  }

  lemma HasKeyAt(d: Dict, i: nat)
    requires i < |d|
    ensures HasKey(d, d[i].0)
  {}

  /** `d[k] = v` keeps the keys distinct. */
  lemma {:induction false} PutDistinct(d: Dict, k: string, v: Value)
    requires DistinctKeys(d)
    ensures DistinctKeys(Put(d, k, v))
  {
    if d == [] {
    } else if d[0].0 == k {
      DistinctTail(d);
      DistinctCons((k, v), d[1..]);
    } else {
      DistinctTail(d);
      PutDistinct(d[1..], k, v);
      LookupPut(d[1..], k, v, d[0].0);
      DistinctCons(d[0], Put(d[1..], k, v));
    }
  }

  /** `d.pop(k)` keeps the keys distinct. */
  lemma {:induction false} PopDistinct(d: Dict, k: string)
    requires DistinctKeys(d)
    ensures DistinctKeys(Pop(d, k))
  {
    if d != [] {
      DistinctTail(d);
      PopDistinct(d[1..], k);
      if d[0].0 != k {
        LookupPop(d[1..], k, d[0].0);
        DistinctCons(d[0], Pop(d[1..], k));
      }
    }
  }

  lemma {:induction false} UpdateWithDistinct(d: Dict, e: Dict)
    requires DistinctKeys(d)
    ensures DistinctKeys(UpdateWith(d, e))
    decreases |e|
  {
    if e != [] {
      PutDistinct(d, e[0].0, e[0].1);
      UpdateWithDistinct(Put(d, e[0].0, e[0].1), e[1..]);
    }
  }

  /** Keys that are distinct and stay distinct once under-scored: an API object whose keys each
      name at most one attribute. */
  ghost predicate CamelKeys(d: Dict) {
    DistinctKeys(d)
    && forall k1, k2 :: HasKey(d, k1) && HasKey(d, k2) && Underscore(k1) == Underscore(k2) ==> k1 == k2
  }

  lemma CamelKeysFieldKeys(d: Dict)
    requires CamelKeys(d)
    ensures DistinctFieldKeys(d)
  {
    forall i, j | 0 <= i < j < |d| ensures Underscore(d[i].0) != Underscore(d[j].0) {
      HasKeyAt(d, i);
      HasKeyAt(d, j);
    }
  }

  /** `d[k] = v` keeps the keys camel keys when `k` is present or names no present attribute. */
  lemma PutCamelKeys(d: Dict, k: string, v: Value)
    requires CamelKeys(d)
    requires forall k' :: HasKey(d, k') && Underscore(k') == Underscore(k) ==> k' == k
    ensures CamelKeys(Put(d, k, v))
    ensures forall k' :: HasKey(Put(d, k, v), k') <==> k' == k || HasKey(d, k')
  {
    PutDistinct(d, k, v);
    PutHasKey(d, k, v);
    var p := Put(d, k, v);
    forall k1, k2 | HasKey(p, k1) && HasKey(p, k2) && Underscore(k1) == Underscore(k2) ensures k1 == k2 {
      if k1 != k && k2 != k {
        assert HasKey(d, k1) && HasKey(d, k2);
      }
    }
  }

  lemma PutHasKey(d: Dict, k: string, v: Value)
    ensures forall k' :: HasKey(Put(d, k, v), k') <==> k' == k || HasKey(d, k')
  {
    forall k' ensures HasKey(Put(d, k, v), k') <==> k' == k || HasKey(d, k') {
      LookupPut(d, k, v, k');
    }
  }

  /** `d.pop(k)` keeps the keys camel keys. */
  lemma PopCamelKeys(d: Dict, k: string)
    requires CamelKeys(d)
    ensures CamelKeys(Pop(d, k))
    ensures forall k' :: HasKey(Pop(d, k), k') <==> k' != k && HasKey(d, k')
  {
    PopDistinct(d, k);
    forall k' ensures HasKey(Pop(d, k), k') <==> k' != k && HasKey(d, k') {
      LookupPop(d, k, k');
    }
  }

  lemma LookupCons(e: (string, Value), d: Dict, k: string)
    ensures Lookup([e] + d, k) == if e.0 == k then Some(e.1) else Lookup(d, k)
  {
    assert ([e] + d)[1..] == d;
  }

  // ---------------------------------------------------------------- names

  /** `inflection.camelize(name)`: the first character is capitalised and every `_x` becomes `X`. */
  function Camelize(s: string): string {
    if s == [] then [] else [ToUpper(s[0])] + CamelizeRest(s[1..])
  }

  function CamelizeRest(t: string): string {
    if t == [] then []
    else if t[0] == '_' && |t| > 1 then [ToUpper(t[1])] + CamelizeRest(t[2..])
    else [t[0]] + CamelizeRest(t[1..])
  }

  /** A word break of `inflection.underscore` falls before an upper-case letter that follows a
      lower-case letter or a digit, or that follows an upper-case letter and precedes a
      lower-case one (its two substitution rules, in the order it applies them). */
  predicate BreakBefore(prev: char, c: char, rest: string) {
    IsUpper(c) && (IsLower(prev) || IsDigit(prev) || (IsUpper(prev) && rest != [] && IsLower(rest[0])))
  }

  /** The character `inflection.underscore` emits for `c`: dashes become underscores, upper-case
      letters are lowered. */
  function UnderChar(c: char): char {
    if c == '-' then '_' else ToLower(c)
  }

  /** `inflection.underscore(key)`. */
  function Underscore(s: string): string {
    if s == [] then [] else [UnderChar(s[0])] + UnderscoreAfter(s[0], s[1..])
  }

  function UnderscoreAfter(prev: char, t: string): string
    decreases |t|
  {
    if t == [] then []
    else
      var brk := if BreakBefore(prev, t[0], t[1..]) then "_" else "";
      brk + [UnderChar(t[0])] + UnderscoreAfter(t[0], t[1..])
  }

  /** A model attribute name: lower-case words of letters and digits joined by single
      underscores, each word starting with a letter; a one-letter word is followed by a word
      whose second character is a letter (otherwise `underscore` cannot find the break again,
      as in `a_b` -> `AB` -> `ab`). */
  predicate SnakeName(s: string) {
    |s| > 0 && IsLower(s[0]) && SnakeFrom(s, 1, true)
  }

  /** The part of a snake name from index `i` on; `short` says that the word before `i` has
      a single letter so far. */
  predicate SnakeFrom(s: string, i: nat, short: bool)
    decreases |s| - i
  {
    if i >= |s| then true
    else if s[i] == '_' then
      i + 1 < |s| && IsLower(s[i + 1]) && (short ==> i + 2 < |s| && IsLower(s[i + 2]))
      && SnakeFrom(s, i + 2, true)
    else (IsLower(s[i]) || IsDigit(s[i])) && SnakeFrom(s, i + 1, false)
  }

  lemma {:induction false} UnderscoreCamelizeTail(prev: char, s: string, i: nat, short: bool)
    requires i <= |s| && SnakeFrom(s, i, short)
    requires IsLower(prev) || IsDigit(prev) || IsUpper(prev)
    requires IsUpper(prev) <==> short
    ensures UnderscoreAfter(prev, CamelizeRest(s[i..])) == s[i..]
    decreases |s| - i
  {
    var t := s[i..];
    if t == [] {
    } else if t[0] == '_' {
      var x := t[1];
      var rest := t[2..];
      assert rest == s[i + 2..];
      var c := CamelizeRest(t);
      assert c == [ToUpper(x)] + CamelizeRest(rest);
      assert c[1..] == CamelizeRest(rest);
      if short {
        assert CamelizeRest(rest)[0] == rest[0];
      }
      UnderscoreCamelizeTail(ToUpper(x), s, i + 2, true);
      assert t == "_" + [x] + rest;
    } else {
      assert t[1..] == s[i + 1..];
      var c := CamelizeRest(t);
      assert c == [t[0]] + CamelizeRest(t[1..]);
      assert c[1..] == CamelizeRest(t[1..]);
      UnderscoreCamelizeTail(t[0], s, i + 1, false);
      assert t == [t[0]] + t[1..];
    }
  }

  /** Under-scoring a camelized attribute name gives the name back, so the key `serialize`
      writes for an attribute is read back into the same attribute. */
  lemma UnderscoreCamelize(s: string)
    requires SnakeName(s)
    ensures Underscore(Camelize(s)) == s
  {
    var c := Camelize(s);
    assert c[1..] == CamelizeRest(s[1..]);
    UnderscoreCamelizeTail(ToUpper(s[0]), s, 1, true);
  }

  /** Distinct attribute names have distinct API keys. */
  lemma CamelizeInjective(a: string, b: string)
    requires SnakeName(a) && SnakeName(b) && a != b
    ensures Camelize(a) != Camelize(b)
  {
    UnderscoreCamelize(a);
    UnderscoreCamelize(b);
  }

  // ---------------------------------------------------------------- schema

  /** How `api_data_to_kwargs` treats a field: `Char/Text/URLField` (None becomes ''), an
      integer field or a relation to an integer key (`int()` is applied), or anything else. */
  datatype FieldKind = TextKind | IntKind | OtherKind

  /** A forward field of a model, by its attribute name (`attname`). */
  datatype Field = Field(attname: string, kind: FieldKind)

  /** The parts of a Django model's `_meta` the codec reads. `pkName` is `_meta.pk.name` and
      `pkAttname` its attribute; a multi-table child (`TextCampaign`, `Keyword`) has its parent
      link as primary key. */
  datatype Model = Model(fields: seq<Field>, pkName: string, pkAttname: string, multiTable: bool,
                         exclude: set<string>, excludeUpdate: set<string>)

  function Attnames(fs: seq<Field>): (r: set<string>)
    ensures forall i :: 0 <= i < |fs| ==> fs[i].attname in r
    ensures forall n :: n in r ==> exists i :: 0 <= i < |fs| && fs[i].attname == n
  {
    if fs == [] then {}
    else
      var r := {fs[0].attname} + Attnames(fs[1..]);
      forall n | n in r ensures exists i :: 0 <= i < |fs| && fs[i].attname == n {
        if n != fs[0].attname {
          var i :| 0 <= i < |fs[1..]| && fs[1..][i].attname == n;
          assert fs[i + 1].attname == n;
        }
      }
      r
  }

  /** `field_names()`: the attribute names the API data may set. */
  function FieldNames(m: Model): set<string> {
    Attnames(m.fields)
  }

  /** The kind of the field named `n` (`_meta.get_field(n)`). */
  function KindIn(fs: seq<Field>, n: string): FieldKind {
    if fs == [] then OtherKind else if fs[0].attname == n then fs[0].kind else KindIn(fs[1..], n)
  }

  predicate DistinctAttnames(fs: seq<Field>) {
    forall i, j :: 0 <= i < j < |fs| ==> fs[i].attname != fs[j].attname
  }

  /** A model whose attribute names are snake names, each declared once. */
  predicate WellFormed(m: Model) {
    DistinctAttnames(m.fields) && forall i :: 0 <= i < |m.fields| ==> SnakeName(m.fields[i].attname)
  }

  lemma {:induction false} KindInAt(fs: seq<Field>, i: nat)
    requires DistinctAttnames(fs) && i < |fs|
    ensures KindIn(fs, fs[i].attname) == fs[i].kind
  {
    if i > 0 {
      assert fs[0].attname != fs[i].attname;
      assert fs[1..][i - 1] == fs[i];
      KindInAt(fs[1..], i - 1);
    }
  }

  // ---------------------------------------------------------------- api_data_to_kwargs

  /** Python's `int(v)`. */
  function ToInt(v: Value): (r: Result<Value, CodecError>)
    ensures r.Ok? ==> r.value.Int?
    ensures v.Int? ==> r == Ok(v)
  {
    match v
    case Int(_) => Ok(v)
    case Bool(b) => Ok(Int(if b then 1 else 0))
    case Quot(n, d) => if d == 0 then Err(ValueError) else Ok(Int(TruncDiv(n, d)))
    case Str(s) => (match ParseInt(s) case Some(i) => Ok(Int(i)) case None => Err(ValueError))
    case _ => Err(TypeError)
  }

  /** Division truncated toward zero, as `int(n / d)` computes it. */
  function TruncDiv(n: int, d: int): (q: int)
    requires d != 0
    ensures n >= 0 && d > 0 ==> q == n / d
  {
    var a := if n < 0 then -n else n;
    var b := if d < 0 then -d else d;
    if (n < 0) == (d < 0) then a / b else -(a / b)
  }

  /** The value `api_data_to_kwargs` stores for one key of kind `k`. */
  function Convert(k: FieldKind, v: Value): (r: Result<Value, CodecError>)
    ensures k == TextKind && v == Null ==> r == Ok(Str(""))
    ensures k == IntKind && v != Null ==> r == ToInt(v)
    ensures k == OtherKind ==> r == Ok(v)
    ensures Truthy(v) && (k != IntKind || v.Int?) ==> r == Ok(v)
  {
    if v == Null && k == TextKind then Ok(Str(""))
    else if v != Null && k == IntKind then ToInt(v)
    else Ok(v)
  }

  /** `api_data_to_kwargs` folded over the entries after `acc`: keys that name no field are
      skipped, a later key overrides an earlier one, the first failed conversion raises. */
  function KwargsFrom(m: Model, acc: map<string, Value>, data: Dict): Result<map<string, Value>, CodecError>
    decreases |data|
  {
    if data == [] then Ok(acc)
    else
      var f := Underscore(data[0].0);
      if f !in FieldNames(m) then KwargsFrom(m, acc, data[1..])
      else match Convert(KindIn(m.fields, f), data[0].1)
        case Err(e) => Err(e)
        case Ok(v) => KwargsFrom(m, acc[f := v], data[1..])
  }

  function Kwargs(m: Model, data: Dict): Result<map<string, Value>, CodecError> {
    KwargsFrom(m, map[], data)
  }

  /** `api_data_to_kwargs`, the loop over the entries of the API object. */
  method ApiDataToKwargs(m: Model, data: Dict) returns (r: Result<map<string, Value>, CodecError>)
    ensures r == Kwargs(m, data)
  {
    var params: map<string, Value> := map[];
    var i := 0;
    while i < |data|
      invariant 0 <= i <= |data|
      invariant KwargsFrom(m, params, data[i..]) == Kwargs(m, data)
    {
      var (k, v) := data[i];
      assert data[i..][1..] == data[i + 1..];
      var f := Underscore(k);
      if f in FieldNames(m) {
        var c := Convert(KindIn(m.fields, f), v);
        if c.Err? {
          return Err(c.error);
        }
        params := params[f := c.value];
      }
      i := i + 1;
    }
    return Ok(params);
  }

  /** Keys whose under-scored names differ pairwise. */
  predicate DistinctFieldKeys(data: Dict) {
    forall i, j :: 0 <= i < j < |data| ==> Underscore(data[i].0) != Underscore(data[j].0)
  }

  /** The key at `i` names a field whose value converts. */
  predicate Converts(m: Model, data: Dict, i: int)
    requires 0 <= i < |data|
  {
    Underscore(data[i].0) in FieldNames(m) ==> Convert(KindIn(m.fields, Underscore(data[i].0)), data[i].1).Ok?
  }

  /** What `api_data_to_kwargs` returns when no two keys name the same field: it fails exactly
      when some field value does not convert; otherwise its keys are the named fields (besides
      those already given) and each holds its converted value. */
  lemma ShiftConverts(m: Model, data: Dict)
    requires data != []
    ensures (forall i :: 0 <= i < |data| ==> Converts(m, data, i))
      <==> Converts(m, data, 0) && forall i :: 0 <= i < |data[1..]| ==> Converts(m, data[1..], i)
  {
    forall i | 0 <= i < |data[1..]| ensures Converts(m, data[1..], i) == Converts(m, data, i + 1) {
      assert data[1..][i] == data[i + 1];
    }
    if forall i :: 0 <= i < |data[1..]| ==> Converts(m, data[1..], i) {
      forall i | 0 < i < |data| ensures Converts(m, data, i) { assert Converts(m, data[1..], i - 1); }
    }
  }

  lemma {:induction false} KwargsFromOk(m: Model, acc: map<string, Value>, data: Dict)
    ensures KwargsFrom(m, acc, data).Ok? <==> forall i :: 0 <= i < |data| ==> Converts(m, data, i)
    decreases |data|
  {
    if data != [] {
      var f := Underscore(data[0].0);
      ShiftConverts(m, data);
      if f !in FieldNames(m) {
        KwargsFromOk(m, acc, data[1..]);
      } else {
        var c := Convert(KindIn(m.fields, f), data[0].1);
        if c.Ok? {
          KwargsFromOk(m, acc[f := c.value], data[1..]);
        }
      }
    }
  }

  lemma DistinctFieldKeysTail(data: Dict)
    requires data != [] && DistinctFieldKeys(data)
    ensures DistinctFieldKeys(data[1..])
    ensures forall i :: 0 <= i < |data[1..]| ==> data[1..][i] == data[i + 1] && Underscore(data[1..][i].0) != Underscore(data[0].0)
  {
    var tl := data[1..];
    forall i, j | 0 <= i < j < |tl| ensures Underscore(tl[i].0) != Underscore(tl[j].0) {
      assert tl[i] == data[i + 1] && tl[j] == data[j + 1];
    }
  }

  /** The keys of the result: those given and the fields some key names. */
  lemma {:induction false} KwargsFromKeys(m: Model, acc: map<string, Value>, data: Dict)
    requires KwargsFrom(m, acc, data).Ok?
    ensures forall f :: f in KwargsFrom(m, acc, data).value <==>
      f in acc || exists i :: 0 <= i < |data| && Underscore(data[i].0) == f && f in FieldNames(m)
    decreases |data|
  {
    if data != [] {
      var f := Underscore(data[0].0);
      var tl := data[1..];
      if f !in FieldNames(m) {
        KwargsFromKeys(m, acc, tl);
      } else {
        KwargsFromKeys(m, acc[f := Convert(KindIn(m.fields, f), data[0].1).value], tl);
      }
      var r := KwargsFrom(m, acc, data).value;
      forall g ensures g in r <==> g in acc || exists i :: 0 <= i < |data| && Underscore(data[i].0) == g && g in FieldNames(m) {
        if exists i :: 0 <= i < |tl| && Underscore(tl[i].0) == g && g in FieldNames(m) {
          var i :| 0 <= i < |tl| && Underscore(tl[i].0) == g && g in FieldNames(m);
          assert tl[i] == data[i + 1];
        }
        if exists i :: 0 <= i < |data| && Underscore(data[i].0) == g && g in FieldNames(m) {
          var i :| 0 <= i < |data| && Underscore(data[i].0) == g && g in FieldNames(m);
          if i > 0 {
            assert tl[i - 1] == data[i];
          }
        }
      }
    }
  }

  /** Each field a key names holds that key's converted value (no other key names it). */
  lemma {:induction false} KwargsFromValues(m: Model, acc: map<string, Value>, data: Dict)
    requires DistinctFieldKeys(data) && KwargsFrom(m, acc, data).Ok?
    ensures forall i :: 0 <= i < |data| && Underscore(data[i].0) in FieldNames(m) ==>
      Convert(KindIn(m.fields, Underscore(data[i].0)), data[i].1).Ok? &&
      Underscore(data[i].0) in KwargsFrom(m, acc, data).value &&
      KwargsFrom(m, acc, data).value[Underscore(data[i].0)] == Convert(KindIn(m.fields, Underscore(data[i].0)), data[i].1).value
    decreases |data|
  {
    if data != [] {
      var f := Underscore(data[0].0);
      DistinctFieldKeysTail(data);
      if f !in FieldNames(m) {
        KwargsFromValues(m, acc, data[1..]);
      } else {
        var acc' := acc[f := Convert(KindIn(m.fields, f), data[0].1).value];
        KwargsFromValues(m, acc', data[1..]);
        KwargsFromKeepsAcc(m, acc', data[1..]);
      }
    }
  }

  /** A given entry no key names is kept. */
  lemma {:induction false} KwargsFromKeepsAcc(m: Model, acc: map<string, Value>, data: Dict)
    requires KwargsFrom(m, acc, data).Ok?
    ensures forall f :: f in acc && (forall i :: 0 <= i < |data| ==> Underscore(data[i].0) != f) ==>
      f in KwargsFrom(m, acc, data).value && KwargsFrom(m, acc, data).value[f] == acc[f]
    decreases |data|
  {
    if data != [] {
      var f := Underscore(data[0].0);
      var tl := data[1..];
      var acc' := if f !in FieldNames(m) then acc else acc[f := Convert(KindIn(m.fields, f), data[0].1).value];
      KwargsFromKeepsAcc(m, acc', tl);
      forall g | g in acc && (forall i :: 0 <= i < |data| ==> Underscore(data[i].0) != g)
        ensures forall i :: 0 <= i < |tl| ==> Underscore(tl[i].0) != g
      {
        forall i | 0 <= i < |tl| ensures Underscore(tl[i].0) != g {
          assert tl[i] == data[i + 1];
        }
      }
    }
  }

  lemma KwargsFromMeaning(m: Model, acc: map<string, Value>, data: Dict)
    requires DistinctFieldKeys(data)
    ensures KwargsFrom(m, acc, data).Ok? <==> forall i :: 0 <= i < |data| ==> Converts(m, data, i)
    ensures KwargsFrom(m, acc, data).Ok? ==>
      var r := KwargsFrom(m, acc, data).value;
      (forall f :: f in r <==> f in acc || exists i :: 0 <= i < |data| && Underscore(data[i].0) == f && f in FieldNames(m))
      && (forall i :: 0 <= i < |data| && Underscore(data[i].0) in FieldNames(m) ==>
            Convert(KindIn(m.fields, Underscore(data[i].0)), data[i].1).Ok? &&
            r[Underscore(data[i].0)] == Convert(KindIn(m.fields, Underscore(data[i].0)), data[i].1).value)
      && (forall f :: f in acc && (forall i :: 0 <= i < |data| ==> Underscore(data[i].0) != f) ==> r[f] == acc[f])
  {
    KwargsFromOk(m, acc, data);
    if KwargsFrom(m, acc, data).Ok? {
      KwargsFromKeys(m, acc, data);
      KwargsFromValues(m, acc, data);
      KwargsFromKeepsAcc(m, acc, data);
    }
  }

  /** `api_data_to_kwargs` read through lookups: for an object with camel keys it fails exactly
      when some attribute's value does not convert; otherwise it holds exactly the attributes
      named by some key, each at its key's converted value. */
  lemma KwargsByLookup(m: Model, d: Dict)
    requires CamelKeys(d)
    ensures Kwargs(m, d).Ok? <==> forall k :: HasKey(d, k) && Underscore(k) in FieldNames(m) ==>
      Convert(KindIn(m.fields, Underscore(k)), Lookup(d, k).value).Ok?
    ensures Kwargs(m, d).Ok? ==> forall f :: f in Kwargs(m, d).value <==>
      f in FieldNames(m) && exists k :: HasKey(d, k) && Underscore(k) == f
    ensures Kwargs(m, d).Ok? ==> forall k :: HasKey(d, k) && Underscore(k) in FieldNames(m) ==>
      Convert(KindIn(m.fields, Underscore(k)), Lookup(d, k).value).Ok? &&
      Kwargs(m, d).value[Underscore(k)] == Convert(KindIn(m.fields, Underscore(k)), Lookup(d, k).value).value
  {
    CamelKeysFieldKeys(d);
    KwargsFromMeaning(m, map[], d);
    forall i | 0 <= i < |d| ensures Lookup(d, d[i].0) == Some(d[i].1) { LookupAt(d, i); }
    forall k | HasKey(d, k) ensures exists i :: 0 <= i < |d| && d[i].0 == k && Lookup(d, k) == Some(d[i].1) {
      var i :| 0 <= i < |d| && d[i].0 == k;
      LookupAt(d, i);
    }
    if Kwargs(m, d).Ok? {
      forall f | f in FieldNames(m) && (exists k :: HasKey(d, k) && Underscore(k) == f) ensures f in Kwargs(m, d).value {
        var k :| HasKey(d, k) && Underscore(k) == f;
        var i :| 0 <= i < |d| && d[i].0 == k;
      }
    } else {
      var i :| 0 <= i < |d| && !Converts(m, d, i);
      HasKeyAt(d, i);
    }
  }

  /** Two objects whose keys name the same attributes, with values that convert alike: when
      the first converts, so does the second. */
  lemma KwargsAgreeOk(m: Model, a: Dict, b: Dict)
    requires CamelKeys(a) && CamelKeys(b)
    requires forall k :: Underscore(k) in FieldNames(m) ==> (HasKey(a, k) <==> HasKey(b, k))
    requires forall k :: HasKey(a, k) && HasKey(b, k) && Underscore(k) in FieldNames(m) ==>
      Convert(KindIn(m.fields, Underscore(k)), Lookup(a, k).value) == Convert(KindIn(m.fields, Underscore(k)), Lookup(b, k).value)
    ensures Kwargs(m, a).Ok? ==> Kwargs(m, b).Ok?
  {
    KwargsByLookup(m, a);
    KwargsByLookup(m, b);
    if Kwargs(m, a).Ok? {
      forall k | HasKey(b, k) && Underscore(k) in FieldNames(m)
        ensures Convert(KindIn(m.fields, Underscore(k)), Lookup(b, k).value).Ok?
      {
        assert HasKey(a, k);
      }
    }
  }

  /** ... when both convert, their keyword arguments name the same attributes ... */
  lemma KwargsAgreeKeys(m: Model, a: Dict, b: Dict)
    requires CamelKeys(a) && CamelKeys(b) && Kwargs(m, a).Ok? && Kwargs(m, b).Ok?
    requires forall k :: Underscore(k) in FieldNames(m) ==> (HasKey(a, k) <==> HasKey(b, k))
    ensures Kwargs(m, a).value.Keys == Kwargs(m, b).value.Keys
  {
    KwargsByLookup(m, a);
    KwargsByLookup(m, b);
    var ra, rb := Kwargs(m, a).value, Kwargs(m, b).value;
    forall f | f in ra ensures f in rb {
      var k :| HasKey(a, k) && Underscore(k) == f;
      assert HasKey(b, k);
    }
    forall f | f in rb ensures f in ra {
      var k :| HasKey(b, k) && Underscore(k) == f;
      assert HasKey(a, k);
    }
  }

  /** ... and the same values. */
  lemma KwargsAgreeSame(m: Model, a: Dict, b: Dict)
    requires CamelKeys(a) && CamelKeys(b) && Kwargs(m, a).Ok? && Kwargs(m, b).Ok?
    requires forall k :: Underscore(k) in FieldNames(m) ==> (HasKey(a, k) <==> HasKey(b, k))
    requires forall k :: HasKey(a, k) && HasKey(b, k) && Underscore(k) in FieldNames(m) ==>
      Convert(KindIn(m.fields, Underscore(k)), Lookup(a, k).value) == Convert(KindIn(m.fields, Underscore(k)), Lookup(b, k).value)
    ensures Kwargs(m, a) == Kwargs(m, b)
  {
    KwargsAgreeKeys(m, a, b);
    var ra, rb := Kwargs(m, a).value, Kwargs(m, b).value;
    forall f | f in ra ensures ra[f] == rb[f] {
      KwargsByLookup(m, a);
      var k :| HasKey(a, k) && Underscore(k) == f;
      assert HasKey(b, k);
      KwargsAt(m, b, k);
    }
    assert ra == rb;
  }

  /** Two objects whose keys name the same attributes, with values that convert alike, give
      the same keyword arguments. */
  lemma KwargsAgree(m: Model, a: Dict, b: Dict)
    requires CamelKeys(a) && CamelKeys(b)
    requires forall k :: Underscore(k) in FieldNames(m) ==> (HasKey(a, k) <==> HasKey(b, k))
    requires forall k :: HasKey(a, k) && HasKey(b, k) && Underscore(k) in FieldNames(m) ==>
      Convert(KindIn(m.fields, Underscore(k)), Lookup(a, k).value) == Convert(KindIn(m.fields, Underscore(k)), Lookup(b, k).value)
    ensures Kwargs(m, a).Ok? <==> Kwargs(m, b).Ok?
    ensures Kwargs(m, a).Ok? ==> Kwargs(m, a) == Kwargs(m, b)
  {
    KwargsAgreeOk(m, a, b);
    KwargsAgreeOk(m, b, a);
    if Kwargs(m, a).Ok? {
      KwargsAgreeSame(m, a, b);
    }
  }

  /** Removing a key that names no attribute does not change the keyword arguments. */
  lemma {:induction false} KwargsFromPopUnnamed(m: Model, acc: map<string, Value>, d: Dict, k: string)
    requires Underscore(k) !in FieldNames(m)
    ensures KwargsFrom(m, acc, Pop(d, k)) == KwargsFrom(m, acc, d)
    decreases |d|
  {
    if d != [] {
      if d[0].0 == k {
        KwargsFromPopUnnamed(m, acc, d[1..], k);
      } else {
        var p := Pop(d, k);
        assert p[0] == d[0] && p[1..] == Pop(d[1..], k);
        var f := Underscore(d[0].0);
        if f !in FieldNames(m) {
          KwargsFromPopUnnamed(m, acc, d[1..], k);
        } else if Convert(KindIn(m.fields, f), d[0].1).Ok? {
          KwargsFromPopUnnamed(m, acc[f := Convert(KindIn(m.fields, f), d[0].1).value], d[1..], k);
        }
      }
    }
  }

  /** The keyword argument a single key of a camel-keyed object yields. */
  lemma KwargsAt(m: Model, d: Dict, k: string)
    requires CamelKeys(d) && HasKey(d, k) && Underscore(k) in FieldNames(m)
    ensures Kwargs(m, d).Ok? ==>
      (Convert(KindIn(m.fields, Underscore(k)), Lookup(d, k).value).Ok? && Underscore(k) in Kwargs(m, d).value
       && Kwargs(m, d).value[Underscore(k)] == Convert(KindIn(m.fields, Underscore(k)), Lookup(d, k).value).value)
  {
    KwargsByLookup(m, d);
  }

  /** Two objects with camel keys that agree on every key naming an attribute give the same
      keyword arguments whenever one of them converts. */
  lemma KwargsSameLookups(m: Model, a: Dict, b: Dict)
    requires CamelKeys(a) && CamelKeys(b)
    requires forall k :: Underscore(k) in FieldNames(m) ==> Lookup(a, k) == Lookup(b, k)
    ensures Kwargs(m, a).Ok? <==> Kwargs(m, b).Ok?
    ensures Kwargs(m, a).Ok? ==> Kwargs(m, a) == Kwargs(m, b)
  {
    KwargsAgree(m, a, b);
  }

  // ---------------------------------------------------------------- deserialize

  /** A deserialized object: the attributes it was built with and `updated_fields`. */
  datatype Decoded = Decoded(attrs: map<string, Value>, updated: set<string>)

  /** The attribute `n` of a record; an attribute that was never set reads as None. */
  function Attr(rec: map<string, Value>, n: string): Value {
    if n in rec then rec[n] else Null
  }

  /** The object built from keyword arguments `params`: a multi-table child also gets its
      parent link set from `id` (`obj.pk = obj.id`). */
  function Build(m: Model, params: map<string, Value>): map<string, Value> {
    if m.multiTable then params[m.pkAttname := Attr(params, "id")] else params
  }

  /** `updated_fields`: the converted keys without the primary key's name and, for a
      multi-table child, without `id`. */
  function UpdatedFields(m: Model, params: map<string, Value>): set<string> {
    params.Keys - {m.pkName} - (if m.multiTable then {"id"} else {})
  }

  /** `APIParserMixing.deserialize`. */
  function Deserialize(m: Model, data: Dict): (r: Result<Decoded, CodecError>)
    ensures r.Ok? ==> m.pkName !in r.value.updated
    ensures r.Ok? && m.multiTable ==> "id" !in r.value.updated
    ensures r.Ok? ==> r.value.updated <= r.value.attrs.Keys
    ensures r.Ok? <==> Kwargs(m, data).Ok?
  {
    match Kwargs(m, data)
    case Err(e) => Err(e)
    case Ok(params) => Ok(Decoded(Build(m, params), UpdatedFields(m, params)))
  }

  // ---------------------------------------------------------------- serialize

  /** `serialize(exclude, include_null)` over the fields `fs`: the camelized name and value of
      each field that is not excluded and, unless `includeNull`, whose value is truthy. */
  function SerializeFields(fs: seq<Field>, rec: map<string, Value>, exclude: set<string>, includeNull: bool): Dict {
    if fs == [] then []
    else
      var n := fs[0].attname;
      var v := Attr(rec, n);
      (if n !in exclude && (includeNull || Truthy(v)) then [(Camelize(n), v)] else [])
        + SerializeFields(fs[1..], rec, exclude, includeNull)
  }

  function Serialize(m: Model, rec: map<string, Value>, exclude: set<string>, includeNull: bool): Dict {
    SerializeFields(m.fields, rec, exclude, includeNull)
  }

  /** The attributes `serialize` writes when it skips empty values. */
  function Kept(fs: seq<Field>, rec: map<string, Value>, exclude: set<string>): map<string, Value> {
    if fs == [] then map[]
    else
      var n := fs[0].attname;
      var tl := Kept(fs[1..], rec, exclude);
      if n !in exclude && Truthy(Attr(rec, n)) then tl[n := Attr(rec, n)] else tl
  }

  /** `Kept` holds exactly the non-excluded attributes with truthy values, at their values. */
  lemma {:induction false} KeptMeaning(fs: seq<Field>, rec: map<string, Value>, exclude: set<string>)
    ensures var r := Kept(fs, rec, exclude);
      (forall n :: n in r <==> n in Attnames(fs) && n !in exclude && Truthy(Attr(rec, n)))
      && (forall n :: n in r ==> r[n] == Attr(rec, n))
  {
    if fs != [] {
      KeptMeaning(fs[1..], rec, exclude);
    }
  }

  /** A record whose integer fields hold integers wherever they are set. */
  predicate Conforming(m: Model, rec: map<string, Value>) {
    forall i :: 0 <= i < |m.fields| && m.fields[i].kind == IntKind && Truthy(Attr(rec, m.fields[i].attname))
      ==> Attr(rec, m.fields[i].attname).Int?
  }

  /** Every key of `d` is the camelized form of a name in `names`. */
  ghost predicate NamedKeys(names: set<string>, d: Dict) {
    forall i :: 0 <= i < |d| ==> Underscore(d[i].0) in names && Camelize(Underscore(d[i].0)) == d[i].0
  }

  lemma NamedKeysCons(head: Dict, rest: Dict, n: string, inner: set<string>, names: set<string>)
    requires |head| <= 1 && (|head| == 1 ==> head[0].0 == Camelize(n)) && Underscore(Camelize(n)) == n
    requires n in names && inner <= names && NamedKeys(inner, rest)
    ensures NamedKeys(names, head + rest)
  {
    if head == [] {
      assert head + rest == rest;
    } else {
      var d := head + rest;
      assert d[0] == head[0];
      forall i | 1 <= i < |d| ensures d[i] == rest[i - 1] {
      }
    }
  }

  /** Every key `serialize` writes is the camelized name of one of the fields. */
  lemma {:induction false} SerializeFieldsNames(fs: seq<Field>, rec: map<string, Value>, exclude: set<string>, includeNull: bool)
    requires forall i :: 0 <= i < |fs| ==> SnakeName(fs[i].attname)
    ensures NamedKeys(Attnames(fs), SerializeFields(fs, rec, exclude, includeNull))
  {
    if fs != [] {
      var tl := fs[1..];
      forall i | 0 <= i < |tl| ensures SnakeName(tl[i].attname) { assert tl[i] == fs[i + 1]; }
      SerializeFieldsNames(tl, rec, exclude, includeNull);
      var n := fs[0].attname;
      UnderscoreCamelize(n);
      var rest := SerializeFields(tl, rec, exclude, includeNull);
      var head := if n !in exclude && (includeNull || Truthy(Attr(rec, n))) then [(Camelize(n), Attr(rec, n))] else [];
      assert SerializeFields(fs, rec, exclude, includeNull) == head + rest;
      NamedKeysCons(head, rest, n, Attnames(tl), Attnames(fs));
    }
  }

  lemma {:induction false} SerializeFieldsDistinct(fs: seq<Field>, rec: map<string, Value>, exclude: set<string>, includeNull: bool)
    requires DistinctAttnames(fs) && forall i :: 0 <= i < |fs| ==> SnakeName(fs[i].attname)
    ensures DistinctFieldKeys(SerializeFields(fs, rec, exclude, includeNull))
  {
    if fs != [] {
      var tl := fs[1..];
      SnakeFieldsTail(fs);
      SerializeFieldsDistinct(tl, rec, exclude, includeNull);
      SerializeFieldsNames(tl, rec, exclude, includeNull);
      var n := fs[0].attname;
      UnderscoreCamelize(n);
      var rest := SerializeFields(tl, rec, exclude, includeNull);
      forall i | 0 <= i < |rest| ensures Underscore(rest[i].0) != n {
        assert Underscore(rest[i].0) in Attnames(tl);
      }
      var head := if n !in exclude && (includeNull || Truthy(Attr(rec, n))) then [(Camelize(n), Attr(rec, n))] else [];
      assert SerializeFields(fs, rec, exclude, includeNull) == head + rest;
      DistinctFieldKeysCons(head, rest, n);
    }
  }

  lemma DistinctFieldKeysCons(head: Dict, rest: Dict, n: string)
    requires |head| <= 1 && (|head| == 1 ==> Underscore(head[0].0) == n)
    requires DistinctFieldKeys(rest) && forall i :: 0 <= i < |rest| ==> Underscore(rest[i].0) != n
    ensures DistinctFieldKeys(head + rest)
  {
    if head == [] {
      assert head + rest == rest;
    } else {
      var d := head + rest;
      forall j | 0 < j < |d| ensures d[j] == rest[j - 1] && Underscore(d[j].0) != Underscore(d[0].0) {
        assert d[j] == rest[j - 1];
      }
      forall i, j | 0 < i < j < |d| ensures Underscore(d[i].0) != Underscore(d[j].0) {
        assert d[i] == rest[i - 1] && d[j] == rest[j - 1];
      }
    }
  }


  lemma SerializeFieldsKeys(fs: seq<Field>, rec: map<string, Value>, exclude: set<string>, includeNull: bool)
    requires DistinctAttnames(fs) && forall i :: 0 <= i < |fs| ==> SnakeName(fs[i].attname)
    ensures var d := SerializeFields(fs, rec, exclude, includeNull);
      (forall i :: 0 <= i < |d| ==> Underscore(d[i].0) in Attnames(fs) && Camelize(Underscore(d[i].0)) == d[i].0)
      && DistinctFieldKeys(d) && DistinctKeys(d)
  {
    SerializeFieldsNames(fs, rec, exclude, includeNull);
    SerializeFieldsDistinct(fs, rec, exclude, includeNull);
    var d := SerializeFields(fs, rec, exclude, includeNull);
    forall i, j | 0 <= i < j < |d| ensures d[i].0 != d[j].0 {
      assert Underscore(d[i].0) != Underscore(d[j].0);
    }
  }

  /** The fields `fs`, read through the model `m`: named by distinct snake names, each with
      the kind `m` gives it, and integers where a record sets them. */
  predicate ReadableFields(m: Model, fs: seq<Field>, rec: map<string, Value>) {
    DistinctAttnames(fs)
    && (forall i :: 0 <= i < |fs| ==> SnakeName(fs[i].attname) && KindIn(m.fields, fs[i].attname) == fs[i].kind)
    && (forall i :: 0 <= i < |fs| && fs[i].kind == IntKind && Truthy(Attr(rec, fs[i].attname)) ==> Attr(rec, fs[i].attname).Int?)
  }

  lemma ReadableTail(m: Model, fs: seq<Field>, rec: map<string, Value>, exclude: set<string>)
    requires fs != [] && ReadableFields(m, fs, rec)
    ensures ReadableFields(m, fs[1..], rec)
    ensures fs[0].attname !in Kept(fs[1..], rec, exclude)
  {
    var tl := fs[1..];
    forall i | 0 <= i < |tl| ensures tl[i] == fs[i + 1] { }
    KeptMeaning(tl, rec, exclude);
    forall j | 0 <= j < |tl| ensures tl[j].attname != fs[0].attname { assert tl[j] == fs[j + 1]; }
  }

  lemma KwargsFromHead(m: Model, acc: map<string, Value>, k: string, v: Value, rest: Dict)
    requires Underscore(k) in FieldNames(m) && Convert(KindIn(m.fields, Underscore(k)), v) == Ok(v)
    ensures KwargsFrom(m, acc, [(k, v)] + rest) == KwargsFrom(m, acc[Underscore(k) := v], rest)
  {
    assert ([(k, v)] + rest)[1..] == rest;
  }

  lemma UpdateThenUnion(acc: map<string, Value>, t: map<string, Value>, n: string, v: Value)
    requires n !in t
    ensures acc[n := v] + t == acc + t[n := v]
  {
  }

  /** The first field's value of a readable record converts to itself. */
  lemma ReadableHead(m: Model, fs: seq<Field>, rec: map<string, Value>)
    requires fs != [] && ReadableFields(m, fs, rec) && Truthy(Attr(rec, fs[0].attname))
    ensures Convert(KindIn(m.fields, fs[0].attname), Attr(rec, fs[0].attname)) == Ok(Attr(rec, fs[0].attname))
  {
    assert KindIn(m.fields, fs[0].attname) == fs[0].kind;
  }

  /** One field of `KwargsOfSerialized`: the first field is written and read back. */
  lemma KeptFieldStep(m: Model, fs: seq<Field>, rec: map<string, Value>, exclude: set<string>, acc: map<string, Value>)
    requires fs != [] && ReadableFields(m, fs, rec) && fs[0].attname in FieldNames(m)
    requires fs[0].attname !in exclude && Truthy(Attr(rec, fs[0].attname))
    requires var n := fs[0].attname;
      KwargsFrom(m, acc[n := Attr(rec, n)], SerializeFields(fs[1..], rec, exclude, false))
        == Ok(acc[n := Attr(rec, n)] + Kept(fs[1..], rec, exclude))
    ensures KwargsFrom(m, acc, SerializeFields(fs, rec, exclude, false)) == Ok(acc + Kept(fs, rec, exclude))
  {
    ReadableTail(m, fs, rec, exclude);
    var n := fs[0].attname;
    var v := Attr(rec, n);
    var rest := SerializeFields(fs[1..], rec, exclude, false);
    var tailKept := Kept(fs[1..], rec, exclude);
    assert SerializeFields(fs, rec, exclude, false) == [(Camelize(n), v)] + rest;
    assert SnakeName(fs[0].attname);
    UnderscoreCamelize(n);
    ReadableHead(m, fs, rec);
    KwargsFromHead(m, acc, Camelize(n), v, rest);
    assert Kept(fs, rec, exclude) == tailKept[n := v];
    UpdateThenUnion(acc, tailKept, n, v);
  }

  /** One field of `KwargsOfSerialized`: the first field is not written. */
  lemma SkippedFieldStep(m: Model, fs: seq<Field>, rec: map<string, Value>, exclude: set<string>, acc: map<string, Value>)
    requires fs != [] && !(fs[0].attname !in exclude && Truthy(Attr(rec, fs[0].attname)))
    requires KwargsFrom(m, acc, SerializeFields(fs[1..], rec, exclude, false)) == Ok(acc + Kept(fs[1..], rec, exclude))
    ensures KwargsFrom(m, acc, SerializeFields(fs, rec, exclude, false)) == Ok(acc + Kept(fs, rec, exclude))
  {
    assert SerializeFields(fs, rec, exclude, false) == [] + SerializeFields(fs[1..], rec, exclude, false)
      == SerializeFields(fs[1..], rec, exclude, false);
    assert Kept(fs, rec, exclude) == Kept(fs[1..], rec, exclude);
  }

  /** Reading back what `serialize` wrote (without empty values) gives the record's non-empty,
      non-excluded attributes, on top of whatever was already collected. */
  lemma {:induction false} KwargsOfSerialized(m: Model, fs: seq<Field>, rec: map<string, Value>, exclude: set<string>, acc: map<string, Value>)
    requires ReadableFields(m, fs, rec)
    requires Attnames(fs) <= FieldNames(m)
    ensures KwargsFrom(m, acc, SerializeFields(fs, rec, exclude, false)) == Ok(acc + Kept(fs, rec, exclude))
  {
    if fs == [] {
      assert acc + map[] == acc;
    } else {
      ReadableTail(m, fs, rec, exclude);
      var n := fs[0].attname;
      if n !in exclude && Truthy(Attr(rec, n)) {
        KwargsOfSerialized(m, fs[1..], rec, exclude, acc[n := Attr(rec, n)]);
        KeptFieldStep(m, fs, rec, exclude, acc);
      } else {
        KwargsOfSerialized(m, fs[1..], rec, exclude, acc);
        SkippedFieldStep(m, fs, rec, exclude, acc);
      }
    }
  }

  lemma ModelFieldsReadable(m: Model, rec: map<string, Value>)
    requires WellFormed(m) && Conforming(m, rec)
    ensures ReadableFields(m, m.fields, rec)
  {
    forall i | 0 <= i < |m.fields| ensures KindIn(m.fields, m.fields[i].attname) == m.fields[i].kind {
      KindInAt(m.fields, i);
    }
  }

  /** Round trip of the mixin: deserializing what `serialize` wrote rebuilds the record's
      non-empty, non-excluded attributes, and reports them as updated except the key. */
  lemma SerializeRoundTrip(m: Model, rec: map<string, Value>, exclude: set<string>)
    requires WellFormed(m) && Conforming(m, rec)
    ensures var k := Kept(m.fields, rec, exclude);
      Deserialize(m, Serialize(m, rec, exclude, false)) == Ok(Decoded(Build(m, k), UpdatedFields(m, k)))
  {
    ModelFieldsReadable(m, rec);
    KwargsOfSerialized(m, m.fields, rec, exclude, map[]);
    assert map[] + Kept(m.fields, rec, exclude) == Kept(m.fields, rec, exclude);
  }

  lemma SnakeFieldsTail(fs: seq<Field>)
    requires fs != [] && DistinctAttnames(fs) && forall i :: 0 <= i < |fs| ==> SnakeName(fs[i].attname)
    ensures DistinctAttnames(fs[1..]) && forall i :: 0 <= i < |fs[1..]| ==> SnakeName(fs[1..][i].attname)
    ensures fs[0].attname !in Attnames(fs[1..])
  {
    var tl := fs[1..];
    forall i | 0 <= i < |tl| ensures tl[i] == fs[i + 1] { }
    forall j | 0 <= j < |tl| ensures tl[j].attname != fs[0].attname { assert tl[j] == fs[j + 1]; }
  }

  /** The key `serialize` writes for attribute `n` holds the attribute's value exactly when the
      attribute is a field of the model, is not excluded and is truthy or `include_null` is set. */
  lemma {:induction false} SerializeFieldsLookup(fs: seq<Field>, rec: map<string, Value>, exclude: set<string>, includeNull: bool, n: string)
    requires DistinctAttnames(fs) && forall i :: 0 <= i < |fs| ==> SnakeName(fs[i].attname)
    requires SnakeName(n)
    ensures Lookup(SerializeFields(fs, rec, exclude, includeNull), Camelize(n)) ==
      if n in Attnames(fs) && n !in exclude && (includeNull || Truthy(Attr(rec, n))) then Some(Attr(rec, n)) else None
  {
    if fs != [] {
      SnakeFieldsTail(fs);
      var n0 := fs[0].attname;
      var rest := SerializeFields(fs[1..], rec, exclude, includeNull);
      SerializeFieldsLookup(fs[1..], rec, exclude, includeNull, n);
      if n0 != n { CamelizeInjective(n0, n); }
      if n0 !in exclude && (includeNull || Truthy(Attr(rec, n0))) {
        assert SerializeFields(fs, rec, exclude, includeNull) == [(Camelize(n0), Attr(rec, n0))] + rest;
        LookupCons((Camelize(n0), Attr(rec, n0)), rest, Camelize(n));
      } else {
        assert SerializeFields(fs, rec, exclude, includeNull) == [] + rest == rest;
      }
    }
  }

  /** The keys `serialize` writes are camel keys, each the camelized name of a field. */
  lemma SerializeKeys(m: Model, rec: map<string, Value>, exclude: set<string>, includeNull: bool)
    requires WellFormed(m)
    ensures var d := Serialize(m, rec, exclude, includeNull);
      CamelKeys(d) && forall k :: HasKey(d, k) ==> Underscore(k) in FieldNames(m) && Camelize(Underscore(k)) == k
  {
    var d := Serialize(m, rec, exclude, includeNull);
    SerializeFieldsKeys(m.fields, rec, exclude, includeNull);
    forall k | HasKey(d, k) ensures Underscore(k) in FieldNames(m) && Camelize(Underscore(k)) == k {
      var i :| 0 <= i < |d| && d[i].0 == k;
    }
  }
}
