/** Keyword arguments as the Django models take them: `get_valid_init_dict`, which the search
    deserializer and the Admitad manager each define, keeps the arguments a model has a field
    for. */
module InitDicts {
  import opened Wrappers

  /** The value a dictionary given as its items in insertion order holds for `k`. */
  function Find<V(!new)>(kw: seq<(string, V)>, k: string): (r: Option<V>)
    ensures r.Some? ==> (k, r.value) in kw
    ensures r.None? <==> forall p :: p in kw ==> p.0 != k
  {
    if kw == [] then None else if kw[0].0 == k then Some(kw[0].1) else Find(kw[1..], k)
  }

  /** A dictionary's items: no key twice. */
  predicate DistinctKeys<V>(kw: seq<(string, V)>) {
    forall i, j :: 0 <= i < j < |kw| ==> kw[i].0 != kw[j].0
  }

  /** `{k: v for k, v in kwargs.items() if k in field_names}`. */
  function ValidInitDict<V(!new)>(names: set<string>, kwargs: seq<(string, V)>): (r: seq<(string, V)>)
    ensures |r| <= |kwargs|
    ensures forall p :: p in r <==> p in kwargs && p.0 in names
  {
    if kwargs == [] then []
    else
      var rest := ValidInitDict(names, kwargs[1..]);
      if kwargs[0].0 in names then [kwargs[0]] + rest else rest
  }

  /** The items of a dictionary after the first are a dictionary, none with the first key. */
  lemma TailKeys<V(!new)>(kwargs: seq<(string, V)>)
    requires DistinctKeys(kwargs) && kwargs != []
    ensures DistinctKeys(kwargs[1..])
    ensures forall p :: p in kwargs[1..] ==> p.0 != kwargs[0].0
  {
    var tail := kwargs[1..];
    forall i, j | 0 <= i < j < |tail| ensures tail[i].0 != tail[j].0 {
      assert tail[i] == kwargs[i + 1] && tail[j] == kwargs[j + 1];
    }
    forall p | p in tail ensures p.0 != kwargs[0].0 {
      var j :| 0 <= j < |tail| && tail[j] == p;
      assert kwargs[j + 1] == p;
    }
  }

  /** The arguments kept form a dictionary again. */
  lemma {:induction false} ValidInitDictDistinct<V(!new)>(names: set<string>, kwargs: seq<(string, V)>)
    requires DistinctKeys(kwargs)
    ensures DistinctKeys(ValidInitDict(names, kwargs))
  {
    if kwargs != [] {
      TailKeys(kwargs);
      ValidInitDictDistinct(names, kwargs[1..]);
      var rest := ValidInitDict(names, kwargs[1..]);
      var r := ValidInitDict(names, kwargs);
      if kwargs[0].0 in names {
        assert r == [kwargs[0]] + rest;
        forall i, j | 0 <= i < j < |r| ensures r[i].0 != r[j].0 {
          assert r[j] == rest[j - 1];
          if i > 0 {
            assert r[i] == rest[i - 1];
          }
        }
      }
    }
  }

  /** The arguments kept are exactly those with a field name, each with the value it had. */
  lemma {:induction false} ValidInitDictLookup<V(!new)>(names: set<string>, kwargs: seq<(string, V)>)
    requires DistinctKeys(kwargs)
    ensures forall k :: Find(ValidInitDict(names, kwargs), k) == if k in names then Find(kwargs, k) else None
  {
    if kwargs != [] {
      TailKeys(kwargs);
      ValidInitDictLookup(names, kwargs[1..]);
    }
  }

  /** Filtering a second time keeps every argument. */
  lemma {:induction false} ValidInitDictIdempotent<V(!new)>(names: set<string>, kwargs: seq<(string, V)>)
    ensures ValidInitDict(names, ValidInitDict(names, kwargs)) == ValidInitDict(names, kwargs)
  {
    if kwargs != [] {
      ValidInitDictIdempotent(names, kwargs[1..]);
      var rest := ValidInitDict(names, kwargs[1..]);
      if kwargs[0].0 in names {
        assert ([kwargs[0]] + rest)[1..] == rest;
      }
    }
  }
}
