/** `APIParserMixing.sync_response` and `AdGroup.deserialize_nested`: the API results of one
    class become the ordered list of `bulk_sync` jobs, one per queued class (the parent class
    first, then the group negative keywords that the groups carry). */
module DirectSync {
  import opened Wrappers
  import opened DirectCodec
  import opened DirectModels

  // ---------------------------------------------------------------- classes and jobs

  /** The classes whose `sync_response` reads API results. */
  datatype ApiClass = RegionClass | CampaignClass | TextCampaignClass | AdGroupClass | TextAdClass | KeywordClass

  /** A key of `modified_objects`: one of those classes, or `GroupNegativeKeyword`. */
  datatype Table = Api(c: ApiClass) | NegativeKeywordTable

  /** An entry of `modified_objects` and the `bulk_sync` call it becomes: the objects in the
      order they were queued, the fields to write, the key fields and the filter that scopes
      the rows to reconcile. An entry created by `setdefault` has no fields, key fields or
      filter until they are set. */
  datatype Entry = Entry(table: Table, objects: seq<map<string, Value>>, fields: set<string>,
                         keyFields: seq<string>, filter: Dict)

  /** `cls.deserialize(item)` for each class. `TextCampaign` inherits `Campaign.deserialize`
      with its own fields; `AdGroup` uses the mixin's. */
  function DeserializeAs(c: ApiClass, item: Dict): Result<Decoded, CodecError> {
    match c
    case RegionClass => RegionDeserialize(item)
    case CampaignClass => CampaignDeserialize(CampaignModel, item)
    case TextCampaignClass => CampaignDeserialize(TextCampaignModel, item)
    case AdGroupClass => Deserialize(AdGroupModel, item)
    case TextAdClass => TextAdDeserialize(item)
    case KeywordClass => KeywordDeserialize(item)
  }

  /** `cls.deserialize` of a class, as a value (the lemmas below hold whatever it does). */
  function DecoderOf(c: ApiClass): Dict -> Result<Decoded, CodecError> {
    item => DeserializeAs(c, item)
  }

  // ---------------------------------------------------------------- the ordered queue

  /** The position of `t` among the keys of the queue. */
  function IndexOf(q: seq<Entry>, t: Table): (r: Option<nat>)
    ensures r.Some? ==> r.value < |q| && q[r.value].table == t
    ensures r.None? <==> forall i :: 0 <= i < |q| ==> q[i].table != t
    ensures r.Some? ==> forall i :: 0 <= i < r.value ==> q[i].table != t
  {
    if q == [] then None
    else if q[0].table == t then Some(0)
    else match IndexOf(q[1..], t)
      case None => (assert forall i :: 1 <= i < |q| ==> q[i] == q[1..][i - 1]; None)
      case Some(j) => (assert forall i :: 1 <= i <= j + 1 ==> q[i] == q[1..][i - 1]; Some(j + 1))
  }

  /** `modified_objects.setdefault(t, {}).setdefault('objects', []).append(obj)`. */
  function Append(q: seq<Entry>, t: Table, obj: map<string, Value>): seq<Entry> {
    match IndexOf(q, t)
    case Some(i) => q[i := q[i].(objects := q[i].objects + [obj])]
    case None => q + [Entry(t, [obj], {}, [], [])]
  }

  /** `Append` of each object of `objs` in turn. */
  function AppendAll(q: seq<Entry>, t: Table, objs: seq<map<string, Value>>): seq<Entry>
    decreases |objs|
  {
    if objs == [] then q else Append(AppendAll(q, t, objs[..|objs| - 1]), t, objs[|objs| - 1])
  }

  /** Setting `fields`, `key_fields` and `filter` of the entry of `t`; a missing entry raises a
      KeyError. */
  function SetMeta(q: seq<Entry>, t: Table, fields: set<string>, keyFields: seq<string>, filter: Dict): Result<seq<Entry>, CodecError> {
    match IndexOf(q, t)
    case Some(i) => Ok(q[i := q[i].(fields := fields, keyFields := keyFields, filter := filter)])
    case None => Err(KeyError(TableName(t)))
  }

  function TableName(t: Table): string {
    match t
    case NegativeKeywordTable => "GroupNegativeKeyword"
    case Api(c) =>
      match c
      case RegionClass => "Region"
      case CampaignClass => "Campaign"
      case TextCampaignClass => "TextCampaign"
      case AdGroupClass => "AdGroup"
      case TextAdClass => "TextAd"
      case KeywordClass => "Keyword"
  }

  // ---------------------------------------------------------------- negative keywords

  /** `for x in v`: a list yields its items, a dict its keys, a text its characters; other
      values are not iterable. */
  function IterValues(v: Value): (r: Result<seq<Value>, CodecError>)
    ensures v.List? ==> r == Ok(v.items)
    ensures v.Obj? ==> r.Ok? && |r.value| == |v.entries| && forall i :: 0 <= i < |v.entries| ==> r.value[i] == Str(v.entries[i].0)
    ensures v.Str? ==> r.Ok? && |r.value| == |v.s| && forall i :: 0 <= i < |v.s| ==> r.value[i] == Str([v.s[i]])
    ensures !v.List? && !v.Obj? && !v.Str? ==> r == Err(TypeError)
  {
    match v
    case List(xs) => Ok(xs)
    case Obj(es) => Ok(seq(|es|, i requires 0 <= i < |es| => Str(es[i].0)))
    case Str(s) => Ok(seq(|s|, i requires 0 <= i < |s| => Str([s[i]])))
    case _ => Err(TypeError)
  }

  /** The texts of the API's array of strings `{"Items": [...]}`: the items of its `Items`
      list. */
  function NegativeTexts(v: Value): (r: Result<seq<Value>, CodecError>)
    ensures !v.Obj? ==> r == Err(TypeError)
  {
    match v
    case Obj(es) =>
      var items :- Get(es, ItemsKey);
      IterValues(items)
    case _ => Err(TypeError)
  }

  /** What `deserialize_nested` as written iterates: the value of `NegativeKeywords` itself. */
  function NegativeTextsAsWritten(v: Value): Result<seq<Value>, CodecError> {
    IterValues(v)
  }

  /** A `GroupNegativeKeyword(ad_group_id=gid, text=kw)` per text, in order. */
  function NegativeRecords(gid: Value, texts: seq<Value>): (r: seq<map<string, Value>>)
    ensures |r| == |texts| && forall i :: 0 <= i < |texts| ==> r[i] == NegativeRecord(gid, texts[i])
    decreases |texts|
  {
    if texts == [] then [] else NegativeRecords(gid, texts[..|texts| - 1]) + [NegativeRecord(gid, texts[|texts| - 1])]
  }

  function NegativeRecord(gid: Value, text: Value): map<string, Value> {
    map["ad_group_id" := gid, "text" := text]
  }

  const NegativeKeyFields: seq<string> := ["ad_group_id", "text"]

  /** `{'ad_group__' + k: v for k, v in parent_filter.items()}`. */
  function Prefixed(filter: Dict): (r: Dict)
    ensures |r| == |filter| && forall i :: 0 <= i < |filter| ==> r[i] == ("ad_group__" + filter[i].0, filter[i].1)
  {
    seq(|filter|, i requires 0 <= i < |filter| => ("ad_group__" + filter[i].0, filter[i].1))
  }

  /** `cls.deserialize_nested(obj, item, filter)` on the queue `q`. Only `AdGroup` overrides
      the base, which does nothing: a missing `NegativeKeywords` raises a KeyError, a falsy
      one adds nothing, otherwise one record per text is queued and the entry's fields, key
      fields and prefixed filter are set. */
  function NestedStep(c: ApiClass, obj: Decoded, item: Dict, filter: Dict, q: seq<Entry>): Result<seq<Entry>, CodecError> {
    NestedAt(NegativeKeywordsKey, c, obj, item, filter, q)
  }

  function NestedAt(nk: string, c: ApiClass, obj: Decoded, item: Dict, filter: Dict, q: seq<Entry>): Result<seq<Entry>, CodecError> {
    if c != AdGroupClass then Ok(q)
    else
      var neg :- Get(item, nk);
      if !Truthy(neg) then Ok(q)
      else
        var texts :- NegativeTexts(neg);
        SetMeta(AppendAll(q, NegativeKeywordTable, NegativeRecords(Attr(obj.attrs, "id"), texts)),
                NegativeKeywordTable, {"ad_group_id", "text"}, NegativeKeyFields, Prefixed(filter))
  }

  /** `AdGroup.deserialize_nested`. */
  method DeserializeNested(c: ApiClass, obj: Decoded, item: Dict, filter: Dict, q0: seq<Entry>)
    returns (r: Result<seq<Entry>, CodecError>)
    ensures r == NestedStep(c, obj, item, filter, q0)
  {
    r := NestedInto(NegativeKeywordsKey, c, obj, item, filter, q0);
  }

  /** `deserialize_nested` reading the texts under the key `nk`, with its loop over the texts. */
  method NestedInto(nk: string, c: ApiClass, obj: Decoded, item: Dict, filter: Dict, q0: seq<Entry>)
    returns (r: Result<seq<Entry>, CodecError>)
    ensures r == NestedAt(nk, c, obj, item, filter, q0)
  {
    if c != AdGroupClass {
      return Ok(q0);
    }
    var neg := Get(item, nk);
    if neg.Err? {
      return Err(neg.error);
    }
    if !Truthy(neg.value) {
      return Ok(q0);
    }
    var texts := NegativeTexts(neg.value);
    if texts.Err? {
      return Err(texts.error);
    }
    var gid := Attr(obj.attrs, "id");
    var q := q0;
    var i := 0;
    while i < |texts.value|
      invariant 0 <= i <= |texts.value|
      invariant q == AppendAll(q0, NegativeKeywordTable, NegativeRecords(gid, texts.value[..i]))
    {
      RecordStep(q0, NegativeKeywordTable, gid, texts.value, i);
      q := Append(q, NegativeKeywordTable, NegativeRecord(gid, texts.value[i]));
      i := i + 1;
    }
    assert texts.value[..i] == texts.value;
    r := SetMeta(q, NegativeKeywordTable, {"ad_group_id", "text"}, NegativeKeyFields, Prefixed(filter));
  }

  /** One more text: its record is appended to the queue. */
  lemma RecordStep(q0: seq<Entry>, t: Table, gid: Value, texts: seq<Value>, i: nat)
    requires i < |texts|
    ensures AppendAll(q0, t, NegativeRecords(gid, texts[..i + 1]))
         == Append(AppendAll(q0, t, NegativeRecords(gid, texts[..i])), t, NegativeRecord(gid, texts[i]))
  {
    var pre := texts[..i + 1];
    assert pre[..|pre| - 1] == texts[..i];
    var rs := NegativeRecords(gid, pre);
    assert rs[..|rs| - 1] == NegativeRecords(gid, texts[..i]);
  }

  // ---------------------------------------------------------------- sync_response

  /** The queue after the items, and the fields the last item's `deserialize` returned. */
  function Fold(nk: string, c: ApiClass, dec: Dict -> Result<Decoded, CodecError>, items: seq<Dict>, filter: Dict): Result<(seq<Entry>, set<string>), CodecError>
    decreases |items|
  {
    if items == [] then Ok(([], {}))
    else
      var p :- Fold(nk, c, dec, items[..|items| - 1], filter);
      var d :- dec(items[|items| - 1]);
      var q :- NestedAt(nk, c, d, items[|items| - 1], filter, Append(p.0, Api(c), d.attrs));
      Ok((q, d.updated))
  }

  /** The `bulk_sync` jobs `sync_response` runs, in order: none for empty results; otherwise
      the queue, the parent's entry holding the last item's fields, the key field `pk` and
      the request's filter. */
  function SyncJobs(c: ApiClass, results: seq<Dict>, filter: Dict): Result<seq<Entry>, CodecError> {
    SyncJobsAt(NegativeKeywordsKey, c, results, filter)
  }

  function SyncJobsAt(nk: string, c: ApiClass, results: seq<Dict>, filter: Dict): Result<seq<Entry>, CodecError> {
    SyncJobsWith(nk, c, DecoderOf(c), results, filter)
  }

  /** The jobs for any decoder of the items. */
  function SyncJobsWith(nk: string, c: ApiClass, dec: Dict -> Result<Decoded, CodecError>, results: seq<Dict>, filter: Dict): Result<seq<Entry>, CodecError> {
    if results == [] then Ok([])
    else
      var p :- Fold(nk, c, dec, results, filter);
      SetMeta(p.0, Api(c), p.1, ["pk"], filter)
  }

  /** Once a prefix of the results fails, the whole fails with the same error. */
  lemma {:induction false} FoldPrefixFails(nk: string, c: ApiClass, dec: Dict -> Result<Decoded, CodecError>, items: seq<Dict>, filter: Dict, n: nat)
    requires n <= |items| && Fold(nk, c, dec, items[..n], filter).Err?
    ensures Fold(nk, c, dec, items, filter) == Fold(nk, c, dec, items[..n], filter)
    decreases |items|
  {
    if n < |items| {
      var init := items[..|items| - 1];
      assert init[..n] == items[..n];
      FoldPrefixFails(nk, c, dec, init, filter, n);
    } else {
      assert items[..n] == items;
    }
  }

  /** One more result: its object is queued, then its nested objects. */
  lemma FoldNext(nk: string, c: ApiClass, dec: Dict -> Result<Decoded, CodecError>, items: seq<Dict>, filter: Dict, i: nat)
    requires i < |items| && Fold(nk, c, dec, items[..i], filter).Ok?
    ensures Fold(nk, c, dec, items[..i + 1], filter)
         == match dec(items[i])
            case Err(e) => Err(e)
            case Ok(d) =>
              match NestedAt(nk, c, d, items[i], filter, Append(Fold(nk, c, dec, items[..i], filter).value.0, Api(c), d.attrs))
              case Err(e) => Err(e)
              case Ok(q) => Ok((q, d.updated))
  {
    assert items[..i + 1][..i] == items[..i];
  }

  /** `sync_response`. */
  method SyncResponse(c: ApiClass, results: seq<Dict>, filter: Dict) returns (r: Result<seq<Entry>, CodecError>)
    ensures r == SyncJobs(c, results, filter)
  {
    r := SyncInto(NegativeKeywordsKey, c, results, filter);
  }

  /** `sync_response` with the groups' texts read under the key `nk`, with its loop over the
      results. */
  method SyncInto(nk: string, c: ApiClass, results: seq<Dict>, filter: Dict) returns (r: Result<seq<Entry>, CodecError>)
    ensures r == SyncJobsAt(nk, c, results, filter)
  {
    r := SyncWith(nk, c, DecoderOf(c), results, filter);
  }

  /** The loop of `sync_response`, for any decoder of the items. */
  method SyncWith(nk: string, c: ApiClass, dec: Dict -> Result<Decoded, CodecError>, results: seq<Dict>, filter: Dict)
    returns (r: Result<seq<Entry>, CodecError>)
    ensures r == SyncJobsWith(nk, c, dec, results, filter)
  {
    if results == [] {
      return Ok([]);
    }
    var q: seq<Entry> := [];
    var received: set<string> := {};
    var i := 0;
    while i < |results|
      invariant 0 <= i <= |results|
      invariant Fold(nk, c, dec, results[..i], filter) == Ok((q, received))
    {
      FoldNext(nk, c, dec, results, filter, i);
      var d := dec(results[i]);
      if d.Err? {
        FoldPrefixFails(nk, c, dec, results, filter, i + 1);
        return Err(d.error);
      }
      q := Append(q, Api(c), d.value.attrs);
      received := d.value.updated;
      var n := NestedInto(nk, c, d.value, results[i], filter, q);
      if n.Err? {
        FoldPrefixFails(nk, c, dec, results, filter, i + 1);
        return Err(n.error);
      }
      q := n.value;
      i := i + 1;
    }
    assert results[..i] == results;
    r := SetMeta(q, Api(c), received, ["pk"], filter);
  }

  // ---------------------------------------------------------------- the jobs, without the queue

  /** What the results amount to: the parent objects in order, the last item's fields, and the
      group negative keywords in order. */
  datatype Pulled = Pulled(objects: seq<map<string, Value>>, updated: set<string>, negatives: seq<map<string, Value>>)

  /** The records one item adds for `GroupNegativeKeyword`, given those added before it. A
      truthy `NegativeKeywords` without texts sets the fields of an entry that does not exist
      yet when no group before it had any: a KeyError. */
  function NestedRecords(nk: string, c: ApiClass, d: Decoded, item: Dict, before: seq<map<string, Value>>): Result<seq<map<string, Value>>, CodecError> {
    if c != AdGroupClass then Ok([])
    else
      var neg :- Get(item, nk);
      if !Truthy(neg) then Ok([])
      else
        var texts :- NegativeTexts(neg);
        if before == [] && texts == [] then Err(KeyError("GroupNegativeKeyword"))
        else Ok(NegativeRecords(Attr(d.attrs, "id"), texts))
  }

  function Reference(nk: string, c: ApiClass, dec: Dict -> Result<Decoded, CodecError>, items: seq<Dict>): Result<Pulled, CodecError>
    decreases |items|
  {
    if items == [] then Ok(Pulled([], {}, []))
    else
      var p :- Reference(nk, c, dec, items[..|items| - 1]);
      var d :- dec(items[|items| - 1]);
      var recs :- NestedRecords(nk, c, d, items[|items| - 1], p.negatives);
      Ok(Pulled(p.objects + [d.attrs], d.updated, p.negatives + recs))
  }

  /** The job for the group negative keywords: present exactly when there are any. */
  function NegativeJob(negatives: seq<map<string, Value>>, filter: Dict): seq<Entry> {
    if negatives == [] then []
    else [Entry(NegativeKeywordTable, negatives, {"ad_group_id", "text"}, NegativeKeyFields, Prefixed(filter))]
  }

  /** The queue before the parent's fields are set. */
  function Queue(c: ApiClass, p: Pulled, filter: Dict): seq<Entry> {
    [Entry(Api(c), p.objects, {}, [], [])] + NegativeJob(p.negatives, filter)
  }

  /** The jobs: the parent class first, with the last item's fields, key `pk` and the request's
      filter; then the group negative keywords. */
  function Jobs(c: ApiClass, p: Pulled, filter: Dict): seq<Entry> {
    [Entry(Api(c), p.objects, p.updated, ["pk"], filter)] + NegativeJob(p.negatives, filter)
  }

  // ---------------------------------------------------------------- queue lemmas

  /** Appending to an entry that exists extends its objects, in order. */
  lemma {:induction false} AppendAllExisting(q: seq<Entry>, t: Table, objs: seq<map<string, Value>>, i: nat)
    requires IndexOf(q, t) == Some(i)
    ensures AppendAll(q, t, objs) == q[i := q[i].(objects := q[i].objects + objs)]
    decreases |objs|
  {
    if objs == [] {
      assert q[i].objects + objs == q[i].objects;
      assert q[i := q[i]] == q;
    } else {
      var init := objs[..|objs| - 1];
      AppendAllExisting(q, t, init, i);
      var q1 := AppendAll(q, t, init);
      assert forall j :: 0 <= j < |q| ==> q1[j].table == q[j].table;
      IndexAt(q1, t, i);
      assert q1[i].objects + [objs[|objs| - 1]] == q[i].objects + objs;
    }
  }

  /** The entry of `t` is the first one whose table is `t`. */
  lemma IndexAt(q: seq<Entry>, t: Table, i: nat)
    requires i < |q| && q[i].table == t && forall j :: 0 <= j < i ==> q[j].table != t
    ensures IndexOf(q, t) == Some(i)
  {
    var r := IndexOf(q, t);
    assert r.Some?;
  }

  /** Appending to the entry last created. */
  lemma AppendToLast(q: seq<Entry>, t: Table, objs: seq<map<string, Value>>, obj: map<string, Value>)
    requires IndexOf(q, t) == None
    ensures Append(q + [Entry(t, objs, {}, [], [])], t, obj) == q + [Entry(t, objs + [obj], {}, [], [])]
  {
    var q1 := q + [Entry(t, objs, {}, [], [])];
    assert forall j :: 0 <= j < |q| ==> q1[j] == q[j];
    IndexAt(q1, t, |q|);
  }

  /** Appending to a table without an entry creates it at the end, holding the objects. */
  lemma {:induction false} AppendAllNew(q: seq<Entry>, t: Table, objs: seq<map<string, Value>>)
    requires IndexOf(q, t) == None && objs != []
    ensures AppendAll(q, t, objs) == q + [Entry(t, objs, {}, [], [])]
    decreases |objs|
  {
    if |objs| == 1 {
      AppendAllSingle(q, t, objs);
    } else {
      AppendAllNew(q, t, objs[..|objs| - 1]);
      AppendAllLast(q, t, objs);
    }
  }

  lemma AppendAllSingle(q: seq<Entry>, t: Table, objs: seq<map<string, Value>>)
    requires IndexOf(q, t) == None && |objs| == 1
    ensures AppendAll(q, t, objs) == q + [Entry(t, objs, {}, [], [])]
  {
    assert objs[..0] == [] && objs == [objs[0]];
  }

  lemma AppendAllLast(q: seq<Entry>, t: Table, objs: seq<map<string, Value>>)
    requires IndexOf(q, t) == None && |objs| > 1
    requires AppendAll(q, t, objs[..|objs| - 1]) == q + [Entry(t, objs[..|objs| - 1], {}, [], [])]
    ensures AppendAll(q, t, objs) == q + [Entry(t, objs, {}, [], [])]
  {
    var init := objs[..|objs| - 1];
    AppendToLast(q, t, init, objs[|objs| - 1]);
    assert init + [objs[|objs| - 1]] == objs;
  }

  /** The parent's entry is the first one of the queue. */
  lemma AppendParent(c: ApiClass, q: seq<Entry>, p: Pulled, filter: Dict, attrs: map<string, Value>)
    requires (q == [] && p.objects == [] && p.negatives == []) || q == Queue(c, p, filter)
    ensures Append(q, Api(c), attrs) == Queue(c, p.(objects := p.objects + [attrs]), filter)
  {
    var p' := p.(objects := p.objects + [attrs]);
    if q == [] {
      assert p'.objects == [attrs] && NegativeJob(p'.negatives, filter) == [];
    } else {
      IndexAt(q, Api(c), 0);
      assert Append(q, Api(c), attrs) == q[0 := q[0].(objects := p'.objects)];
    }
  }

  /** Queuing a group's records, then setting the entry's fields: the records join the negative
      keywords' job, which exists from then on. */
  lemma NegativesOnQueue(c: ApiClass, p: Pulled, filter: Dict, recs: seq<map<string, Value>>)
    requires recs != [] || p.negatives != []
    ensures SetMeta(AppendAll(Queue(c, p, filter), NegativeKeywordTable, recs), NegativeKeywordTable, {"ad_group_id", "text"}, NegativeKeyFields, Prefixed(filter))
         == Ok(Queue(c, p.(negatives := p.negatives + recs), filter))
  {
    var q := Queue(c, p, filter);
    var t := NegativeKeywordTable;
    var q1 := AppendAll(q, t, recs);
    if p.negatives != [] {
      IndexAt(q, t, 1);
      AppendAllExisting(q, t, recs, 1);
    } else {
      assert IndexOf(q, t) == None;
      AppendAllNew(q, t, recs);
      assert p.negatives + recs == recs;
    }
    assert |q1| == 2 && q1[0] == q[0] && q1[1].table == t && q1[1].objects == p.negatives + recs;
    IndexAt(q1, t, 1);
    var job := Entry(t, p.negatives + recs, {"ad_group_id", "text"}, NegativeKeyFields, Prefixed(filter));
    assert q1[1 := q1[1].(fields := {"ad_group_id", "text"}, keyFields := NegativeKeyFields, filter := Prefixed(filter))] == [q[0], job];
    assert SetMeta(q1, t, {"ad_group_id", "text"}, NegativeKeyFields, Prefixed(filter)) == Ok([q[0], job]);
    assert |p.negatives + recs| > 0;
    assert NegativeJob(p.negatives + recs, filter) == [job];
    assert Queue(c, p.(negatives := p.negatives + recs), filter) == [q[0]] + [job] == [q[0], job];
  }

  /** Setting the fields of a negative keywords' entry that was never created fails. */
  lemma NoNegativesOnQueue(c: ApiClass, p: Pulled, filter: Dict)
    requires p.negatives == []
    ensures SetMeta(AppendAll(Queue(c, p, filter), NegativeKeywordTable, []), NegativeKeywordTable, {"ad_group_id", "text"}, NegativeKeyFields, Prefixed(filter))
         == Err(KeyError("GroupNegativeKeyword"))
  {
    assert IndexOf(Queue(c, p, filter), NegativeKeywordTable) == None;
  }

  /** `deserialize_nested` on the queue adds the item's records to the negative keywords' job. */
  lemma NestedOnQueue(nk: string, c: ApiClass, p: Pulled, filter: Dict, d: Decoded, item: Dict)
    ensures NestedAt(nk, c, d, item, filter, Queue(c, p, filter))
         == match NestedRecords(nk, c, d, item, p.negatives)
            case Err(e) => Err(e)
            case Ok(recs) => Ok(Queue(c, p.(negatives := p.negatives + recs), filter))
  {
    assert p.negatives + [] == p.negatives;
    if c == AdGroupClass && Get(item, nk).Ok? && Truthy(Get(item, nk).value) && NegativeTexts(Get(item, nk).value).Ok? {
      var texts := NegativeTexts(Get(item, nk).value).value;
      var recs := NegativeRecords(Attr(d.attrs, "id"), texts);
      if recs != [] || p.negatives != [] {
        NegativesOnQueue(c, p, filter, recs);
      } else {
        NoNegativesOnQueue(c, p, filter);
      }
    }
  }

  // ---------------------------------------------------------------- what sync_response runs

  /** The queue `sync_response` builds is the reference's: the parent entry with the objects in
      order, then the negative keywords' entry exactly when there are any; it fails exactly when
      the reference does, with the same error. */
  lemma {:induction false} FoldReference(nk: string, c: ApiClass, dec: Dict -> Result<Decoded, CodecError>, items: seq<Dict>, filter: Dict)
    ensures Fold(nk, c, dec, items, filter).Ok? <==> Reference(nk, c, dec, items).Ok?
    ensures Fold(nk, c, dec, items, filter).Err? ==> Fold(nk, c, dec, items, filter).error == Reference(nk, c, dec, items).error
    ensures Fold(nk, c, dec, items, filter).Ok? && items != [] ==>
      Fold(nk, c, dec, items, filter).value == (Queue(c, Reference(nk, c, dec, items).value, filter), Reference(nk, c, dec, items).value.updated)
    ensures items == [] ==> Fold(nk, c, dec, items, filter) == Ok(([], {}))
    decreases |items|
  {
    if items != [] {
      var init := items[..|items| - 1];
      var last := items[|items| - 1];
      FoldReference(nk, c, dec, init, filter);
      if Fold(nk, c, dec, init, filter).Ok? && dec(last).Ok? {
        var p := Reference(nk, c, dec, init).value;
        var d := dec(last).value;
        AppendParent(c, Fold(nk, c, dec, init, filter).value.0, p, filter, d.attrs);
        NestedOnQueue(nk, c, p.(objects := p.objects + [d.attrs]), filter, d, last);
      }
    }
  }

  /** `sync_response` runs nothing for empty results; otherwise it fails exactly when the
      reference does, with its error, and else runs the parent class's job and then, when the
      groups carry any, the negative keywords' job. */
  lemma SyncJobsMeaning(c: ApiClass, results: seq<Dict>, filter: Dict)
    ensures results == [] ==> SyncJobs(c, results, filter) == Ok([])
    ensures results != [] ==>
      && (SyncJobs(c, results, filter).Ok? <==> Reference(NegativeKeywordsKey, c, DecoderOf(c), results).Ok?)
      && (SyncJobs(c, results, filter).Err? ==> SyncJobs(c, results, filter).error == Reference(NegativeKeywordsKey, c, DecoderOf(c), results).error)
      && (SyncJobs(c, results, filter).Ok? ==> SyncJobs(c, results, filter).value == Jobs(c, Reference(NegativeKeywordsKey, c, DecoderOf(c), results).value, filter))
  {
    SyncJobsAtMeaning(NegativeKeywordsKey, c, results, filter);
  }

  lemma SyncJobsAtMeaning(nk: string, c: ApiClass, results: seq<Dict>, filter: Dict)
    ensures results == [] ==> SyncJobsAt(nk, c, results, filter) == Ok([])
    ensures results != [] ==>
      && (SyncJobsAt(nk, c, results, filter).Ok? <==> Reference(nk, c, DecoderOf(c), results).Ok?)
      && (SyncJobsAt(nk, c, results, filter).Err? ==> SyncJobsAt(nk, c, results, filter).error == Reference(nk, c, DecoderOf(c), results).error)
      && (SyncJobsAt(nk, c, results, filter).Ok? ==> SyncJobsAt(nk, c, results, filter).value == Jobs(c, Reference(nk, c, DecoderOf(c), results).value, filter))
  {
    FoldReference(nk, c, DecoderOf(c), results, filter);
    if results != [] && Reference(nk, c, DecoderOf(c), results).Ok? {
      ParentFields(c, Reference(nk, c, DecoderOf(c), results).value, filter);
    }
  }

  /** Setting the parent's fields turns the queue into the jobs. */
  lemma ParentFields(c: ApiClass, p: Pulled, filter: Dict)
    ensures SetMeta(Queue(c, p, filter), Api(c), p.updated, ["pk"], filter) == Ok(Jobs(c, p, filter))
  {
    var q := Queue(c, p, filter);
    IndexAt(q, Api(c), 0);
    assert q[0 := q[0].(fields := p.updated, keyFields := ["pk"], filter := filter)] == Jobs(c, p, filter);
  }

  /** The reference holds one object per result, each the result's own `deserialize`, in
      order, and the fields of the last one. */
  lemma {:induction false} ReferenceObjects(nk: string, c: ApiClass, dec: Dict -> Result<Decoded, CodecError>, items: seq<Dict>)
    requires Reference(nk, c, dec, items).Ok?
    ensures var p := Reference(nk, c, dec, items).value;
      && |p.objects| == |items|
      && (forall i :: 0 <= i < |items| ==> dec(items[i]).Ok? && p.objects[i] == dec(items[i]).value.attrs)
      && (items != [] ==> p.updated == dec(items[|items| - 1]).value.updated)
    decreases |items|
  {
    if items != [] {
      var init := items[..|items| - 1];
      ReferenceObjects(nk, c, dec, init);
      assert forall i :: 0 <= i < |init| ==> items[i] == init[i];
    }
  }

  /** For every class but `AdGroup` the results succeed exactly when each one deserializes,
      and there are no negative keywords. */
  lemma {:induction false} OtherClassesReference(nk: string, c: ApiClass, dec: Dict -> Result<Decoded, CodecError>, items: seq<Dict>)
    requires c != AdGroupClass
    ensures Reference(nk, c, dec, items).Ok? <==> forall i :: 0 <= i < |items| ==> dec(items[i]).Ok?
    ensures Reference(nk, c, dec, items).Ok? ==> Reference(nk, c, dec, items).value.negatives == []
    decreases |items|
  {
    if items != [] {
      var init := items[..|items| - 1];
      OtherClassesReference(nk, c, dec, init);
      assert forall i :: 0 <= i < |init| ==> items[i] == init[i];
    }
  }

  /** So for those classes `sync_response` runs exactly one job, holding every result's object
      in order. */
  lemma OtherClassesOneJob(c: ApiClass, results: seq<Dict>, filter: Dict)
    requires c != AdGroupClass && results != []
    ensures SyncJobs(c, results, filter).Ok? <==> forall i :: 0 <= i < |results| ==> DeserializeAs(c, results[i]).Ok?
    ensures SyncJobs(c, results, filter).Ok? ==>
      && |SyncJobs(c, results, filter).value| == 1
      && |SyncJobs(c, results, filter).value[0].objects| == |results|
      && forall i :: 0 <= i < |results| ==> SyncJobs(c, results, filter).value[0].objects[i] == DeserializeAs(c, results[i]).value.attrs
  {
    SyncJobsMeaning(c, results, filter);
    OtherClassesReference(NegativeKeywordsKey, c, DecoderOf(c), results);
    if SyncJobs(c, results, filter).Ok? {
      ReferenceObjects(NegativeKeywordsKey, c, DecoderOf(c), results);
    }
  }

  /** The records of one group are distinct on `(ad_group_id, text)`, as the uniqueness
      constraint of `GroupNegativeKeyword` requires, exactly when its texts are distinct. */
  lemma NegativeRecordsUnique(gid: Value, texts: seq<Value>)
    ensures var r := NegativeRecords(gid, texts);
      (forall i, j :: 0 <= i < j < |r| ==> r[i] != r[j]) <==> (forall i, j :: 0 <= i < j < |texts| ==> texts[i] != texts[j])
  {
    var r := NegativeRecords(gid, texts);
    forall i, j | 0 <= i < j < |r| && r[i] == r[j] ensures texts[i] == texts[j] {
      assert r[i]["text"] == texts[i] && r[j]["text"] == texts[j];
    }
  }

  // ---------------------------------------------------------------- reading the texts

  /** As written, `for kw in data['NegativeKeywords']` iterates the keys of the API's array of
      strings: whatever the texts, the one text read is `Items`. */
  lemma NegativeTextsAsWrittenReadsKey(texts: seq<string>)
    ensures NegativeTextsAsWritten(NegativeItems(texts)) == Ok([Str(ItemsKey)])
  {
    IterValuesArray(ItemsKey, texts);
  }

  lemma IterValuesArray(ik: string, texts: seq<string>)
    ensures IterValues(ItemsOf(ik, texts)) == Ok([Str(ik)])
  {
    var r := IterValues(ItemsOf(ik, texts));
    assert |r.value| == 1 && r.value[0] == Str(ik);
    assert r.value == [Str(ik)];
  }

  /** Reading the `Items` of the array of strings gives back the texts. */
  lemma NegativeTextsReadsItems(texts: seq<string>)
    ensures NegativeTexts(NegativeItems(texts)) == Ok(StrValues(texts))
  {
  }

  /** The round trip: what `AdGroup.serialize` writes under `NegativeKeywords`, the nested
      deserialization reads back as one record per text, in order; a group without texts
      writes no `NegativeKeywords`, which is a KeyError when read back. */
  lemma NegativeKeywordsRoundTrip(s: Dict, regionIds: seq<int>, negatives: seq<string>, d: Decoded, filter: Dict, q: seq<Entry>)
    requires !HasKey(s, RegionIdsKey) && !HasKey(s, NegativeKeywordsKey)
    ensures negatives != [] ==>
      NestedStep(AdGroupClass, d, AdGroupPayload(s, regionIds, negatives), filter, q)
      == SetMeta(AppendAll(q, NegativeKeywordTable, NegativeRecords(Attr(d.attrs, "id"), StrValues(negatives))),
                 NegativeKeywordTable, {"ad_group_id", "text"}, NegativeKeyFields, Prefixed(filter))
    ensures negatives == [] ==>
      NestedStep(AdGroupClass, d, AdGroupPayload(s, regionIds, negatives), filter, q) == Err(KeyError(NegativeKeywordsKey))
  {
    RegionIdsKeyName();
    NegativeKeywordsKeyName();
    AdGroupPayloadLookups(s, regionIds, negatives, RegionIdsKey, NegativeKeywordsKey);
    NegativeTextsReadsItems(negatives);
  }
}
