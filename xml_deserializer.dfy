/** `XML_Deserializer`: one page of Yandex XML search results, as `xmltodict` parses it, turned
    into the request row and the groups, documents and passages saved for it. Groups of one
    registered domain are merged first; the new objects get ids from counters that start after
    the store's latest ids. */
module XmlDeserializer {
  import opened Wrappers
  import opened Strings
  import opened InitDicts

  // ---------------------------------------------------------------- parsed XML

  /** A value of the parsed XML: nothing, text, a list of repeated elements, or an element's
      attributes (`@name`) and children by name, in document order. */
  datatype Xml = Null | Text(s: string) | Items(items: seq<Xml>) | Node(fields: seq<(string, Xml)>)

  /** The exceptions reading the parsed XML raises. */
  datatype XmlError = KeyError(key: string) | IndexError | TypeError | AttributeError | ValueError

  /** Python's falsy values among parsed XML. */
  predicate Falsy(x: Xml) {
    x == Null || x == Text("") || x == Items([]) || x == Node([])
  }

  /** `guaranteed_list`: a single element where a list may stand becomes a list of one. */
  function GuaranteedList(x: Xml): seq<Xml> {
    if Falsy(x) then [] else if x.Items? then x.items else [x]
  }

  /** A falsy value gives no elements, a list is kept as it is, anything else is the only
      element; a list it gave back is kept as it is. */
  lemma GuaranteedListMeaning(x: Xml)
    ensures GuaranteedList(x) == [] <==> Falsy(x)
    ensures x.Items? ==> GuaranteedList(x) == x.items
    ensures !x.Items? && !Falsy(x) ==> GuaranteedList(x) == [x]
    ensures GuaranteedList(Items(GuaranteedList(x))) == GuaranteedList(x)
  {
  }

  /** `x[k]`: a missing child is a `KeyError`, indexing anything but an element a `TypeError`. */
  function Field(x: Xml, k: string): Result<Xml, XmlError> {
    match x
    case Node(fs) => if Find(fs, k).Some? then Ok(Find(fs, k).value) else Err(KeyError(k))
    case _ => Err(TypeError)
  }

  /** `k in x`: a child of an element, a substring of text, an element of a list. */
  function Has(x: Xml, k: string): Result<bool, XmlError> {
    match x
    case Node(fs) => Ok(Find(fs, k).Some?)
    case Text(s) => Ok(Contains(s, k))
    case Items(xs) => Ok(Text(k) in xs)
    case Null => Err(TypeError)
  }

  /** `x.get(k, default)`, which only an element has. */
  function GetOr(x: Xml, k: string, default: Xml): Result<Xml, XmlError> {
    match x
    case Node(fs) => Ok(Find(fs, k).GetOr(default))
    case _ => Err(AttributeError)
  }

  /** `x[0]`. */
  function First(x: Xml): Result<Xml, XmlError> {
    match x
    case Items(xs) => if xs == [] then Err(IndexError) else Ok(xs[0])
    case Text(s) => if s == "" then Err(IndexError) else Ok(Text([s[0]]))
    case Node(_) => Err(KeyError("0"))
    case Null => Err(TypeError)
  }

  /** `int(x)`. */
  function ToInt(x: Xml): Result<int, XmlError> {
    match x
    case Text(s) => if ParseInt(s).Some? then Ok(ParseInt(s).value) else Err(ValueError)
    case _ => Err(TypeError)
  }

  // ---------------------------------------------------------------- join_groups

  /** A result group reduced to what `join_groups` makes of it: its registered domain and its
      documents. */
  datatype Joined = Joined(domain: string, docs: seq<Xml>)

  /** `tldextract.extract`: the subdomain, the domain and the public suffix of a host name. */
  type Extract = string -> (string, string, string)

  /** One group as the loop of `join_groups` reads it: its documents as a list, and the
      domain plus suffix of its first document's domain. */
  function NormalizeGroup(g: Xml, extract: Extract): Result<Joined, XmlError> {
    var d :- Field(g, "doc");
    var docs := GuaranteedList(d);
    if docs == [] then Err(IndexError)
    else
      var host :- Field(docs[0], "domain");
      if !host.Text? then Err(TypeError)
      else
        var parts := extract(host.s);
        Ok(Joined(parts.1 + "." + parts.2, docs))
  }

  /** All groups read in order; the first failure stops it. */
  function NormalizeAll(gs: seq<Xml>, extract: Extract): Result<seq<Joined>, XmlError> {
    if gs == [] then Ok([])
    else
      var init :- NormalizeAll(gs[..|gs| - 1], extract);
      var g :- NormalizeGroup(gs[|gs| - 1], extract);
      Ok(init + [g])
  }

  function Domains(gs: seq<Joined>): (ds: seq<string>)
    ensures |ds| == |gs| && forall i :: 0 <= i < |gs| ==> ds[i] == gs[i].domain
  {
    seq(|gs|, i requires 0 <= i < |gs| => gs[i].domain)
  }

  /** The distinct names in the order they first appear. */
  function FirstSeen(ds: seq<string>): seq<string> {
    if ds == [] then []
    else
      var r := FirstSeen(ds[..|ds| - 1]);
      if ds[|ds| - 1] in r then r else r + [ds[|ds| - 1]]
  }

  /** Where a name first appears. */
  function FirstIndex(ds: seq<string>, d: string): (i: nat)
    requires d in ds
    ensures i < |ds| && ds[i] == d && forall j :: 0 <= j < i ==> ds[j] != d
  {
    if d in ds[..|ds| - 1] then FirstIndex(ds[..|ds| - 1], d) else |ds| - 1
  }

  /** The documents of all groups of the domain `d`, in order. */
  function DocsOf(gs: seq<Joined>, d: string): seq<Xml> {
    if gs == [] then []
    else DocsOf(gs[..|gs| - 1], d) + (if gs[|gs| - 1].domain == d then gs[|gs| - 1].docs else [])
  }

  /** What `join_groups` returns: one group per domain, in the order the domains first
      appear, holding the documents of all groups of that domain in order. */
  function JoinSpec(gs: seq<Joined>): seq<Joined> {
    var f := FirstSeen(Domains(gs));
    seq(|f|, i requires 0 <= i < |f| => Joined(f[i], DocsOf(gs, f[i])))
  }

  /** `join_groups`. */
  function JoinAll(gs: seq<Xml>, extract: Extract): Result<seq<Joined>, XmlError> {
    var ngs :- NormalizeAll(gs, extract);
    Ok(JoinSpec(ngs))
  }

  /** The names first seen are distinct, are exactly the names there are, and keep the order
      of their first appearance. */
  lemma {:induction false} FirstSeenMeaning(ds: seq<string>)
    ensures var r := FirstSeen(ds);
      && (forall i, j :: 0 <= i < j < |r| ==> r[i] != r[j])
      && (forall d :: d in r <==> d in ds)
      && (forall i, j :: 0 <= i < j < |r| ==> FirstIndex(ds, r[i]) < FirstIndex(ds, r[j]))
  {
    if ds != [] {
      var init := ds[..|ds| - 1];
      FirstSeenMeaning(init);
      assert forall d :: d in ds <==> d in init || d == ds[|ds| - 1];
      var r := FirstSeen(ds);
      forall i | 0 <= i < |FirstSeen(init)| ensures FirstIndex(ds, FirstSeen(init)[i]) == FirstIndex(init, FirstSeen(init)[i]) {
      }
      if ds[|ds| - 1] !in FirstSeen(init) {
        forall i | 0 <= i < |r| - 1 ensures FirstIndex(ds, r[i]) < FirstIndex(ds, r[|r| - 1]) {
          assert r[i] == FirstSeen(init)[i];
          assert r[i] in init;
        }
      }
    }
  }

  /** With no group of the domain there are no documents of it. */
  lemma {:induction false} DocsOfAbsent(gs: seq<Joined>, d: string)
    requires d !in Domains(gs)
    ensures DocsOf(gs, d) == []
  {
    if gs != [] {
      assert Domains(gs[..|gs| - 1]) == Domains(gs)[..|gs| - 1];
      DocsOfAbsent(gs[..|gs| - 1], d);
    }
  }

  /** How many documents some groups hold. */
  function DocCount(gs: seq<Joined>): nat {
    if gs == [] then 0 else DocCount(gs[..|gs| - 1]) + |gs[|gs| - 1].docs|
  }

  /** How many documents the groups hold for some distinct domains. */
  function CountOver(gs: seq<Joined>, f: seq<string>): nat {
    if f == [] then 0 else CountOver(gs, f[..|f| - 1]) + |DocsOf(gs, f[|f| - 1])|
  }

  lemma {:induction false} CountOverSnoc(gs: seq<Joined>, g: Joined, f: seq<string>)
    requires forall i, j :: 0 <= i < j < |f| ==> f[i] != f[j]
    ensures CountOver(gs + [g], f) == CountOver(gs, f) + if g.domain in f then |g.docs| else 0
  {
    if f != [] {
      var init := f[..|f| - 1];
      CountOverSnoc(gs, g, init);
      assert (gs + [g])[..|gs|] == gs;
      assert g.domain in f <==> g.domain in init || g.domain == f[|f| - 1];
      assert g.domain == f[|f| - 1] ==> g.domain !in init;
    }
  }

  lemma {:induction false} CountJoined(gs: seq<Joined>, f: seq<string>)
    ensures DocCount(seq(|f|, i requires 0 <= i < |f| => Joined(f[i], DocsOf(gs, f[i])))) == CountOver(gs, f)
  {
    if f != [] {
      var init := f[..|f| - 1];
      CountJoined(gs, init);
      var js := seq(|f|, i requires 0 <= i < |f| => Joined(f[i], DocsOf(gs, f[i])));
      assert js[..|f| - 1] == seq(|init|, i requires 0 <= i < |init| => Joined(init[i], DocsOf(gs, init[i])));
    }
  }

  /** Merging keeps every document: as many as all groups held. */
  lemma {:induction false} JoinKeepsDocs(gs: seq<Joined>)
    ensures DocCount(JoinSpec(gs)) == DocCount(gs)
  {
    CountJoined(gs, FirstSeen(Domains(gs)));
    JoinCount(gs);
  }

  lemma {:induction false} JoinCount(gs: seq<Joined>)
    ensures CountOver(gs, FirstSeen(Domains(gs))) == DocCount(gs)
  {
    if gs != [] {
      var init := gs[..|gs| - 1];
      var g := gs[|gs| - 1];
      var f := FirstSeen(Domains(init));
      assert gs == init + [g];
      JoinCount(init);
      FirstSeenMeaning(Domains(init));
      CountOverSnoc(init, g, f);
      JoinStep(init, g);
      assert DocCount(gs) == DocCount(init) + |g.docs|;
      if g.domain in f {
        assert FirstSeen(Domains(gs)) == f;
      } else {
        DocsOfAbsent(init, g.domain);
        var f' := f + [g.domain];
        assert FirstSeen(Domains(gs)) == f';
        assert f'[..|f|] == f;
        assert CountOver(gs, f') == CountOver(gs, f) + |DocsOf(gs, g.domain)|;
        assert DocsOf(gs, g.domain) == g.docs;
      }
    }
  }

  /** The step `join_groups` takes per group: a group of a domain seen before adds its
      documents to the end of that domain's group and changes nothing else; a group of a new
      domain becomes the last group. */
  lemma JoinStep(gs: seq<Joined>, g: Joined)
    ensures var f := FirstSeen(Domains(gs));
      && (g.domain in f ==> FirstSeen(Domains(gs + [g])) == f)
      && (g.domain !in f ==> FirstSeen(Domains(gs + [g])) == f + [g.domain])
      && (forall d :: DocsOf(gs + [g], d) == DocsOf(gs, d) + if d == g.domain then g.docs else [])
  {
    assert Domains(gs + [g])[..|gs|] == Domains(gs);
    assert (gs + [g])[..|gs|] == gs;
  }

  /** A failure among the first `k` groups is the failure of all of them. */
  lemma {:induction false} NormalizeStops(gs: seq<Xml>, extract: Extract, k: nat)
    requires k <= |gs| && NormalizeAll(gs[..k], extract).Err?
    ensures NormalizeAll(gs, extract) == NormalizeAll(gs[..k], extract)
    decreases |gs| - k
  {
    if k < |gs| {
      assert gs[..k + 1][..k] == gs[..k];
      NormalizeStops(gs, extract, k + 1);
    } else {
      assert gs[..k] == gs;
    }
  }

  // ---------------------------------------------------------------- the response, read

  /** A document's data as `deserialize_doc` reads it: the arguments a `Doc` has fields for,
      the Yandex document id, the language and passage type of its properties, and its
      passages. */
  datatype DocData = DocData(init: seq<(string, Xml)>, yaDocId: Xml, lang: Xml, passagesType: Xml, passages: seq<Xml>)

  /** A merged group's domain and its documents' data. */
  datatype GroupData = GroupData(domain: string, docs: seq<DocData>)

  /** The request row's key: the query text and the region. */
  datatype RequestKey = RequestKey(query: string, regionId: Option<int>)

  /** What the response says: the request, the number of documents found, the page and the
      merged groups. */
  datatype Page = Page(key: RequestKey, found: int, page: int, groups: seq<GroupData>)

  /** The names `Doc._meta.get_fields()` gives: its columns and the reverse relation of
      `Passage.doc`. */
  const DocFields: set<string> := {"id", "ya_doc_id", "position", "url", "domain", "title", "headline",
    "modtime", "size", "charset", "passages_type", "lang", "mime_type", "saved_copy_url", "group", "passage"}

  /** `deserialize_doc`'s reading of one document: `Doc(**init_dict, id=...)` needs a mapping
      without an `id` of its own; `@id` and `properties` must be there, and `passages`, when
      there, must have a `passage`. */
  function ParseDoc(x: Xml): Result<DocData, XmlError> {
    if !x.Node? then Err(TypeError)
    else
      var init := ValidInitDict(DocFields, x.fields);
      if Find(init, "id").Some? then Err(TypeError)
      else
        var ya :- Field(x, "@id");
        var props :- Field(x, "properties");
        var lang :- GetOr(props, "lang", Text(""));
        var kind :- GetOr(props, "_PassagesType", Text(""));
        var has :- Has(x, "passages");
        if has then
          var ps :- Field(x, "passages");
          var p :- Field(ps, "passage");
          Ok(DocData(init, ya, lang, kind, GuaranteedList(p)))
        else Ok(DocData(init, ya, lang, kind, []))
  }

  /** The documents of a group read in order; the first failure stops it. */
  function ParseDocs(ds: seq<Xml>): Result<seq<DocData>, XmlError> {
    if ds == [] then Ok([])
    else
      var init :- ParseDocs(ds[..|ds| - 1]);
      var d :- ParseDoc(ds[|ds| - 1]);
      Ok(init + [d])
  }

  /** The merged groups read in order; `deserialize_group` takes `guaranteed_list` of the
      merged document list, which is that list. */
  function ParseGroups(js: seq<Joined>): Result<seq<GroupData>, XmlError> {
    if js == [] then Ok([])
    else
      var init :- ParseGroups(js[..|js| - 1]);
      var docs :- ParseDocs(GuaranteedList(Items(js[|js| - 1].docs)));
      Ok(init + [GroupData(js[|js| - 1].domain, docs)])
  }

  /** The number found: the text of the first `found`, which saving the row turns into an
      integer. */
  function FoundText(resp: Xml): Result<Xml, XmlError> {
    var f :- Field(resp, "found");
    var f0 :- First(f);
    Field(f0, "#text")
  }

  /** `deserialize_request`'s reading of the response, in the order the source reads it: the
      request's query, whether anything was found and the number found, the page, the row's
      save, then the groups. */
  function ParseResponse(x: Xml, regionId: Option<int>, extract: Extract): Result<Page, XmlError> {
    var data :- Field(x, "request");
    var q :- Field(data, "query");
    if !q.Text? then Err(TypeError)
    else
      var resp :- Field(x, "response");
      var has :- Has(resp, "found");
      var text :- if has then FoundText(resp) else Ok(Null);
      var p :- Field(data, "page");
      var page :- ToInt(p);
      var found :- if has then ToInt(text) else Ok(0);
      if has then
        var results :- Field(resp, "results");
        var grouping :- Field(results, "grouping");
        var group :- Field(grouping, "group");
        var joined :- JoinAll(GuaranteedList(group), extract);
        var groups :- ParseGroups(joined);
        Ok(Page(RequestKey(q.s, regionId), found, page, groups))
      else Ok(Page(RequestKey(q.s, regionId), found, page, []))
  }

  /** A response that found nothing has no groups and a count of 0. */
  lemma NothingFound(x: Xml, regionId: Option<int>, extract: Extract)
    requires Field(x, "response").Ok? && Has(Field(x, "response").value, "found") == Ok(false)
    ensures ParseResponse(x, regionId, extract).Ok? ==>
      ParseResponse(x, regionId, extract).value.found == 0 && ParseResponse(x, regionId, extract).value.groups == []
  {
  }

  /** `max(r.last_page or 0, page)`. */
  function LastPage(stored: Option<int>, page: int): int {
    var before := stored.GetOr(0);
    if before >= page then before else page
  }

  /** The last page never goes back: it is the page read or the stored one, whichever is
      later. */
  lemma LastPageMonotone(stored: Option<int>, page: int)
    ensures LastPage(stored, page) >= page && LastPage(stored, page) >= stored.GetOr(0)
    ensures LastPage(stored, page) == page || LastPage(stored, page) == stored.GetOr(0)
  {
  }

  /** The largest position of the request's stored groups, or 0 when it has none. */
  function LastPosition(positions: seq<int>): (m: int)
    ensures positions == [] ==> m == 0
    ensures positions != [] ==> m in positions
    ensures forall p :: p in positions ==> p <= m
  {
    if positions == [] then 0
    else
      var init := positions[..|positions| - 1];
      var m := LastPosition(init);
      assert positions == init + [positions[|positions| - 1]];
      if positions[|positions| - 1] > m || init == [] then positions[|positions| - 1] else m
  }

  // ---------------------------------------------------------------- the objects created

  datatype Group = Group(id: int, domain: string, position: int, request: Option<RequestKey>)

  datatype Doc = Doc(id: int, group: Option<int>, init: seq<(string, Xml)>, yaDocId: Xml, lang: Xml,
                     passagesType: Xml, position: int)

  datatype Passage = Passage(id: int, text: Xml, position: int, doc: int)

  /** The row of the request. */
  datatype Request = Request(key: RequestKey, found: int, lastPage: int)

  /** The passages of a document, numbered from `first` in order. */
  function PassagesOf(d: DocData, doc: int, first: int): (ps: seq<Passage>)
    ensures |ps| == |d.passages|
  {
    seq(|d.passages|, j requires 0 <= j < |d.passages| => Passage(first + j, d.passages[j], j, doc))
  }

  function PassageCount(ds: seq<DocData>): nat {
    if ds == [] then 0 else PassageCount(ds[..|ds| - 1]) + |ds[|ds| - 1].passages|
  }

  function MakeDoc(d: DocData, group: Option<int>, id: int, position: int): Doc {
    Doc(id, group, d.init, d.yaDocId, d.lang, d.passagesType, position)
  }

  /** The documents of a group, numbered from `firstDoc`, each at its index in the group. */
  function DocsBuilt(ds: seq<DocData>, group: int, firstDoc: int): (r: seq<Doc>)
    ensures |r| == |ds|
  {
    if ds == [] then []
    else DocsBuilt(ds[..|ds| - 1], group, firstDoc) + [MakeDoc(ds[|ds| - 1], Some(group), firstDoc + |ds| - 1, |ds| - 1)]
  }

  /** The passages of a group's documents, the documents numbered from `firstDoc` and the
      passages from `firstPassage`. */
  function PassagesBuilt(ds: seq<DocData>, firstDoc: int, firstPassage: int): seq<Passage> {
    if ds == [] then []
    else
      var init := ds[..|ds| - 1];
      PassagesBuilt(init, firstDoc, firstPassage) + PassagesOf(ds[|ds| - 1], firstDoc + |init|, firstPassage + PassageCount(init))
  }

  function GroupsDocCount(gs: seq<GroupData>): nat {
    if gs == [] then 0 else GroupsDocCount(gs[..|gs| - 1]) + |gs[|gs| - 1].docs|
  }

  function GroupsPassageCount(gs: seq<GroupData>): nat {
    if gs == [] then 0 else GroupsPassageCount(gs[..|gs| - 1]) + PassageCount(gs[|gs| - 1].docs)
  }

  /** The groups of a page, numbered from `firstGroup` and placed after `lastPosition`. */
  function GroupsBuilt(gs: seq<GroupData>, firstGroup: int, lastPosition: int, key: RequestKey): (r: seq<Group>)
    ensures |r| == |gs|
  {
    if gs == [] then []
    else
      var n := |gs| - 1;
      GroupsBuilt(gs[..n], firstGroup, lastPosition, key) + [Group(firstGroup + n, gs[n].domain, lastPosition + 1 + n, Some(key))]
  }

  /** The documents of all groups of a page. */
  function AllDocs(gs: seq<GroupData>, firstGroup: int, firstDoc: int): seq<Doc> {
    if gs == [] then []
    else
      var init := gs[..|gs| - 1];
      AllDocs(init, firstGroup, firstDoc) + DocsBuilt(gs[|gs| - 1].docs, firstGroup + |init|, firstDoc + GroupsDocCount(init))
  }

  /** The passages of all groups of a page. */
  function AllPassages(gs: seq<GroupData>, firstDoc: int, firstPassage: int): seq<Passage> {
    if gs == [] then []
    else
      var init := gs[..|gs| - 1];
      AllPassages(init, firstDoc, firstPassage)
        + PassagesBuilt(gs[|gs| - 1].docs, firstDoc + GroupsDocCount(init), firstPassage + GroupsPassageCount(init))
  }

  /** `_init_ids`: one after the latest id in the store, or 0 when there is none. */
  function NextId(latest: Option<int>): int {
    if latest.Some? then latest.value + 1 else 0
  }

  // ---------------------------------------------------------------- numbering

  /** The `i`-th document of a group is numbered `firstDoc + i`, sits at position `i` and
      belongs to the group. */
  lemma {:induction false} DocsBuiltAt(ds: seq<DocData>, group: int, firstDoc: int)
    ensures forall i :: 0 <= i < |ds| ==> DocsBuilt(ds, group, firstDoc)[i] == MakeDoc(ds[i], Some(group), firstDoc + i, i)
  {
    if ds != [] {
      var init := ds[..|ds| - 1];
      DocsBuiltAt(init, group, firstDoc);
      assert forall i :: 0 <= i < |init| ==> init[i] == ds[i];
    }
  }

  /** A passage is one of the passages of the documents `ds`, numbered from `firstDoc`, at
      its index there. */
  predicate InDoc(ds: seq<DocData>, firstDoc: int, p: Passage) {
    && firstDoc <= p.doc < firstDoc + |ds|
    && 0 <= p.position < |ds[p.doc - firstDoc].passages|
    && p.text == ds[p.doc - firstDoc].passages[p.position]
  }

  /** The passages of a group's documents are numbered from `firstPassage` in order, one per
      passage; each belongs to one of the group's documents and sits at its index there. */
  lemma {:induction false} PassagesBuiltMeaning(ds: seq<DocData>, firstDoc: int, firstPassage: int)
    ensures var ps := PassagesBuilt(ds, firstDoc, firstPassage);
      && |ps| == PassageCount(ds)
      && (forall k :: 0 <= k < |ps| ==> ps[k].id == firstPassage + k)
      && (forall p :: p in ps ==> InDoc(ds, firstDoc, p))
  {
    if ds != [] {
      var init := ds[..|ds| - 1];
      PassagesBuiltMeaning(init, firstDoc, firstPassage);
      var before := PassagesBuilt(init, firstDoc, firstPassage);
      var last := PassagesOf(ds[|ds| - 1], firstDoc + |init|, firstPassage + PassageCount(init));
      var ps := before + last;
      assert forall i :: 0 <= i < |init| ==> init[i] == ds[i];
      forall p | p in ps ensures InDoc(ds, firstDoc, p) {
        if p !in before {
          var j :| 0 <= j < |last| && last[j] == p;
        }
      }
      forall k | 0 <= k < |ps| ensures ps[k].id == firstPassage + k {
        if k >= |before| {
          assert ps[k] == last[k - |before|];
        }
      }
    }
  }

  /** The groups of a page are numbered from `firstGroup` and placed one after another after
      `lastPosition`. */
  lemma {:induction false} GroupsBuiltAt(gs: seq<GroupData>, firstGroup: int, lastPosition: int, key: RequestKey)
    ensures forall i :: 0 <= i < |gs| ==>
      GroupsBuilt(gs, firstGroup, lastPosition, key)[i] == Group(firstGroup + i, gs[i].domain, lastPosition + 1 + i, Some(key))
  {
    if gs != [] {
      var init := gs[..|gs| - 1];
      GroupsBuiltAt(init, firstGroup, lastPosition, key);
      assert forall i :: 0 <= i < |init| ==> init[i] == gs[i];
    }
  }

  /** The new groups of a request come after every group it has: their positions are above
      the stored ones, one apart and in order, so no two groups of the request share one. */
  lemma NewPositionsFresh(gs: seq<GroupData>, firstGroup: int, stored: seq<int>, key: RequestKey)
    ensures var r := GroupsBuilt(gs, firstGroup, LastPosition(stored), key);
      && (forall i, p :: 0 <= i < |r| && p in stored ==> r[i].position > p)
      && (forall i, j :: 0 <= i < j < |r| ==> r[i].position < r[j].position)
      && (forall i :: 0 <= i < |r| ==> r[i].id == firstGroup + i && r[i].domain == gs[i].domain)
  {
    GroupsBuiltAt(gs, firstGroup, LastPosition(stored), key);
  }

  /** The documents of a page are numbered from `firstDoc` in order, one per document, and
      each belongs to one of the page's groups. */
  lemma {:induction false} AllDocsMeaning(gs: seq<GroupData>, firstGroup: int, firstDoc: int)
    ensures var ds := AllDocs(gs, firstGroup, firstDoc);
      && |ds| == GroupsDocCount(gs)
      && (forall k :: 0 <= k < |ds| ==> ds[k].id == firstDoc + k)
      && (forall d :: d in ds ==> d.group.Some? && firstGroup <= d.group.value < firstGroup + |gs|)
  {
    if gs != [] {
      var init := gs[..|gs| - 1];
      AllDocsMeaning(init, firstGroup, firstDoc);
      AllDocsSnoc(gs, firstGroup, firstDoc);
      var before := AllDocs(init, firstGroup, firstDoc);
      var last := DocsBuilt(gs[|gs| - 1].docs, firstGroup + |init|, firstDoc + GroupsDocCount(init));
      DocsBuiltAt(gs[|gs| - 1].docs, firstGroup + |init|, firstDoc + GroupsDocCount(init));
      var ds := before + last;
      forall k | 0 <= k < |ds| ensures ds[k].id == firstDoc + k {
        if k >= |before| {
          assert ds[k] == last[k - |before|];
        }
      }
      forall d | d in ds ensures d.group.Some? && firstGroup <= d.group.value < firstGroup + |gs| {
        if d !in before {
          var j :| 0 <= j < |last| && last[j] == d;
        }
      }
    }
  }

  /** The passages of a page are numbered from `firstPassage` in order, one per passage, and
      each belongs to one of the page's documents. */
  lemma {:induction false} AllPassagesMeaning(gs: seq<GroupData>, firstDoc: int, firstPassage: int)
    ensures var ps := AllPassages(gs, firstDoc, firstPassage);
      && |ps| == GroupsPassageCount(gs)
      && (forall k :: 0 <= k < |ps| ==> ps[k].id == firstPassage + k)
      && (forall p :: p in ps ==> firstDoc <= p.doc < firstDoc + GroupsDocCount(gs))
  {
    if gs != [] {
      var init := gs[..|gs| - 1];
      AllPassagesMeaning(init, firstDoc, firstPassage);
      AllPassagesSnoc(gs, firstDoc, firstPassage);
      var before := AllPassages(init, firstDoc, firstPassage);
      var last := PassagesBuilt(gs[|gs| - 1].docs, firstDoc + GroupsDocCount(init), firstPassage + GroupsPassageCount(init));
      PassagesBuiltMeaning(gs[|gs| - 1].docs, firstDoc + GroupsDocCount(init), firstPassage + GroupsPassageCount(init));
      var ps := before + last;
      forall k | 0 <= k < |ps| ensures ps[k].id == firstPassage + k {
        if k >= |before| {
          assert ps[k] == last[k - |before|];
        }
      }
      forall p | p in ps ensures firstDoc <= p.doc < firstDoc + GroupsDocCount(gs) {
        if p !in before {
          assert p in last;
        }
      }
    }
  }

  /** Ids handed out in increasing order, all below the counter. */
  predicate Numbered(ids: seq<int>, next: int) {
    (forall i, j :: 0 <= i < j < |ids| ==> ids[i] < ids[j]) && forall i :: 0 <= i < |ids| ==> ids[i] < next
  }

  /** Ids taken from the counter one after another keep the numbering. */
  lemma NumberedAppend(a: seq<int>, b: seq<int>, next: int)
    requires Numbered(a, next)
    requires forall k :: 0 <= k < |b| ==> b[k] == next + k
    ensures Numbered(a + b, next + |b|)
  {
    var c := a + b;
    forall i, j | 0 <= i < j < |c| ensures c[i] < c[j] {
      if j >= |a| {
        assert c[j] == b[j - |a|];
        if i >= |a| {
          assert c[i] == b[i - |a|];
        }
      }
    }
    forall i | 0 <= i < |c| ensures c[i] < next + |b| {
      if i >= |a| {
        assert c[i] == b[i - |a|];
      }
    }
  }

  function GroupIds(gs: seq<Group>): (ids: seq<int>)
    ensures |ids| == |gs| && forall i :: 0 <= i < |gs| ==> ids[i] == gs[i].id
  {
    seq(|gs|, i requires 0 <= i < |gs| => gs[i].id)
  }

  function DocIds(ds: seq<Doc>): (ids: seq<int>)
    ensures |ids| == |ds| && forall i :: 0 <= i < |ds| ==> ids[i] == ds[i].id
  {
    seq(|ds|, i requires 0 <= i < |ds| => ds[i].id)
  }

  function PassageIds(ps: seq<Passage>): (ids: seq<int>)
    ensures |ids| == |ps| && forall i :: 0 <= i < |ps| ==> ids[i] == ps[i].id
  {
    seq(|ps|, i requires 0 <= i < |ps| => ps[i].id)
  }

  /** The `OrderedDict` of `join_groups` after the groups `read`: its keys in insertion
      order and their document lists. */
  ghost predicate JoinState(read: seq<Joined>, order: seq<string>, table: map<string, seq<Xml>>) {
    && order == FirstSeen(Domains(read))
    && table.Keys == (set d | d in order)
    && forall d :: d in table ==> table[d] == DocsOf(read, d)
  }

  lemma JoinStateStep(read: seq<Joined>, j: Joined, order: seq<string>, table: map<string, seq<Xml>>)
    requires JoinState(read, order, table)
    ensures j.domain in table ==> JoinState(read + [j], order, table[j.domain := table[j.domain] + j.docs])
    ensures j.domain !in table ==> JoinState(read + [j], order + [j.domain], table[j.domain := j.docs])
  {
    JoinStep(read, j);
    if j.domain !in table {
      FirstSeenMeaning(Domains(read));
      DocsOfAbsent(read, j.domain);
    }
  }

  lemma JoinStateResult(read: seq<Joined>, order: seq<string>, table: map<string, seq<Xml>>)
    requires JoinState(read, order, table)
    ensures seq(|order|, k requires 0 <= k < |order| => Joined(order[k], table[order[k]])) == JoinSpec(read)
  {
  }

  // ---------------------------------------------------------------- the deserializer

  /** The deserializer's id counters and the objects it has built for `bulk_create`. */
  class Deserializer {
    var groupId: int
    var docId: int
    var passageId: int
    var groups: seq<Group>
    var docs: seq<Doc>
    var passages: seq<Passage>

    /** Every object built has an id taken from its counter, in increasing order. */
    ghost predicate Valid()
      reads this
    {
      Numbered(GroupIds(groups), groupId) && Numbered(DocIds(docs), docId) && Numbered(PassageIds(passages), passageId)
    }

    /** `_init_ids` and the empty lists: `latestGroup`, `latestDoc` and `lastPassage` are the
        ids of the store's latest objects, if any. */
    constructor (latestGroup: Option<int>, latestDoc: Option<int>, lastPassage: Option<int>)
      ensures groupId == NextId(latestGroup) && docId == NextId(latestDoc) && passageId == NextId(lastPassage)
      ensures groups == [] && docs == [] && passages == []
      ensures Valid()
    {
      groupId := NextId(latestGroup);
      docId := NextId(latestDoc);
      passageId := NextId(lastPassage);
      groups := [];
      docs := [];
      passages := [];
    }

    /** `join_groups`: merges the groups of one registered domain into the first of them. */
    method JoinGroups(gs: seq<Xml>, extract: Extract) returns (r: Result<seq<Joined>, XmlError>)
      ensures r == JoinAll(gs, extract)
    {
      ghost var read: seq<Joined> := [];
      var order: seq<string> := [];
      var table: map<string, seq<Xml>> := map[];
      var i := 0;
      while i < |gs|
        invariant 0 <= i <= |gs|
        invariant NormalizeAll(gs[..i], extract) == Ok(read)
        invariant JoinState(read, order, table)
      {
        assert gs[..i + 1][..i] == gs[..i];
        var g := NormalizeGroup(gs[i], extract);
        if g.Err? {
          NormalizeStops(gs, extract, i + 1);
          return Err(g.error);
        }
        var j := g.value;
        JoinStateStep(read, j, order, table);
        if j.domain in table {
          table := table[j.domain := table[j.domain] + j.docs];
        } else {
          order := order + [j.domain];
          table := table[j.domain := j.docs];
        }
        read := read + [j];
        i := i + 1;
      }
      assert gs[..|gs|] == gs;
      JoinStateResult(read, order, table);
      r := Ok(seq(|order|, k requires 0 <= k < |order| => Joined(order[k], table[order[k]])));
    }

    /** `deserialize_doc`: the document numbered from the doc counter and its passages from the
        passage counter, each passage at its index. */
    method DeserializeDoc(data: DocData, position: int) returns (d: Doc)
      modifies this
      ensures d == MakeDoc(data, None, old(docId), position)
      ensures docId == old(docId) + 1
      ensures passages == old(passages) + PassagesOf(data, old(docId), old(passageId))
      ensures passageId == old(passageId) + |data.passages|
      ensures groupId == old(groupId) && groups == old(groups) && docs == old(docs)
    {
      d := MakeDoc(data, None, docId, position);
      docId := docId + 1;
      var i := 0;
      while i < |data.passages|
        invariant 0 <= i <= |data.passages|
        invariant passages == old(passages) + PassagesOf(data, d.id, old(passageId))[..i]
        invariant passageId == old(passageId) + i
        invariant docId == old(docId) + 1 && groupId == old(groupId) && groups == old(groups) && docs == old(docs)
      {
        assert PassagesOf(data, d.id, old(passageId))[..i + 1] == PassagesOf(data, d.id, old(passageId))[..i] + [Passage(passageId, data.passages[i], i, d.id)];
        passages := passages + [Passage(passageId, data.passages[i], i, d.id)];
        passageId := passageId + 1;
        i := i + 1;
      }
      assert PassagesOf(data, d.id, old(passageId))[..|data.passages|] == PassagesOf(data, d.id, old(passageId));
    }

    /** `deserialize_group`: the group numbered from the group counter at `position`, its
        documents built at their indexes and attached to it. */
    method DeserializeGroup(data: GroupData, position: int) returns (g: Group)
      modifies this
      ensures g == Group(old(groupId), data.domain, position, None)
      ensures groupId == old(groupId) + 1 && groups == old(groups)
      ensures docs == old(docs) + DocsBuilt(data.docs, old(groupId), old(docId))
      ensures docId == old(docId) + |data.docs|
      ensures passages == old(passages) + PassagesBuilt(data.docs, old(docId), old(passageId))
      ensures passageId == old(passageId) + PassageCount(data.docs)
    {
      g := Group(groupId, data.domain, position, None);
      groupId := groupId + 1;
      var i := 0;
      while i < |data.docs|
        invariant 0 <= i <= |data.docs|
        invariant groupId == old(groupId) + 1 && groups == old(groups)
        invariant GroupState(data.docs, i, g.id, old(docId), old(passageId), old(docs), old(passages), docs, docId, passages, passageId)
      {
        GroupStateStep(data.docs, i, g.id, old(docId), old(passageId), old(docs), old(passages), docs, docId, passages, passageId);
        var d := DeserializeDoc(data.docs[i], i);
        d := d.(group := Some(g.id));
        docs := docs + [d];
        i := i + 1;
      }
      assert data.docs[..|data.docs|] == data.docs;
    }

    /** `deserialize_request`: the request row with the number found and the last page, and
        for a response that found documents its merged groups placed after the request's
        stored groups (`storedPositions`), numbered, with their documents and passages. A
        response the source cannot read gives the exception it raises and builds nothing. */
    method DeserializeRequest(x: Xml, regionId: Option<int>, storedLastPage: Option<int>, storedPositions: seq<int>,
                              extract: Extract) returns (r: Result<Request, XmlError>)
      requires Valid()
      modifies this
      ensures Valid()
      ensures var pr := ParseResponse(x, regionId, extract);
        && (pr.Err? ==> r == Err(pr.error) && groups == old(groups) && docs == old(docs) && passages == old(passages))
        && (pr.Ok? ==>
              && r == Ok(Request(pr.value.key, pr.value.found, LastPage(storedLastPage, pr.value.page)))
              && groups == old(groups) + GroupsBuilt(pr.value.groups, old(groupId), LastPosition(storedPositions), pr.value.key)
              && docs == old(docs) + AllDocs(pr.value.groups, old(groupId), old(docId))
              && passages == old(passages) + AllPassages(pr.value.groups, old(docId), old(passageId)))
    {
      var pr := ParseResponse(x, regionId, extract);
      if pr.Err? {
        return Err(pr.error);
      }
      var page := pr.value;
      BuildPage(page, LastPosition(storedPositions));
      r := Ok(Request(page.key, page.found, LastPage(storedLastPage, page.page)));
    }

    /** The loop of `deserialize_request` over the merged groups: each built at its position
        after `last` and attached to the request. */
    method BuildPage(page: Page, last: int)
      requires Valid()
      modifies this
      ensures Valid()
      ensures groups == old(groups) + GroupsBuilt(page.groups, old(groupId), last, page.key)
      ensures docs == old(docs) + AllDocs(page.groups, old(groupId), old(docId))
      ensures passages == old(passages) + AllPassages(page.groups, old(docId), old(passageId))
    {
      ghost var g0, d0, p0 := groupId, docId, passageId;
      ghost var newGroups: seq<Group>, newDocs: seq<Doc>, newPassages: seq<Passage> := [], [], [];
      var i := 0;
      while i < |page.groups|
        invariant 0 <= i <= |page.groups|
        invariant groups == old(groups) + newGroups && docs == old(docs) + newDocs && passages == old(passages) + newPassages
        invariant PageState(page.groups[..i], g0, d0, p0, last, page.key, newGroups, newDocs, newPassages, groupId, docId, passageId)
      {
        ghost var gi, di, pi := groupId, docId, passageId;
        ghost var gs0, ds0, ps0 := groups, docs, passages;
        var g := DeserializeGroup(page.groups[i], i + last + 1);
        g := g.(request := Some(page.key));
        groups := groups + [g];
        PageStateStep(page.groups, i, g0, d0, p0, last, page.key, newGroups, newDocs, newPassages, gi, di, pi);
        ghost var nd, np := DocsBuilt(page.groups[i].docs, gi, di), PassagesBuilt(page.groups[i].docs, di, pi);
        Associative(old(groups), newGroups, [g]);
        Associative(old(docs), newDocs, nd);
        Associative(old(passages), newPassages, np);
        newGroups, newDocs, newPassages := newGroups + [g], newDocs + nd, newPassages + np;
        i := i + 1;
      }
      assert page.groups[..|page.groups|] == page.groups;
      KeepsNumbering(old(groups), old(docs), old(passages), page, g0, d0, p0, last);
    }
  }

  /** The objects the loop of `deserialize_request` has built after the groups `gs`, and its
      counters. */
  ghost predicate PageState(gs: seq<GroupData>, g0: int, d0: int, p0: int, last: int, key: RequestKey,
                            newGroups: seq<Group>, newDocs: seq<Doc>, newPassages: seq<Passage>, gi: int, di: int, pi: int) {
    && newGroups == GroupsBuilt(gs, g0, last, key)
    && newDocs == AllDocs(gs, g0, d0)
    && newPassages == AllPassages(gs, d0, p0)
    && gi == g0 + |gs| && di == d0 + GroupsDocCount(gs) && pi == p0 + GroupsPassageCount(gs)
  }

  lemma PageStateStep(gs: seq<GroupData>, i: nat, g0: int, d0: int, p0: int, last: int, key: RequestKey,
                      newGroups: seq<Group>, newDocs: seq<Doc>, newPassages: seq<Passage>, gi: int, di: int, pi: int)
    requires i < |gs|
    requires PageState(gs[..i], g0, d0, p0, last, key, newGroups, newDocs, newPassages, gi, di, pi)
    ensures PageState(gs[..i + 1], g0, d0, p0, last, key,
                      newGroups + [Group(gi, gs[i].domain, i + last + 1, Some(key))],
                      newDocs + DocsBuilt(gs[i].docs, gi, di),
                      newPassages + PassagesBuilt(gs[i].docs, di, pi),
                      gi + 1, di + |gs[i].docs|, pi + PassageCount(gs[i].docs))
  {
    PageStep(gs, i, g0, d0, p0, last, key);
  }

  /** The groups, documents, passages and counts of the first `i + 1` groups of a page, from
      those of the first `i`. */
  lemma PageStep(gs: seq<GroupData>, i: nat, g0: int, d0: int, p0: int, last: int, key: RequestKey)
    requires i < |gs|
    ensures GroupsBuilt(gs[..i + 1], g0, last, key) == GroupsBuilt(gs[..i], g0, last, key) + [Group(g0 + i, gs[i].domain, last + 1 + i, Some(key))]
    ensures AllDocs(gs[..i + 1], g0, d0) == AllDocs(gs[..i], g0, d0) + DocsBuilt(gs[i].docs, g0 + i, d0 + GroupsDocCount(gs[..i]))
    ensures AllPassages(gs[..i + 1], d0, p0)
      == AllPassages(gs[..i], d0, p0) + PassagesBuilt(gs[i].docs, d0 + GroupsDocCount(gs[..i]), p0 + GroupsPassageCount(gs[..i]))
    ensures GroupsDocCount(gs[..i + 1]) == GroupsDocCount(gs[..i]) + |gs[i].docs|
    ensures GroupsPassageCount(gs[..i + 1]) == GroupsPassageCount(gs[..i]) + PassageCount(gs[i].docs)
  {
    var init := gs[..i];
    assert gs[..i + 1] == init + [gs[i]];
    AppendGroup(init, gs[i], g0, d0, p0, last, key);
  }

  lemma AppendGroup(init: seq<GroupData>, g: GroupData, g0: int, d0: int, p0: int, last: int, key: RequestKey)
    ensures GroupsBuilt(init + [g], g0, last, key) == GroupsBuilt(init, g0, last, key) + [Group(g0 + |init|, g.domain, last + 1 + |init|, Some(key))]
    ensures AllDocs(init + [g], g0, d0) == AllDocs(init, g0, d0) + DocsBuilt(g.docs, g0 + |init|, d0 + GroupsDocCount(init))
    ensures AllPassages(init + [g], d0, p0)
      == AllPassages(init, d0, p0) + PassagesBuilt(g.docs, d0 + GroupsDocCount(init), p0 + GroupsPassageCount(init))
    ensures GroupsDocCount(init + [g]) == GroupsDocCount(init) + |g.docs|
    ensures GroupsPassageCount(init + [g]) == GroupsPassageCount(init) + PassageCount(g.docs)
  {
    var pre := init + [g];
    assert pre[..|pre| - 1] == init && pre[|pre| - 1] == g;
    GroupsBuiltSnoc(pre, g0, last, key);
    AllDocsSnoc(pre, g0, d0);
    AllPassagesSnoc(pre, d0, p0);
    CountsSnoc(pre);
  }

  lemma Associative<T>(a: seq<T>, b: seq<T>, c: seq<T>)
    ensures a + b + c == a + (b + c)
  {
  }

  lemma GroupsBuiltSnoc(gs: seq<GroupData>, g0: int, last: int, key: RequestKey)
    requires gs != []
    ensures var n := |gs| - 1;
      GroupsBuilt(gs, g0, last, key) == GroupsBuilt(gs[..n], g0, last, key) + [Group(g0 + n, gs[n].domain, last + 1 + n, Some(key))]
  {
  }

  lemma AllDocsSnoc(gs: seq<GroupData>, g0: int, d0: int)
    requires gs != []
    ensures var init := gs[..|gs| - 1];
      AllDocs(gs, g0, d0) == AllDocs(init, g0, d0) + DocsBuilt(gs[|gs| - 1].docs, g0 + |init|, d0 + GroupsDocCount(init))
  {
  }

  lemma AllPassagesSnoc(gs: seq<GroupData>, d0: int, p0: int)
    requires gs != []
    ensures var init := gs[..|gs| - 1];
      AllPassages(gs, d0, p0)
        == AllPassages(init, d0, p0) + PassagesBuilt(gs[|gs| - 1].docs, d0 + GroupsDocCount(init), p0 + GroupsPassageCount(init))
  {
  }

  /** One more document of a group: its document, passages and passage count are appended. */
  lemma DocStep(ds: seq<DocData>, i: nat, group: int, d0: int, p0: int)
    requires i < |ds|
    ensures DocsBuilt(ds[..i + 1], group, d0) == DocsBuilt(ds[..i], group, d0) + [MakeDoc(ds[i], Some(group), d0 + i, i)]
    ensures PassagesBuilt(ds[..i + 1], d0, p0) == PassagesBuilt(ds[..i], d0, p0) + PassagesOf(ds[i], d0 + i, p0 + PassageCount(ds[..i]))
    ensures PassageCount(ds[..i + 1]) == PassageCount(ds[..i]) + |ds[i].passages|
  {
    var pre := ds[..i + 1];
    assert pre[..i] == ds[..i] && pre[i] == ds[i] && |pre| == i + 1;
  }

  /** The state of `deserialize_group` after the first `i` documents of the group. */
  ghost predicate GroupState(ds: seq<DocData>, i: int, group: int, d0: int, p0: int, docs0: seq<Doc>, passages0: seq<Passage>,
                             docs: seq<Doc>, docId: int, passages: seq<Passage>, passageId: int) {
    && 0 <= i <= |ds|
    && docs == docs0 + DocsBuilt(ds[..i], group, d0)
    && docId == d0 + i
    && passages == passages0 + PassagesBuilt(ds[..i], d0, p0)
    && passageId == p0 + PassageCount(ds[..i])
  }

  lemma GroupStateStep(ds: seq<DocData>, i: int, group: int, d0: int, p0: int, docs0: seq<Doc>, passages0: seq<Passage>,
                       docs: seq<Doc>, docId: int, passages: seq<Passage>, passageId: int)
    requires GroupState(ds, i, group, d0, p0, docs0, passages0, docs, docId, passages, passageId) && i < |ds|
    ensures GroupState(ds, i + 1, group, d0, p0, docs0, passages0, docs + [MakeDoc(ds[i], Some(group), docId, i)], docId + 1,
                       passages + PassagesOf(ds[i], docId, passageId), passageId + |ds[i].passages|)
  {
    DocStep(ds, i, group, d0, p0);
  }

  lemma CountsSnoc(gs: seq<GroupData>)
    requires gs != []
    ensures var init := gs[..|gs| - 1];
      && GroupsDocCount(gs) == GroupsDocCount(init) + |gs[|gs| - 1].docs|
      && GroupsPassageCount(gs) == GroupsPassageCount(init) + PassageCount(gs[|gs| - 1].docs)
  {
  }

  /** Appending a page's groups, documents and passages numbered from the counters keeps
      every list numbered. */
  lemma KeepsNumbering(gs: seq<Group>, ds: seq<Doc>, ps: seq<Passage>, page: Page, g0: int, d0: int, p0: int, last: int)
    requires Numbered(GroupIds(gs), g0) && Numbered(DocIds(ds), d0) && Numbered(PassageIds(ps), p0)
    ensures Numbered(GroupIds(gs + GroupsBuilt(page.groups, g0, last, page.key)), g0 + |page.groups|)
    ensures Numbered(DocIds(ds + AllDocs(page.groups, g0, d0)), d0 + GroupsDocCount(page.groups))
    ensures Numbered(PassageIds(ps + AllPassages(page.groups, d0, p0)), p0 + GroupsPassageCount(page.groups))
  {
    var ng := GroupsBuilt(page.groups, g0, last, page.key);
    GroupsBuiltAt(page.groups, g0, last, page.key);
    assert GroupIds(gs + ng) == GroupIds(gs) + GroupIds(ng);
    NumberedAppend(GroupIds(gs), GroupIds(ng), g0);
    var nd := AllDocs(page.groups, g0, d0);
    AllDocsMeaning(page.groups, g0, d0);
    assert DocIds(ds + nd) == DocIds(ds) + DocIds(nd);
    NumberedAppend(DocIds(ds), DocIds(nd), d0);
    var np := AllPassages(page.groups, d0, p0);
    AllPassagesMeaning(page.groups, d0, p0);
    assert PassageIds(ps + np) == PassageIds(ps) + PassageIds(np);
    NumberedAppend(PassageIds(ps), PassageIds(np), p0);
  }
}
