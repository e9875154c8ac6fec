/** `YaXMLSearch`: positions of a domain in Yandex search results, read through xmlproxy.ru.
    Which queries still need pages and from which page, the result shaping of the three
    lookups, the request URL, the URL regex and the check that a response can be saved. The
    store is given as its rows; the download itself is not part of this model. */
module XmlSearch {
  import opened Wrappers
  import opened Strings

  /** A search: the domain looked for, the region (`None` for none) and the index of the last
      result page that may be requested, counted from 0. */
  datatype Search = Search(domain: string, regionId: Option<int>, maxPage: int)

  /** The exceptions the lookups raise: a malformed include/exclude URL, a query missing from
      the mapping back to the caller's queries, a `site:` query without a space, and a
      response whose `Date` header is missing or unreadable. */
  datatype SearchError = BadUrl | KeyError(key: string) | ValueError | BadDate

  // ---------------------------------------------------------------- urls_to_regex

  /** The characters `re.escape` puts a backslash before. */
  predicate Special(c: char) {
    || c == '(' || c == ')' || c == '[' || c == ']' || c == '{' || c == '}' || c == '?' || c == '*' || c == '+'
    || c == '-' || c == '|' || c == '^' || c == '$' || c == '\\' || c == '.' || c == '&' || c == '~' || c == '#'
    || c == ' ' || c == '\t' || c == '\n' || c == '\r' || c == '\U{0B}' || c == '\U{0C}'
  }

  /** `re.escape`. */
  function Escape(u: string): (t: string)
    ensures |t| >= |u|
  {
    if u == [] then []
    else (if Special(u[0]) then ['\\', u[0]] else [u[0]]) + Escape(u[1..])
  }

  /** Text a regular expression reads as literal characters only: every special character
      comes after a backslash. */
  predicate Literal(t: string)
    decreases |t|
  {
    t == [] || (t[0] == '\\' && |t| >= 2 && Literal(t[2..])) || (!Special(t[0]) && Literal(t[1..]))
  }

  /** The longest literal prefix of `t`, unescaped, and what follows it. */
  function ReadLiteral(t: string): (r: (string, string))
    ensures |r.1| <= |t|
  {
    if t == [] then ([], [])
    else if t[0] == '\\' && |t| >= 2 then
      var (a, b) := ReadLiteral(t[2..]);
      ([t[1]] + a, b)
    else if Special(t[0]) then ([], t)
    else
      var (a, b) := ReadLiteral(t[1..]);
      ([t[0]] + a, b)
  }

  /** Escaped text is literal: the regex built from a URL matches the URL's characters and
      nothing else. */
  lemma {:induction false} EscapeLiteral(u: string)
    ensures Literal(Escape(u))
  {
    if u != [] {
      EscapeLiteral(u[1..]);
      var t := Escape(u);
      if Special(u[0]) {
        assert t[2..] == Escape(u[1..]);
      } else {
        assert t[1..] == Escape(u[1..]);
      }
    }
  }

  /** Reading escaped text back stops at the first unescaped special character after it and
      gives the text that was escaped. */
  lemma {:induction false} ReadEscaped(u: string, rest: string)
    requires rest != [] && Special(rest[0]) && rest[0] != '\\'
    ensures ReadLiteral(Escape(u) + rest) == (u, rest)
  {
    if u == [] {
      assert Escape(u) + rest == rest;
    } else {
      ReadEscaped(u[1..], rest);
      var x := Escape(u[1..]) + rest;
      var head: string := if Special(u[0]) then ['\\', u[0]] else [u[0]];
      assert Escape(u) == head + Escape(u[1..]);
      Associative(head, Escape(u[1..]), rest);
      if Special(u[0]) {
        ReadEscapedChar(u[0], x);
      } else {
        ReadPlainChar(u[0], x);
      }
      assert [u[0]] + u[1..] == u;
    }
  }

  lemma Associative(a: string, b: string, c: string)
    ensures a + b + c == a + (b + c)
  {
  }

  lemma ReadEscapedChar(c: char, x: string)
    requires Special(c)
    ensures ReadLiteral(['\\', c] + x) == ([c] + ReadLiteral(x).0, ReadLiteral(x).1)
  {
    var t := ['\\', c] + x;
    assert t[0] == '\\' && t[1] == c && t[2..] == x;
  }

  lemma ReadPlainChar(c: char, x: string)
    requires !Special(c)
    ensures ReadLiteral([c] + x) == ([c] + ReadLiteral(x).0, ReadLiteral(x).1)
  {
    var t := [c] + x;
    assert t[0] == c && t[1..] == x;
  }

  const AltOpen: string := "((\\.|/)"
  const AltClose: string := "(/|$))"

  /** The alternative for one URL: it follows a `.` or a `/` and ends before a `/` or at the
      end of the text. */
  function Alternative(u: string): string {
    AltOpen + Escape(u) + AltClose
  }

  function Alternatives(urls: seq<string>): (alts: seq<string>)
    ensures |alts| == |urls| && forall i :: 0 <= i < |urls| ==> alts[i] == Alternative(urls[i])
  {
    seq(|urls|, i requires 0 <= i < |urls| => Alternative(urls[i]))
  }

  /** `urls_to_regex`: one alternative per URL, joined with `|`. */
  function UrlsToRegex(urls: seq<string>): string {
    Join("|", Alternatives(urls))
  }

  /** Reads a regex made of alternatives of the shape `Alternative` back into URLs. */
  function ParseRegex(r: string): Option<seq<string>>
    decreases |r|
  {
    if !StartsWith(r, AltOpen) then None
    else
      var (u, rest) := ReadLiteral(r[|AltOpen|..]);
      if !StartsWith(rest, AltClose) then None
      else
        var tail := rest[|AltClose|..];
        if tail == [] then Some([u])
        else if tail[0] != '|' then None
        else
          match ParseRegex(tail[1..])
          case None => None
          case Some(us) => Some([u] + us)
  }

  /** Reading one alternative and what follows it. */
  lemma ParseAlternative(u: string, tail: string)
    requires tail == [] || tail[0] == '|'
    ensures ParseRegex(Alternative(u) + tail)
            == if tail == [] then Some([u])
               else match ParseRegex(tail[1..]) case None => None case Some(us) => Some([u] + us)
  {
    var r := Alternative(u) + tail;
    assert StartsWith(r, AltOpen);
    assert r[|AltOpen|..] == Escape(u) + (AltClose + tail);
    ReadEscaped(u, AltClose + tail);
    assert (AltClose + tail)[|AltClose|..] == tail;
  }

  lemma UrlsToRegexCons(urls: seq<string>)
    requires |urls| > 1
    ensures UrlsToRegex(urls) == Alternative(urls[0]) + ("|" + UrlsToRegex(urls[1..]))
  {
    assert Alternatives(urls)[1..] == Alternatives(urls[1..]);
  }

  /** The regex of a list of URLs holds exactly one alternative per URL, in order, each
      matching its URL literally: reading it back gives the URLs. */
  lemma {:induction false} RegexRoundTrip(urls: seq<string>)
    requires urls != []
    ensures ParseRegex(UrlsToRegex(urls)) == Some(urls)
  {
    if |urls| == 1 {
      assert UrlsToRegex(urls) == Alternative(urls[0]) + "";
      ParseAlternative(urls[0], "");
      assert [urls[0]] == urls;
    } else {
      UrlsToRegexCons(urls);
      var tail := "|" + UrlsToRegex(urls[1..]);
      ParseAlternative(urls[0], tail);
      RegexRoundTrip(urls[1..]);
      assert tail[1..] == UrlsToRegex(urls[1..]);
      assert [urls[0]] + urls[1..] == urls;
    }
  }

  // ---------------------------------------------------------------- URL validation

  /** `re.match(r'.*\..*', u)`: a `.` before the first line break. */
  predicate DotInFirstLine(u: string)
    decreases |u|
  {
    u != [] && (u[0] == '.' || (u[0] != '\n' && DotInFirstLine(u[1..])))
  }

  /** A URL part `get_query_domains` accepts: it holds a dot and does not end with `/`. */
  predicate ValidUrl(u: string) {
    DotInFirstLine(u) && !EndsWith(u, "/")
  }

  predicate UrlsValid(urls: seq<string>) {
    forall i :: 0 <= i < |urls| ==> ValidUrl(urls[i])
  }

  /** On one line, the pattern only asks for a dot somewhere. */
  lemma {:induction false} DotInFirstLineMeaning(u: string)
    ensures DotInFirstLine(u) ==> '.' in u
    ensures '\n' !in u ==> (DotInFirstLine(u) <==> '.' in u)
  {
    if u != [] {
      DotInFirstLineMeaning(u[1..]);
      assert forall c :: c in u <==> c == u[0] || c in u[1..];
    }
  }

  // ---------------------------------------------------------------- get_url_str

  /** `str(region_id)`, or nothing for no region or region 0. */
  function RegionText(regionId: Option<int>): string {
    if regionId.Some? && regionId.value != 0 then IntToString(regionId.value) else ""
  }

  /** The `groupby` parameter: grouped by domain for a deep search, flat otherwise. */
  function GroupBy(deep: bool, groupsOnPage: int, docsInGroup: int): string {
    var (attr, mode) := if deep then ("d", "deep") else ("", "flat");
    "attr=" + attr + ".mode=" + mode + ".groups-on-page=" + IntToString(groupsOnPage) + ".docs-in-group=" + IntToString(docsInGroup)
  }

  /** The parameters of a request URL, in order, from their values as text. */
  function Params(user: string, key: string, query: string, lr: string, maxPassages: string, groupBy: string,
                  page: string): seq<(string, string)> {
    [("user", user), ("key", key), ("query", query), ("lr", lr), ("l10n", "ru"), ("sortby", "rlv"),
     ("filter", "none"), ("maxpassages", maxPassages), ("groupby", groupBy), ("page", page)]
  }

  /** The parameters `get_url_str` writes; `user` and `key` come from the settings. */
  function UrlParams(s: Search, user: string, key: string, query: string, page: int, deep: bool,
                     groupsOnPage: int, docsInGroup: int, maxPassages: int): seq<(string, string)> {
    Params(user, key, query, RegionText(s.regionId), IntToString(maxPassages), GroupBy(deep, groupsOnPage, docsInGroup),
           IntToString(page))
  }

  const SearchBase: string := "http://xmlproxy.ru/search/xml?"

  function Assignments(ps: seq<(string, string)>): (r: seq<string>)
    ensures |r| == |ps| && forall i :: 0 <= i < |ps| ==> r[i] == ps[i].0 + "=" + ps[i].1
  {
    seq(|ps|, i requires 0 <= i < |ps| => ps[i].0 + "=" + ps[i].1)
  }

  /** `get_url_str`. The query goes in as it is, without URL encoding. */
  function UrlStr(s: Search, user: string, key: string, query: string, page: int, deep: bool,
                  groupsOnPage: int, docsInGroup: int, maxPassages: int): string {
    SearchBase + Join("&", Assignments(UrlParams(s, user, key, query, page, deep, groupsOnPage, docsInGroup, maxPassages)))
  }

  /** `t.split(c)`. */
  function Split(t: string, c: char): (parts: seq<string>)
    ensures |parts| >= 1
  {
    if t == [] then [""]
    else
      var rest := Split(t[1..], c);
      if t[0] == c then [""] + rest else [[t[0]] + rest[0]] + rest[1..]
  }

  /** A name and a value at the first `=`. */
  function SplitAssignment(a: string): (string, string)
    decreases |a|
  {
    if a == [] then ("", "")
    else if a[0] == '=' then ("", a[1..])
    else
      var (n, v) := SplitAssignment(a[1..]);
      ([a[0]] + n, v)
  }

  /** The parameters of a request URL as a server reads them. */
  function ParseUrl(url: string): Option<seq<(string, string)>> {
    if !StartsWith(url, SearchBase) then None
    else
      var parts := Split(url[|SearchBase|..], '&');
      Some(seq(|parts|, i requires 0 <= i < |parts| => SplitAssignment(parts[i])))
  }

  lemma {:induction false} SplitPlain(a: string, c: char)
    requires c !in a
    ensures Split(a, c) == [a]
  {
    if a != [] {
      SplitPlain(a[1..], c);
      assert [a[0]] + a[1..] == a;
    }
  }

  lemma {:induction false} SplitHead(a: string, b: string, c: char)
    requires c !in a
    ensures Split(a + [c] + b, c) == [a] + Split(b, c)
  {
    if a == [] {
      assert a + [c] + b == [c] + b;
      assert ([c] + b)[1..] == b;
    } else {
      var t := a + [c] + b;
      assert t[1..] == a[1..] + [c] + b;
      SplitHead(a[1..], b, c);
      assert [a[0]] + a[1..] == a;
    }
  }

  /** Splitting a `c`-join of parts without `c` gives the parts back. */
  lemma {:induction false} SplitJoin(parts: seq<string>, c: char)
    requires parts != []
    requires forall i :: 0 <= i < |parts| ==> c !in parts[i]
    ensures Split(Join([c], parts), c) == parts
  {
    if |parts| == 1 {
      SplitPlain(parts[0], c);
    } else {
      SplitJoin(parts[1..], c);
      SplitHead(parts[0], Join([c], parts[1..]), c);
      assert [parts[0]] + parts[1..] == parts;
    }
  }

  lemma {:induction false} SplitAssignmentOf(n: string, v: string)
    requires '=' !in n
    ensures SplitAssignment(n + "=" + v) == (n, v)
  {
    if n == [] {
      assert n + "=" + v == ['='] + v;
    } else {
      SplitAssignmentOf(n[1..], v);
      assert (n + "=" + v)[1..] == n[1..] + "=" + v;
      assert [n[0]] + n[1..] == n;
    }
  }

  lemma DecimalPlain(i: int)
    ensures '&' !in IntToString(i) && '=' !in IntToString(i)
  {
    if i < 0 {
      assert IntToString(i) == "-" + NatToString(-i);
    }
  }

  /** Names without `=` or `&`, values without `&`. */
  predicate PlainParam(p: (string, string)) {
    '&' !in p.0 && '=' !in p.0 && '&' !in p.1
  }

  predicate PlainParams(ps: seq<(string, string)>) {
    forall i :: 0 <= i < |ps| ==> PlainParam(ps[i])
  }

  /** Parameters joined into a URL read back as they were. */
  lemma ParseJoined(ps: seq<(string, string)>)
    requires ps != [] && PlainParams(ps)
    ensures ParseUrl(SearchBase + Join("&", Assignments(ps))) == Some(ps)
  {
    var asg := Assignments(ps);
    forall i | 0 <= i < |ps| ensures '&' !in asg[i] {
      assert asg[i] == ps[i].0 + "=" + ps[i].1;
    }
    var url := SearchBase + Join("&", asg);
    assert url[|SearchBase|..] == Join("&", asg);
    SplitJoin(asg, '&');
    var parts := Split(url[|SearchBase|..], '&');
    assert parts == asg;
    var read := seq(|parts|, i requires 0 <= i < |parts| => SplitAssignment(parts[i]));
    forall i | 0 <= i < |ps| ensures read[i] == ps[i] {
      SplitAssignmentOf(ps[i].0, ps[i].1);
    }
    assert read == ps;
  }

  /** A request URL carries exactly the ten parameters of `UrlParams`, in order, with their
      values, as long as the settings and the query hold no `&`. */
  lemma UrlStrRoundTrip(s: Search, user: string, key: string, query: string, page: int, deep: bool,
                        groupsOnPage: int, docsInGroup: int, maxPassages: int)
    requires '&' !in user && '&' !in key && '&' !in query
    ensures ParseUrl(UrlStr(s, user, key, query, page, deep, groupsOnPage, docsInGroup, maxPassages))
            == Some(UrlParams(s, user, key, query, page, deep, groupsOnPage, docsInGroup, maxPassages))
  {
    UrlParamsPlain(s, user, key, query, page, deep, groupsOnPage, docsInGroup, maxPassages);
    ParseJoined(UrlParams(s, user, key, query, page, deep, groupsOnPage, docsInGroup, maxPassages));
  }

  lemma UrlParamsPlain(s: Search, user: string, key: string, query: string, page: int, deep: bool,
                       groupsOnPage: int, docsInGroup: int, maxPassages: int)
    requires '&' !in user && '&' !in key && '&' !in query
    ensures PlainParams(UrlParams(s, user, key, query, page, deep, groupsOnPage, docsInGroup, maxPassages))
  {
    var lr := RegionText(s.regionId);
    assert '&' !in lr by {
      if s.regionId.Some? {
        DecimalPlain(s.regionId.value);
      }
    }
    DecimalPlain(maxPassages);
    GroupByPlain(deep, groupsOnPage, docsInGroup);
    DecimalPlain(page);
    ParamsPlain(user, key, query, lr, IntToString(maxPassages), GroupBy(deep, groupsOnPage, docsInGroup), IntToString(page));
  }

  lemma ParamsPlain(user: string, key: string, query: string, lr: string, maxPassages: string, groupBy: string, page: string)
    requires '&' !in user && '&' !in key && '&' !in query && '&' !in lr
    requires '&' !in maxPassages && '&' !in groupBy && '&' !in page
    ensures PlainParams(Params(user, key, query, lr, maxPassages, groupBy, page))
  {
  }

  lemma GroupByPlain(deep: bool, groupsOnPage: int, docsInGroup: int)
    ensures '&' !in GroupBy(deep, groupsOnPage, docsInGroup)
  {
    DecimalPlain(groupsOnPage);
    DecimalPlain(docsInGroup);
  }

  // ---------------------------------------------------------------- is_response_valid

  const LowPriceError: string := "<error code=\"-132\">"
  const BalanceError: string := "<error code=\"-32\">"
  const NothingFoundError: string := "<error code=\"15\">"
  const ResultsStart: string := "<results><grouping"
  const ResponseEnd: string := "</yandexsearch>"

  /** What the check of a response asks for before the request is repeated: nothing, a wait
      until the bid is low enough, or a wait until the balance is topped up, both given the
      server time of the response. */
  datatype Wait = NoWait | WaitLowPrice(at: int) | WaitBalance(at: int)

  datatype Verdict = Verdict(valid: bool, wait: Wait)

  /** `is_response_valid` on the response's server time (`None` when the `Date` header is
      missing or unreadable) and its text. */
  function CheckResponse(serverTime: Option<int>, text: string): (r: Result<Verdict, SearchError>)
    ensures r.Err? <==> serverTime.None?
    ensures r.Ok? ==>
      (r.value.valid <==>
         && text != ""
         && !Contains(text, LowPriceError) && !Contains(text, BalanceError)
         && EndsWith(text, ResponseEnd)
         && (Contains(text, ResultsStart) || Contains(text, NothingFoundError)))
    ensures r.Ok? ==> (r.value.wait.WaitLowPrice? <==> text != "" && Contains(text, LowPriceError))
    ensures r.Ok? ==> (r.value.wait.WaitBalance? <==> text != "" && !Contains(text, LowPriceError) && Contains(text, BalanceError))
    ensures r.Ok? && !r.value.wait.NoWait? ==> !r.value.valid && r.value.wait.at == serverTime.value
  {
    if serverTime.None? then Err(BadDate)
    else
      var t := serverTime.value;
      if text == "" then Ok(Verdict(false, NoWait))
      else if Contains(text, LowPriceError) then Ok(Verdict(false, WaitLowPrice(t)))
      else if Contains(text, BalanceError) then Ok(Verdict(false, WaitBalance(t)))
      else if !EndsWith(text, ResponseEnd) then Ok(Verdict(false, NoWait))
      else if !Contains(text, ResultsStart) && !Contains(text, NothingFoundError) then Ok(Verdict(false, NoWait))
      else Ok(Verdict(true, NoWait))
  }

  // ---------------------------------------------------------------- the store

  /** A stored `YaXmlRequest`: its query, its region and the last page saved for it. */
  datatype StoredRequest = StoredRequest(query: string, regionId: Option<int>, lastPage: Option<int>)

  /** A stored result group with the query and region of its request and the URLs of its
      documents. */
  datatype StoredGroup = StoredGroup(query: string, regionId: Option<int>, domain: string, position: int, urls: seq<string>)

  datatype Store = Store(requests: seq<StoredRequest>, groups: seq<StoredGroup>)

  /** `unique_together = ('query', 'region_id')`. */
  predicate UniqueRequests(rs: seq<StoredRequest>) {
    forall i, j :: 0 <= i < j < |rs| ==> rs[i].query != rs[j].query || rs[i].regionId != rs[j].regionId
  }

  /** The highest position a group may have to count: the last one on page `maxPage`. */
  function PositionBound(maxPage: int): int {
    (maxPage + 1) * 100 - 1
  }

  /** The number of queries one lookup puts in `query__in`. */
  const ChunkSize: nat := 900

  /** No two rows that pass `keep` share a key. */
  predicate KeyedOnce<R>(rows: seq<R>, keep: R -> bool, key: R -> string) {
    forall i, j :: 0 <= i < j < |rows| && keep(rows[i]) && keep(rows[j]) ==> key(rows[i]) != key(rows[j])
  }

  /** The rows a lookup `key__in=qs` with the further conditions `keep` returns, in store
      order. */
  function Select<R(!new)>(rows: seq<R>, keep: R -> bool, key: R -> string, qs: set<string>): (out: seq<R>)
    ensures forall r :: r in out <==> r in rows && keep(r) && key(r) in qs
  {
    if rows == [] then []
    else
      var rest := Select(rows[1..], keep, key, qs);
      if keep(rows[0]) && key(rows[0]) in qs then [rows[0]] + rest else rest
  }

  /** A lookup on rows with distinct keys returns each key once. */
  lemma {:induction false} SelectKeyedOnce<R(!new)>(rows: seq<R>, keep: R -> bool, key: R -> string, qs: set<string>)
    requires KeyedOnce(rows, keep, key)
    ensures KeyedOnce(Select(rows, keep, key, qs), keep, key)
  {
    if rows != [] {
      var tail := rows[1..];
      assert KeyedOnce(tail, keep, key) by {
        forall i, j | 0 <= i < j < |tail| && keep(tail[i]) && keep(tail[j]) ensures key(tail[i]) != key(tail[j]) {
          assert tail[i] == rows[i + 1] && tail[j] == rows[j + 1];
        }
      }
      SelectKeyedOnce(tail, keep, key, qs);
      var rest := Select(tail, keep, key, qs);
      if keep(rows[0]) && key(rows[0]) in qs {
        var out := [rows[0]] + rest;
        forall j | 0 <= j < |rest| ensures key(rest[j]) != key(rows[0]) {
          assert rest[j] in tail;
          var k :| 0 <= k < |tail| && tail[k] == rest[j];
          assert rows[k + 1] == rest[j];
        }
        forall i, j | 0 <= i < j < |out| && keep(out[i]) && keep(out[j]) ensures key(out[i]) != key(out[j]) {
          assert out[j] == rest[j - 1];
          if i > 0 {
            assert out[i] == rest[i - 1];
          }
        }
      }
    }
  }

  /** Two lists of rows with distinct keys and no key in common, one after the other. */
  lemma KeyedOnceAppend<R>(a: seq<R>, b: seq<R>, keep: R -> bool, key: R -> string)
    requires KeyedOnce(a, keep, key) && KeyedOnce(b, keep, key)
    requires forall i, j :: 0 <= i < |a| && 0 <= j < |b| ==> key(a[i]) != key(b[j])
    ensures KeyedOnce(a + b, keep, key)
  {
    var c := a + b;
    forall i, j | 0 <= i < j < |c| && keep(c[i]) && keep(c[j]) ensures key(c[i]) != key(c[j]) {
      if j >= |a| {
        assert c[j] == b[j - |a|];
        if i >= |a| {
          assert c[i] == b[i - |a|];
        }
      }
    }
  }

  /** A lookup over a list of queries, made `ChunkSize` queries at a time. */
  method SelectChunked<R(!new)>(rows: seq<R>, keep: R -> bool, key: R -> string, qs: seq<string>) returns (out: seq<R>)
    ensures forall r :: r in out <==> r in rows && keep(r) && key(r) in qs
  {
    out := [];
    var i := 0;
    while i < |qs|
      invariant 0 <= i <= |qs|
      invariant forall r :: r in out <==> r in rows && keep(r) && key(r) in qs[..i]
    {
      var j := if |qs| - i <= ChunkSize then |qs| else i + ChunkSize;
      var chunk := qs[i..j];
      assert qs[..j] == qs[..i] + chunk;
      out := out + Select(rows, keep, key, set q | q in chunk);
      i := j;
    }
    assert qs[..|qs|] == qs;
  }

  /** A lookup over a set of queries, made `ChunkSize` queries at a time, the chunks taken in
      any order. */
  method SelectChunkedSet<R(!new)>(rows: seq<R>, keep: R -> bool, key: R -> string, qs: set<string>) returns (out: seq<R>)
    ensures forall r :: r in out <==> r in rows && keep(r) && key(r) in qs
    ensures KeyedOnce(rows, keep, key) ==> KeyedOnce(out, keep, key)
  {
    out := [];
    var rest := qs;
    while rest != {}
      invariant rest <= qs
      invariant forall r :: r in out <==> r in rows && keep(r) && key(r) in qs - rest
      invariant KeyedOnce(rows, keep, key) ==> KeyedOnce(out, keep, key)
      decreases |rest|
    {
      var x :| x in rest;
      assert {x} <= rest && |{x}| <= ChunkSize;
      var chunk :| chunk <= rest && x in chunk && |chunk| <= ChunkSize;
      var part := Select(rows, keep, key, chunk);
      if KeyedOnce(rows, keep, key) {
        SelectKeyedOnce(rows, keep, key, chunk);
        forall i, j | 0 <= i < |out| && 0 <= j < |part| ensures key(out[i]) != key(part[j]) {
          assert out[i] in out && part[j] in part;
        }
        KeyedOnceAppend(out, part, keep, key);
      }
      out := out + part;
      rest := rest - chunk;
    }
  }

  /** `list(xs)` for a set: its elements once each, in some order. */
  method Enumerate(xs: set<string>) returns (l: seq<string>)
    ensures forall x :: x in l <==> x in xs
    ensures forall i, j :: 0 <= i < j < |l| ==> l[i] != l[j]
  {
    l := [];
    var rest := xs;
    while rest != {}
      invariant rest <= xs
      invariant forall x :: x in l <==> x in xs - rest
      invariant forall i, j :: 0 <= i < j < |l| ==> l[i] != l[j]
      decreases |rest|
    {
      var x :| x in rest;
      l := l + [x];
      rest := rest - {x};
    }
  }

  /** `[normalize_phrase(q) for q in queries]`; the normalisation is not part of this model. */
  function Normalized(queries: seq<string>, normalize: string -> string): (n: seq<string>)
    ensures |n| == |queries| && forall i :: 0 <= i < |queries| ==> n[i] == normalize(queries[i])
  {
    seq(|queries|, i requires 0 <= i < |queries| => normalize(queries[i]))
  }

  /** `dict(zip(normal_queries, queries))`: each normal form to its query, a later query
      replacing an earlier one with the same normal form. */
  function Mapper(normal: seq<string>, queries: seq<string>): (m: map<string, string>)
    requires |normal| == |queries|
    ensures forall k :: k in m <==> k in normal
  {
    if normal == [] then map[]
    else Mapper(normal[..|normal| - 1], queries[..|queries| - 1])[normal[|normal| - 1] := queries[|queries| - 1]]
  }

  /** `j` is the last index holding `k`. */
  predicate LastAt(ks: seq<string>, k: string, j: int) {
    0 <= j < |ks| && ks[j] == k && forall i :: j < i < |ks| ==> ks[i] != k
  }

  /** Each normal form maps to the last query with that normal form. */
  lemma {:induction false} MapperLast(normal: seq<string>, queries: seq<string>, k: string)
    requires |normal| == |queries| && k in normal
    ensures exists j :: LastAt(normal, k, j) && Mapper(normal, queries)[k] == queries[j]
  {
    var n := |normal| - 1;
    if normal[n] == k {
      assert LastAt(normal, k, n);
    } else {
      var init := normal[..n];
      assert k in init by {
        var i :| 0 <= i < |normal| && normal[i] == k;
        assert init[i] == k;
      }
      MapperLast(init, queries[..n], k);
      var j :| LastAt(init, k, j) && Mapper(init, queries[..n])[k] == queries[..n][j];
      assert LastAt(normal, k, j);
    }
  }

  /** The queries given back are the caller's own. */
  lemma {:induction false} MapperValues(normal: seq<string>, queries: seq<string>, k: string)
    requires |normal| == |queries| && k in normal
    ensures Mapper(normal, queries)[k] in queries
  {
    MapperLast(normal, queries, k);
  }

  /** `dict(pairs)`: each key to the value of its last pair. */
  method DictOf<V>(pairs: seq<(string, V)>) returns (m: map<string, V>)
    ensures forall k :: k in m <==> exists i :: 0 <= i < |pairs| && pairs[i].0 == k
    ensures forall k :: k in m ==> exists j :: 0 <= j < |pairs| && pairs[j] == (k, m[k]) && forall i :: j < i < |pairs| ==> pairs[i].0 != k
  {
    m := map[];
    var i := 0;
    while i < |pairs|
      invariant 0 <= i <= |pairs|
      invariant forall k :: k in m <==> exists l :: 0 <= l < i && pairs[l].0 == k
      invariant forall k :: k in m ==> exists j :: 0 <= j < i && pairs[j] == (k, m[k]) && forall l :: j < l < i ==> pairs[l].0 != k
    {
      m := m[pairs[i].0 := pairs[i].1];
      i := i + 1;
    }
  }

  // ---------------------------------------------------------------- _populate_db

  /** A group of the domain, in the region, on a page that counts. */
  predicate DomainHit(s: Search, g: StoredGroup) {
    g.regionId == s.regionId && g.position <= PositionBound(s.maxPage) && g.domain == s.domain
  }

  /** A request of the region whose pages are all saved. */
  predicate AtMaxPage(s: Search, r: StoredRequest) {
    r.regionId == s.regionId && r.lastPage.Some? && r.lastPage.value >= s.maxPage
  }

  /** A request of the region with pages still to fetch. */
  predicate Resumable(s: Search, r: StoredRequest) {
    r.regionId == s.regionId && r.lastPage.Some? && r.lastPage.value < s.maxPage
  }

  /** The queries among `qs` for which the domain is found. */
  function FoundQueries(s: Search, store: Store, qs: set<string>): set<string> {
    set g | g in store.groups && DomainHit(s, g) && g.query in qs :: g.query
  }

  /** The queries among `qs` whose pages are all saved. */
  function MaxPageQueries(s: Search, store: Store, qs: set<string>): set<string> {
    set r | r in store.requests && AtMaxPage(s, r) && r.query in qs :: r.query
  }

  /** The queries that still need pages: neither found nor at the last page. */
  function ToFetch(s: Search, store: Store, normal: seq<string>): set<string> {
    var qs := set q | q in normal;
    qs - FoundQueries(s, store, qs) - MaxPageQueries(s, store, qs)
  }

  /** The page a query's download starts at: the one after its last saved page, or 0. */
  function StartPage(s: Search, rs: seq<StoredRequest>, q: string): (p: int)
    ensures p == 0 || p <= s.maxPage
  {
    if rs == [] then 0
    else if rs[0].query == q && Resumable(s, rs[0]) then rs[0].lastPage.value + 1
    else StartPage(s, rs[1..], q)
  }

  /** A stored request with pages still to fetch resumes after its last page. */
  lemma {:induction false} StartPageResumes(s: Search, rs: seq<StoredRequest>, i: int)
    requires UniqueRequests(rs) && 0 <= i < |rs| && Resumable(s, rs[i])
    ensures StartPage(s, rs, rs[i].query) == rs[i].lastPage.value + 1
  {
    if i > 0 {
      assert !(rs[0].query == rs[i].query && Resumable(s, rs[0]));
      var tail := rs[1..];
      assert UniqueRequests(tail) by {
        forall a, b | 0 <= a < b < |tail| ensures tail[a].query != tail[b].query || tail[a].regionId != tail[b].regionId {
          assert tail[a] == rs[a + 1] && tail[b] == rs[b + 1];
        }
      }
      assert tail[i - 1] == rs[i];
      StartPageResumes(s, tail, i - 1);
    }
  }

  /** Any other query starts at page 0. */
  lemma {:induction false} StartPageFresh(s: Search, rs: seq<StoredRequest>, q: string)
    requires forall r :: r in rs ==> r.query != q || !Resumable(s, r)
    ensures StartPage(s, rs, q) == 0
  {
    if rs != [] {
      assert rs[0] in rs;
      assert forall r :: r in rs[1..] ==> r in rs;
      StartPageFresh(s, rs[1..], q);
    }
  }

  /** The queries of a start list. */
  function StartQueries(starts: seq<(string, int)>): set<string> {
    set i | 0 <= i < |starts| :: starts[i].0
  }

  /** No query twice in a start list. */
  predicate OnceEach(starts: seq<(string, int)>) {
    forall i, j :: 0 <= i < j < |starts| ==> starts[i].0 != starts[j].0
  }

  lemma StartsAppend(a: seq<(string, int)>, b: seq<(string, int)>)
    ensures StartQueries(a + b) == StartQueries(a) + StartQueries(b)
    ensures OnceEach(a) && OnceEach(b) && StartQueries(a) !! StartQueries(b) ==> OnceEach(a + b)
  {
    var c := a + b;
    forall q | q in StartQueries(c) ensures q in StartQueries(a) + StartQueries(b) {
      var i :| 0 <= i < |c| && c[i].0 == q;
      if i >= |a| {
        assert c[i] == b[i - |a|];
      }
    }
    forall q | q in StartQueries(a) + StartQueries(b) ensures q in StartQueries(c) {
      if q in StartQueries(a) {
        var i :| 0 <= i < |a| && a[i].0 == q;
        assert c[i] == a[i];
      } else {
        var i :| 0 <= i < |b| && b[i].0 == q;
        assert c[|a| + i] == b[i];
      }
    }
    if OnceEach(a) && OnceEach(b) && StartQueries(a) !! StartQueries(b) {
      forall i, j | 0 <= i < j < |c| ensures c[i].0 != c[j].0 {
        if j >= |a| {
          assert c[j] == b[j - |a|];
          if i >= |a| {
            assert c[i] == b[i - |a|];
          } else {
            assert c[i].0 in StartQueries(a) && c[j].0 in StartQueries(b);
          }
        }
      }
    }
  }

  /** `_populate_db` up to the download: the normal queries that still need pages, each once,
      with the page to start at. Which pages are then fetched and saved is not part of this
      model. */
  method PopulateStarts(s: Search, store: Store, normal: seq<string>) returns (starts: seq<(string, int)>)
    requires UniqueRequests(store.requests)
    ensures StartQueries(starts) == ToFetch(s, store, normal)
    ensures OnceEach(starts)
    ensures forall i :: 0 <= i < |starts| ==> starts[i].1 == StartPage(s, store.requests, starts[i].0)
  {
    var maxRows := SelectChunked(store.requests, r => AtMaxPage(s, r), (r: StoredRequest) => r.query, normal);
    var hitRows := SelectChunked(store.groups, g => DomainHit(s, g), (g: StoredGroup) => g.query, normal);
    var maxPages := set r | r in maxRows :: r.query;
    var found := set g | g in hitRows :: g.query;
    var notFound := (set q | q in normal) - found - maxPages;
    assert notFound == ToFetch(s, store, normal);
    var resumed := ResumeStarts(s, store, notFound);
    var unseen := notFound - StartQueries(resumed);
    var fromZero := ZeroStarts(s, store, unseen);
    starts := resumed + fromZero;
    StartsAppend(resumed, fromZero);
  }

  /** The stored requests among `qs` with pages still to fetch, each at the page after its
      last one. */
  method ResumeStarts(s: Search, store: Store, qs: set<string>) returns (starts: seq<(string, int)>)
    requires UniqueRequests(store.requests)
    ensures StartQueries(starts) == set r | r in store.requests && r.query in qs && Resumable(s, r) :: r.query
    ensures StartQueries(starts) <= qs
    ensures OnceEach(starts)
    ensures forall i :: 0 <= i < |starts| ==> starts[i].1 == StartPage(s, store.requests, starts[i].0)
  {
    var keep := r => Resumable(s, r);
    var key := (r: StoredRequest) => r.query;
    assert KeyedOnce(store.requests, keep, key);
    var rows := SelectChunkedSet(store.requests, keep, key, qs);
    forall i | 0 <= i < |rows| ensures rows[i].lastPage.Some? && rows[i].lastPage.value + 1 == StartPage(s, store.requests, rows[i].query) {
      assert rows[i] in rows;
      var j :| 0 <= j < |store.requests| && store.requests[j] == rows[i];
      StartPageResumes(s, store.requests, j);
    }
    starts := seq(|rows|, i requires 0 <= i < |rows| && rows[i].lastPage.Some? => (rows[i].query, rows[i].lastPage.value + 1));
    forall i | 0 <= i < |starts| ensures starts[i].0 in qs && rows[i] in store.requests && Resumable(s, rows[i]) {
      assert rows[i] in rows;
    }
    forall r | r in store.requests && r.query in qs && Resumable(s, r) ensures r.query in StartQueries(starts) {
      assert r in rows;
      var i :| 0 <= i < |rows| && rows[i] == r;
      assert starts[i].0 == r.query;
    }
  }

  /** The other queries, in any order, each from page 0. */
  method ZeroStarts(s: Search, store: Store, qs: set<string>) returns (starts: seq<(string, int)>)
    requires forall r :: r in store.requests && Resumable(s, r) ==> r.query !in qs
    ensures StartQueries(starts) == qs
    ensures OnceEach(starts)
    ensures forall i :: 0 <= i < |starts| ==> starts[i].1 == 0 == StartPage(s, store.requests, starts[i].0)
  {
    var others := Enumerate(qs);
    starts := seq(|others|, i requires 0 <= i < |others| => (others[i], 0));
    forall i | 0 <= i < |starts| ensures StartPage(s, store.requests, starts[i].0) == 0 {
      assert others[i] in others;
      StartPageFresh(s, store.requests, others[i]);
    }
    forall q | q in qs ensures q in StartQueries(starts) {
      var i :| 0 <= i < |others| && others[i] == q;
      assert starts[i].0 == q;
    }
  }

  // ---------------------------------------------------------------- get_domain_positions

  /** The domain is found for `q` at position `p` within the pages that count. */
  predicate PositionOf(s: Search, store: Store, q: string, p: int) {
    exists g :: g in store.groups && DomainHit(s, g) && g.query == q && g.position == p
  }

  predicate FoundFor(s: Search, store: Store, q: string) {
    exists g :: g in store.groups && DomainHit(s, g) && g.query == q
  }

  /** `get_domain_positions` on the store once the missing pages are saved: one entry per
      query, in order, holding a position of the domain for the query's normal form, or
      `None` where the domain is not found on the pages that count. */
  method DomainPositions(s: Search, store: Store, queries: seq<string>, normalize: string -> string)
    returns (r: seq<Option<int>>)
    ensures |r| == |queries|
    ensures forall i :: 0 <= i < |queries| ==> (r[i].Some? <==> FoundFor(s, store, normalize(queries[i])))
    ensures forall i :: 0 <= i < |queries| && r[i].Some? ==> PositionOf(s, store, normalize(queries[i]), r[i].value)
    ensures forall i :: 0 <= i < |queries| && r[i].Some? ==> r[i].value <= PositionBound(s.maxPage)
  {
    var normal := Normalized(queries, normalize);
    var rows := SelectChunked(store.groups, g => DomainHit(s, g), (g: StoredGroup) => g.query, normal);
    var pairs := seq(|rows|, k requires 0 <= k < |rows| => (rows[k].query, rows[k].position));
    var positions := DictOf(pairs);
    r := seq(|normal|, i requires 0 <= i < |normal| => if normal[i] in positions then Some(positions[normal[i]]) else None);
    forall i | 0 <= i < |queries| ensures r[i].Some? <==> FoundFor(s, store, normal[i]) {
      if FoundFor(s, store, normal[i]) {
        var g :| g in store.groups && DomainHit(s, g) && g.query == normal[i];
        assert normal[i] in normal;
        var k :| 0 <= k < |rows| && rows[k] == g;
        assert pairs[k].0 == normal[i];
      }
      if r[i].Some? {
        var k :| 0 <= k < |pairs| && pairs[k].0 == normal[i];
        assert rows[k] in rows;
      }
    }
    forall i | 0 <= i < |queries| && r[i].Some? ensures PositionOf(s, store, normal[i], r[i].value) {
      var k :| 0 <= k < |pairs| && pairs[k] == (normal[i], positions[normal[i]]);
      assert rows[k] in rows;
    }
  }

  // ---------------------------------------------------------------- get_query_domains

  /** A group `get_query_domains` lists: in the region, on a page that counts, with a
      document URL matching the wanted regex if there is one and none matching the
      unwanted regex if there is one. `matches` is the regex engine's case-insensitive search. */
  predicate Listed(s: Search, g: StoredGroup, wanted: seq<string>, unwanted: seq<string>, matches: (string, string) -> bool) {
    && g.regionId == s.regionId && g.position <= PositionBound(s.maxPage)
    && (wanted != [] ==> exists u :: u in g.urls && matches(UrlsToRegex(wanted), u))
    && (unwanted != [] ==> forall u :: u in g.urls ==> !matches(UrlsToRegex(unwanted), u))
  }

  /** The caller's query `q` is the one the group's normal form maps back to. */
  predicate Owns(m: map<string, string>, g: StoredGroup, q: string) {
    g.query in m && m[g.query] == q
  }

  /** `Listed` as the condition of a lookup. */
  function ListedBy(s: Search, wanted: seq<string>, unwanted: seq<string>, matches: (string, string) -> bool): StoredGroup -> bool {
    g => Listed(s, g, wanted, unwanted, matches)
  }

  /** The query of a group's request, the key of its lookups. */
  function QueryOf(g: StoredGroup): string {
    g.query
  }

  /** A row of the lookup of `get_query_domains`: the request's query and the group's domain
      of `values_list`, with the position that `order_by` adds to the selected columns, so that
      `distinct()` merges only the rows that agree on all three. */
  datatype Hit = Hit(query: string, domain: string, position: int)

  function HitOf(g: StoredGroup): Hit {
    Hit(g.query, g.domain, g.position)
  }

  /** The rows of a list of groups, in order. */
  function HitsOf(gs: seq<StoredGroup>): (hs: seq<Hit>)
    ensures |hs| == |gs|
  {
    if gs == [] then [] else [HitOf(gs[0])] + HitsOf(gs[1..])
  }

  lemma {:induction false} HitsOfMember(gs: seq<StoredGroup>, h: Hit)
    ensures h in HitsOf(gs) <==> exists g :: g in gs && HitOf(g) == h
  {
    if gs != [] {
      HitsOfMember(gs[1..], h);
      assert forall g :: g in gs <==> g == gs[0] || g in gs[1..];
    }
  }

  /** Rows in increasing position. */
  predicate ByPosition(hs: seq<Hit>) {
    forall i, j :: 0 <= i < j < |hs| ==> hs[i].position <= hs[j].position
  }

  /** No row twice. */
  predicate NoRepeats(hs: seq<Hit>) {
    forall i, j :: 0 <= i < j < |hs| ==> hs[i] != hs[j]
  }

  /** Rows in increasing position with `h` at the head. */
  lemma ByPositionCons(h: Hit, hs: seq<Hit>)
    requires ByPosition(hs) && forall x :: x in hs ==> h.position <= x.position
    ensures ByPosition([h] + hs)
  {
    var r := [h] + hs;
    forall i, j | 0 <= i < j < |r| ensures r[i].position <= r[j].position {
      assert r[j] == hs[j - 1];
      if i > 0 {
        assert r[i] == hs[i - 1];
      }
    }
  }

  /** The rows after the head of rows in increasing position. */
  lemma ByPositionTail(hs: seq<Hit>)
    requires ByPosition(hs) && hs != []
    ensures ByPosition(hs[1..]) && forall x :: x in hs[1..] ==> hs[0].position <= x.position
  {
    var tail := hs[1..];
    forall i, j | 0 <= i < j < |tail| ensures tail[i].position <= tail[j].position {
      assert tail[i] == hs[i + 1] && tail[j] == hs[j + 1];
    }
    forall x | x in tail ensures hs[0].position <= x.position {
      var k :| 0 <= k < |tail| && tail[k] == x;
      assert hs[k + 1] == x;
    }
  }

  /** A row put into rows in increasing position, before the first row of its position or a
      later one. */
  function Insert(h: Hit, hs: seq<Hit>): (r: seq<Hit>)
    ensures |r| == |hs| + 1
  {
    if hs == [] || h.position <= hs[0].position then [h] + hs
    else [hs[0]] + Insert(h, hs[1..])
  }

  /** Putting a row in place keeps the rows in increasing position and adds just that row. */
  lemma {:induction false} InsertSorted(h: Hit, hs: seq<Hit>)
    requires ByPosition(hs)
    ensures ByPosition(Insert(h, hs))
    ensures multiset(Insert(h, hs)) == multiset(hs) + multiset{h}
  {
    if hs == [] || h.position <= hs[0].position {
      ByPositionCons(h, hs);
    } else {
      ByPositionTail(hs);
      InsertSorted(h, hs[1..]);
      var rest := Insert(h, hs[1..]);
      assert hs == [hs[0]] + hs[1..];
      assert forall x :: x in rest ==> x in multiset(hs[1..]) + multiset{h};
      ByPositionCons(hs[0], rest);
    }
  }

  /** `order_by('position')`: the rows by position, those of one position in store order. */
  function SortHits(hs: seq<Hit>): (r: seq<Hit>)
    ensures |r| == |hs|
  {
    if hs == [] then [] else Insert(hs[0], SortHits(hs[1..]))
  }

  /** Sorting puts the rows in increasing position and keeps every one of them. */
  lemma {:induction false} SortSorted(hs: seq<Hit>)
    ensures ByPosition(SortHits(hs))
    ensures multiset(SortHits(hs)) == multiset(hs)
  {
    if hs != [] {
      SortSorted(hs[1..]);
      InsertSorted(hs[0], SortHits(hs[1..]));
      assert hs == [hs[0]] + hs[1..];
    }
  }

  /** `distinct()`: each row once, the order otherwise kept. */
  function Distinct(hs: seq<Hit>): (d: seq<Hit>)
    ensures |d| <= |hs|
  {
    if hs == [] then []
    else
      var rest := Distinct(hs[1..]);
      if hs[0] in rest then rest else [hs[0]] + rest
  }

  lemma DistinctCons(h: Hit, t: seq<Hit>)
    ensures Distinct([h] + t) == if h in Distinct(t) then Distinct(t) else [h] + Distinct(t)
  {
    assert ([h] + t)[1..] == t;
  }

  lemma {:induction false} DistinctMember(hs: seq<Hit>, h: Hit)
    ensures h in Distinct(hs) <==> h in hs
  {
    if hs != [] {
      DistinctMember(hs[1..], h);
      assert h in hs <==> h == hs[0] || h in hs[1..];
    }
  }

  /** After `distinct()` no row is there twice, and rows in increasing position stay so. */
  lemma {:induction false} DistinctNoRepeats(hs: seq<Hit>)
    ensures NoRepeats(Distinct(hs))
    ensures ByPosition(hs) ==> ByPosition(Distinct(hs))
  {
    if hs != [] {
      DistinctNoRepeats(hs[1..]);
      var rest := Distinct(hs[1..]);
      if hs[0] !in rest {
        var d := [hs[0]] + rest;
        forall i, j | 0 <= i < j < |d| ensures d[i] != d[j] {
          assert d[j] == rest[j - 1];
          if i > 0 {
            assert d[i] == rest[i - 1];
          }
        }
      }
      if ByPosition(hs) {
        ByPositionTail(hs);
        forall x | x in rest ensures hs[0].position <= x.position {
          DistinctMember(hs[1..], x);
        }
        ByPositionCons(hs[0], rest);
      }
    }
  }

  /** The rows of query `n`, in order. */
  function OfQuery(hs: seq<Hit>, n: string): seq<Hit> {
    if hs == [] then []
    else (if hs[0].query == n then [hs[0]] else []) + OfQuery(hs[1..], n)
  }

  lemma OfQueryCons(h: Hit, t: seq<Hit>, n: string)
    ensures OfQuery([h] + t, n) == (if h.query == n then [h] else []) + OfQuery(t, n)
  {
    assert ([h] + t)[1..] == t;
  }

  lemma {:induction false} OfQueryMember(hs: seq<Hit>, n: string, h: Hit)
    ensures h in OfQuery(hs, n) <==> h in hs && h.query == n
  {
    if hs != [] {
      OfQueryMember(hs[1..], n, h);
      assert h in hs <==> h == hs[0] || h in hs[1..];
    }
  }

  lemma {:induction false} OfQueryByPosition(hs: seq<Hit>, n: string)
    requires ByPosition(hs)
    ensures ByPosition(OfQuery(hs, n))
  {
    if hs != [] {
      ByPositionTail(hs);
      OfQueryByPosition(hs[1..], n);
      var rest := OfQuery(hs[1..], n);
      if hs[0].query == n {
        forall x | x in rest ensures hs[0].position <= x.position {
          OfQueryMember(hs[1..], n, x);
        }
        ByPositionCons(hs[0], rest);
      } else {
        assert OfQuery(hs, n) == [] + rest;
      }
    }
  }

  /** One lookup of `get_query_domains`: the rows of the groups that pass `keep` with their
      request's query in `chunk`, by position, each row once. */
  function ChunkHits(groups: seq<StoredGroup>, keep: StoredGroup -> bool, chunk: set<string>): seq<Hit> {
    Distinct(SortHits(HitsOf(Select(groups, keep, QueryOf, chunk))))
  }

  lemma ChunkHitsMember(groups: seq<StoredGroup>, keep: StoredGroup -> bool, chunk: set<string>, h: Hit)
    ensures h in ChunkHits(groups, keep, chunk) <==> exists g :: g in groups && keep(g) && g.query in chunk && HitOf(g) == h
  {
    var sel := Select(groups, keep, QueryOf, chunk);
    var sorted := SortHits(HitsOf(sel));
    SortSorted(HitsOf(sel));
    DistinctMember(sorted, h);
    assert h in sorted <==> h in multiset(sorted);
    HitsOfMember(sel, h);
  }

  /** The rows a lookup gives for the one query `n`. */
  function QueryHits(groups: seq<StoredGroup>, keep: StoredGroup -> bool, n: string): seq<Hit> {
    ChunkHits(groups, keep, {n})
  }

  /** The rows of one query: by position, each once, and exactly those of the groups of that
      query that pass `keep`. */
  lemma QueryHitsMeaning(groups: seq<StoredGroup>, keep: StoredGroup -> bool, n: string)
    ensures ByPosition(QueryHits(groups, keep, n)) && NoRepeats(QueryHits(groups, keep, n))
    ensures forall h :: h in QueryHits(groups, keep, n) <==> exists g :: g in groups && keep(g) && g.query == n && HitOf(g) == h
  {
    var sorted := SortHits(HitsOf(Select(groups, keep, QueryOf, {n})));
    SortSorted(HitsOf(Select(groups, keep, QueryOf, {n})));
    DistinctNoRepeats(sorted);
    forall h ensures h in QueryHits(groups, keep, n) <==> exists g :: g in groups && keep(g) && g.query == n && HitOf(g) == h {
      ChunkHitsMember(groups, keep, {n}, h);
    }
  }

  /** The length of the chunk of at most `ChunkSize` queries at the head of `qs`. */
  function HeadChunk(qs: seq<string>): (j: nat)
    ensures 0 < |qs| ==> 0 < j
    ensures j <= |qs| && j <= ChunkSize
  {
    if |qs| <= ChunkSize then |qs| else ChunkSize
  }

  /** The rows of the lookups of `get_query_domains`, one per chunk of `ChunkSize` queries, one
      after the other. */
  function AllHits(groups: seq<StoredGroup>, keep: StoredGroup -> bool, qs: seq<string>): seq<Hit>
    decreases |qs|
  {
    if qs == [] then []
    else
      var j := HeadChunk(qs);
      ChunkHits(groups, keep, set q | q in qs[..j]) + AllHits(groups, keep, qs[j..])
  }

  lemma {:induction false} AllHitsMember(groups: seq<StoredGroup>, keep: StoredGroup -> bool, qs: seq<string>, h: Hit)
    ensures h in AllHits(groups, keep, qs) <==> exists g :: g in groups && keep(g) && g.query in qs && HitOf(g) == h
    decreases |qs|
  {
    if qs != [] {
      var j := HeadChunk(qs);
      AllHitsMember(groups, keep, qs[j..], h);
      ChunkHitsMember(groups, keep, (set q | q in qs[..j]), h);
      assert qs == qs[..j] + qs[j..];
      assert forall q :: q in qs <==> q in qs[..j] || q in qs[j..];
    }
  }

  /** The number of chunks of `qs` that hold `n`. */
  function ChunksWith(qs: seq<string>, n: string): nat
    decreases |qs|
  {
    if qs == [] then 0
    else
      var j := HeadChunk(qs);
      (if n in qs[..j] then 1 else 0) + ChunksWith(qs[j..], n)
  }

  /** `xs` written `k` times. */
  function Repeat(xs: seq<Hit>, k: nat): seq<Hit> {
    if k == 0 then [] else xs + Repeat(xs, k - 1)
  }

  lemma {:induction false} OfQueryAppend(a: seq<Hit>, b: seq<Hit>, n: string)
    ensures OfQuery(a + b, n) == OfQuery(a, n) + OfQuery(b, n)
  {
    if a != [] {
      assert a + b == [a[0]] + (a[1..] + b);
      assert a == [a[0]] + a[1..];
      OfQueryCons(a[0], a[1..] + b, n);
      OfQueryCons(a[0], a[1..], n);
      OfQueryAppend(a[1..], b, n);
    } else {
      assert a + b == b;
    }
  }

  /** Picking the rows of one query commutes with putting a row in place. */
  lemma {:induction false} OfQueryInsert(h: Hit, s: seq<Hit>, n: string)
    requires ByPosition(s)
    ensures OfQuery(Insert(h, s), n) == if h.query == n then Insert(h, OfQuery(s, n)) else OfQuery(s, n)
  {
    if s == [] || h.position <= s[0].position {
      InsertFront(h, s, n);
    } else {
      ByPositionTail(s);
      OfQueryInsert(h, s[1..], n);
      InsertLater(h, s, n);
    }
  }

  lemma InsertFront(h: Hit, s: seq<Hit>, n: string)
    requires ByPosition(s)
    requires s == [] || h.position <= s[0].position
    ensures OfQuery(Insert(h, s), n) == if h.query == n then Insert(h, OfQuery(s, n)) else OfQuery(s, n)
  {
    var sub := OfQuery(s, n);
    assert Insert(h, s) == [h] + s;
    OfQueryCons(h, s, n);
    if h.query == n && sub != [] {
      OfQueryMember(s, n, sub[0]);
      var k :| 0 <= k < |s| && s[k] == sub[0];
      assert s[0].position <= s[k].position;
      assert Insert(h, sub) == [h] + sub;
    }
  }

  lemma InsertLater(h: Hit, s: seq<Hit>, n: string)
    requires s != [] && h.position > s[0].position
    requires OfQuery(Insert(h, s[1..]), n) == if h.query == n then Insert(h, OfQuery(s[1..], n)) else OfQuery(s[1..], n)
    ensures OfQuery(Insert(h, s), n) == if h.query == n then Insert(h, OfQuery(s, n)) else OfQuery(s, n)
  {
    var rest := Insert(h, s[1..]);
    var sub := OfQuery(s[1..], n);
    var front: seq<Hit> := if s[0].query == n then [s[0]] else [];
    assert Insert(h, s) == [s[0]] + rest;
    OfQueryCons(s[0], rest, n);
    assert s == [s[0]] + s[1..];
    OfQueryCons(s[0], s[1..], n);
    assert OfQuery(Insert(h, s), n) == front + OfQuery(rest, n);
    assert OfQuery(s, n) == front + sub;
    if h.query == n {
      if s[0].query == n {
        assert ([s[0]] + sub)[1..] == sub;
        assert Insert(h, [s[0]] + sub) == [s[0]] + Insert(h, sub);
      } else {
        assert front + sub == sub && front + Insert(h, sub) == Insert(h, sub);
      }
    }
  }

  lemma {:induction false} OfQuerySort(hs: seq<Hit>, n: string)
    ensures OfQuery(SortHits(hs), n) == SortHits(OfQuery(hs, n))
  {
    if hs != [] {
      OfQuerySort(hs[1..], n);
      SortSorted(hs[1..]);
      OfQueryInsert(hs[0], SortHits(hs[1..]), n);
      assert hs == [hs[0]] + hs[1..];
      OfQueryCons(hs[0], hs[1..], n);
      if hs[0].query == n {
        var sub := OfQuery(hs[1..], n);
        assert SortHits([hs[0]] + sub) == Insert(hs[0], SortHits(sub)) by {
          assert ([hs[0]] + sub)[1..] == sub;
        }
      } else {
        assert OfQuery(hs, n) == OfQuery(hs[1..], n);
      }
    }
  }

  lemma {:induction false} OfQueryDistinct(hs: seq<Hit>, n: string)
    ensures OfQuery(Distinct(hs), n) == Distinct(OfQuery(hs, n))
  {
    if hs != [] {
      var h := hs[0];
      var t := hs[1..];
      assert hs == [h] + t;
      OfQueryDistinct(t, n);
      DistinctCons(h, t);
      DistinctMember(t, h);
      OfQueryCons(h, t, n);
      OfQueryCons(h, Distinct(t), n);
      var sub := OfQuery(t, n);
      if h.query == n {
        DistinctCons(h, sub);
        OfQueryMember(t, n, h);
        DistinctMember(sub, h);
      } else {
        assert OfQuery(hs, n) == sub;
        if h !in Distinct(t) {
          assert OfQuery([h] + Distinct(t), n) == OfQuery(Distinct(t), n);
        }
      }
    }
  }

  lemma {:induction false} OfQuerySelect(rows: seq<StoredGroup>, keep: StoredGroup -> bool, qs: set<string>, n: string)
    ensures OfQuery(HitsOf(Select(rows, keep, QueryOf, qs)), n) == if n in qs then HitsOf(Select(rows, keep, QueryOf, {n})) else []
  {
    if rows != [] {
      OfQuerySelect(rows[1..], keep, qs, n);
      var rest := Select(rows[1..], keep, QueryOf, qs);
      if keep(rows[0]) && rows[0].query in qs {
        assert ([rows[0]] + rest)[1..] == rest;
        assert HitsOf([rows[0]] + rest) == [HitOf(rows[0])] + HitsOf(rest);
        OfQueryCons(HitOf(rows[0]), HitsOf(rest), n);
        if rows[0].query == n {
          var one := Select(rows[1..], keep, QueryOf, {n});
          assert ([rows[0]] + one)[1..] == one;
        }
      }
    }
  }

  /** The rows of one query in a lookup are those the lookup of that query alone gives. */
  lemma OfQueryChunk(groups: seq<StoredGroup>, keep: StoredGroup -> bool, chunk: set<string>, n: string)
    ensures OfQuery(ChunkHits(groups, keep, chunk), n) == if n in chunk then QueryHits(groups, keep, n) else []
  {
    var hs := HitsOf(Select(groups, keep, QueryOf, chunk));
    OfQueryDistinct(SortHits(hs), n);
    OfQuerySort(hs, n);
    OfQuerySelect(groups, keep, chunk, n);
  }

  /** The rows of one query over all lookups: the rows of that query alone, once per chunk
      holding it. */
  lemma {:induction false} OfQueryAll(groups: seq<StoredGroup>, keep: StoredGroup -> bool, qs: seq<string>, n: string)
    ensures OfQuery(AllHits(groups, keep, qs), n) == Repeat(QueryHits(groups, keep, n), ChunksWith(qs, n))
    decreases |qs|
  {
    if qs != [] {
      var j := HeadChunk(qs);
      var chunk := set q | q in qs[..j];
      var later := AllHits(groups, keep, qs[j..]);
      assert AllHits(groups, keep, qs) == ChunkHits(groups, keep, chunk) + later;
      OfQueryAppend(ChunkHits(groups, keep, chunk), later, n);
      OfQueryChunk(groups, keep, chunk, n);
      OfQueryAll(groups, keep, qs[j..], n);
      assert n in chunk <==> n in qs[..j];
      if n !in chunk {
        assert [] + OfQuery(later, n) == OfQuery(later, n);
      }
    }
  }

  /** No query twice. */
  predicate Unrepeated(qs: seq<string>) {
    forall i, j :: 0 <= i < j < |qs| ==> qs[i] != qs[j]
  }

  /** A query held once is in one chunk. */
  lemma {:induction false} ChunksOnce(qs: seq<string>, n: string)
    requires Unrepeated(qs)
    ensures ChunksWith(qs, n) == if n in qs then 1 else 0
    decreases |qs|
  {
    if qs != [] {
      var j := HeadChunk(qs);
      var tail := qs[j..];
      assert Unrepeated(tail) by {
        forall a, b | 0 <= a < b < |tail| ensures tail[a] != tail[b] {
          assert tail[a] == qs[j + a] && tail[b] == qs[j + b];
        }
      }
      ChunksOnce(tail, n);
      assert qs == qs[..j] + tail;
    }
  }

  /** Row `h` is given back under the caller's query `q`. */
  predicate HitOwned(mapper: map<string, string>, h: Hit, q: string) {
    h.query in mapper && mapper[h.query] == q
  }

  /** The rows given back under `q`, in order. */
  function OwnedBy(hs: seq<Hit>, mapper: map<string, string>, q: string): seq<Hit> {
    if hs == [] then []
    else (if HitOwned(mapper, hs[0], q) then [hs[0]] else []) + OwnedBy(hs[1..], mapper, q)
  }

  lemma {:induction false} OwnedByMember(hs: seq<Hit>, mapper: map<string, string>, q: string, h: Hit)
    ensures h in OwnedBy(hs, mapper, q) <==> h in hs && HitOwned(mapper, h, q)
  {
    if hs != [] {
      OwnedByMember(hs[1..], mapper, q, h);
      assert h in hs <==> h == hs[0] || h in hs[1..];
    }
  }

  lemma {:induction false} OwnedBySnoc(hs: seq<Hit>, h: Hit, mapper: map<string, string>, q: string)
    ensures OwnedBy(hs + [h], mapper, q) == OwnedBy(hs, mapper, q) + (if HitOwned(mapper, h, q) then [h] else [])
  {
    if hs != [] {
      assert (hs + [h])[1..] == hs[1..] + [h];
      OwnedBySnoc(hs[1..], h, mapper, q);
    } else {
      assert hs + [h] == [h];
    }
  }

  /** When the rows given back under `q` are exactly those of query `n`, the two pick the
      same rows. */
  lemma {:induction false} OwnedByOfQuery(hs: seq<Hit>, mapper: map<string, string>, q: string, n: string)
    requires forall h :: h in hs ==> (HitOwned(mapper, h, q) <==> h.query == n)
    ensures OwnedBy(hs, mapper, q) == OfQuery(hs, n)
  {
    if hs != [] {
      assert forall h :: h in hs[1..] ==> h in hs;
      OwnedByOfQuery(hs[1..], mapper, q, n);
    }
  }

  /** The domains of rows, in order. */
  function Domains(hs: seq<Hit>): (ds: seq<string>)
    ensures |ds| == |hs| && forall i :: 0 <= i < |hs| ==> ds[i] == hs[i].domain
  {
    seq(|hs|, i requires 0 <= i < |hs| => hs[i].domain)
  }

  /** Each normal form maps back to a query of that normal form. */
  lemma MapperNormal(queries: seq<string>, normalize: string -> string, k: string)
    requires k in Normalized(queries, normalize)
    ensures normalize(Mapper(Normalized(queries, normalize), queries)[k]) == k
  {
    MapperLast(Normalized(queries, normalize), queries, k);
  }

  /** `get_query_domains` on the store once the missing pages are saved: a malformed
      wanted or unwanted URL is refused; otherwise each caller's query that a listed group
      maps back to holds the domains of the listed groups of its normal form, by position,
      one per domain and position, and once more for each further chunk of `ChunkSize`
      queries holding that normal form. */
  method QueryDomains(s: Search, store: Store, queries: seq<string>, wanted: seq<string>, unwanted: seq<string>,
                      normalize: string -> string, matches: (string, string) -> bool)
    returns (r: Result<map<string, seq<string>>, SearchError>)
    ensures r.Err? <==> !UrlsValid(wanted) || !UrlsValid(unwanted)
    ensures r.Err? ==> r.error == BadUrl
    ensures r.Ok? ==> forall q :: q in r.value ==> q in queries
    ensures r.Ok? ==> forall q :: q in r.value <==>
      exists g :: g in store.groups && Listed(s, g, wanted, unwanted, matches) && Owns(Mapper(Normalized(queries, normalize), queries), g, q)
    ensures r.Ok? ==> forall q :: q in r.value ==>
      r.value[q] == Domains(Repeat(QueryHits(store.groups, ListedBy(s, wanted, unwanted, matches), normalize(q)),
                                   ChunksWith(Normalized(queries, normalize), normalize(q))))
    ensures r.Ok? && Unrepeated(Normalized(queries, normalize)) ==>
      forall q :: q in r.value ==> r.value[q] == Domains(QueryHits(store.groups, ListedBy(s, wanted, unwanted, matches), normalize(q)))
  {
    if !UrlsValid(wanted) || !UrlsValid(unwanted) {
      return Err(BadUrl);
    }
    var normal := Normalized(queries, normalize);
    var listed := ListedBy(s, wanted, unwanted, matches);
    var data := LookupChunked(store.groups, listed, normal);
    var mapper := Mapper(normal, queries);
    forall h | h in data ensures h.query in mapper {
      AllHitsMember(store.groups, listed, normal, h);
    }
    var result := GroupDomains(data, mapper);
    GroupedKeys(store.groups, listed, queries, normalize, data, result);
    GroupedLists(store.groups, listed, queries, normalize, data, result);
    GroupedOnce(store.groups, listed, queries, normalize, data, result);
    r := Ok(result);
  }

  /** The keys of `result` grouped from the lookups: the caller's queries that a listed
      group maps back to. */
  lemma GroupedKeys(groups: seq<StoredGroup>, listed: StoredGroup -> bool, queries: seq<string>, normalize: string -> string,
                    data: seq<Hit>, result: map<string, seq<string>>)
    requires data == AllHits(groups, listed, Normalized(queries, normalize))
    requires forall q :: q in result <==> exists h :: h in data && HitOwned(Mapper(Normalized(queries, normalize), queries), h, q)
    ensures forall q :: q in result <==> exists g :: g in groups && listed(g) && Owns(Mapper(Normalized(queries, normalize), queries), g, q)
  {
    var normal := Normalized(queries, normalize);
    forall q ensures q in result <==> exists g :: g in groups && listed(g) && Owns(Mapper(normal, queries), g, q) {
      QueryKeys(groups, listed, normal, data, Mapper(normal, queries), q);
    }
  }

  /** The lists of `result` grouped from the lookups: under each caller's query, the rows of its
      normal form, once per chunk holding it. */
  lemma GroupedLists(groups: seq<StoredGroup>, listed: StoredGroup -> bool, queries: seq<string>, normalize: string -> string,
                     data: seq<Hit>, result: map<string, seq<string>>)
    requires data == AllHits(groups, listed, Normalized(queries, normalize))
    requires forall h :: h in data ==> h.query in Mapper(Normalized(queries, normalize), queries)
    requires forall q :: q in result <==> exists h :: h in data && HitOwned(Mapper(Normalized(queries, normalize), queries), h, q)
    requires forall q :: q in result ==> result[q] == Domains(OwnedBy(data, Mapper(Normalized(queries, normalize), queries), q))
    ensures forall q :: q in result ==> q in queries
    ensures forall q :: q in result ==>
      result[q] == Domains(Repeat(QueryHits(groups, listed, normalize(q)), ChunksWith(Normalized(queries, normalize), normalize(q))))
  {
    var normal := Normalized(queries, normalize);
    forall q | q in result ensures q in queries && result[q] == Domains(Repeat(QueryHits(groups, listed, normalize(q)), ChunksWith(normal, normalize(q)))) {
      QueryEntry(queries, normalize, data, Mapper(normal, queries), q);
      OfQueryAll(groups, listed, normal, normalize(q));
    }
  }

  /** With no two queries of one normal form, each list of `result` holds the rows of its
      normal form once. */
  lemma GroupedOnce(groups: seq<StoredGroup>, listed: StoredGroup -> bool, queries: seq<string>, normalize: string -> string,
                    data: seq<Hit>, result: map<string, seq<string>>)
    requires forall q :: q in result ==> exists h :: h in data && HitOwned(Mapper(Normalized(queries, normalize), queries), h, q)
    requires forall q :: q in result ==>
      result[q] == Domains(Repeat(QueryHits(groups, listed, normalize(q)), ChunksWith(Normalized(queries, normalize), normalize(q))))
    ensures Unrepeated(Normalized(queries, normalize)) ==>
      forall q :: q in result ==> result[q] == Domains(QueryHits(groups, listed, normalize(q)))
  {
    var normal := Normalized(queries, normalize);
    if Unrepeated(normal) {
      forall q | q in result ensures result[q] == Domains(QueryHits(groups, listed, normalize(q))) {
        var h :| h in data && HitOwned(Mapper(normal, queries), h, q);
        MapperNormal(queries, normalize, h.query);
        ChunksOnce(normal, normalize(q));
        RepeatOnce(QueryHits(groups, listed, normalize(q)));
      }
    }
  }

  lemma RepeatOnce(xs: seq<Hit>)
    ensures Repeat(xs, 1) == xs
  {
    assert Repeat(xs, 1) == xs + [];
  }

  /** A caller's query has rows given back under it exactly when a listed group maps back
      to it. */
  lemma QueryKeys(groups: seq<StoredGroup>, listed: StoredGroup -> bool, normal: seq<string>, data: seq<Hit>,
                  mapper: map<string, string>, q: string)
    requires data == AllHits(groups, listed, normal)
    requires forall k :: k in mapper <==> k in normal
    ensures (exists h :: h in data && HitOwned(mapper, h, q)) <==> exists g :: g in groups && listed(g) && Owns(mapper, g, q)
  {
    if h :| h in data && HitOwned(mapper, h, q) {
      AllHitsMember(groups, listed, normal, h);
      var g :| g in groups && listed(g) && g.query in normal && HitOf(g) == h;
      assert Owns(mapper, g, q);
    }
    if g :| g in groups && listed(g) && Owns(mapper, g, q) {
      AllHitsMember(groups, listed, normal, HitOf(g));
      assert HitOf(g) in data && HitOwned(mapper, HitOf(g), q);
    }
  }

  /** A caller's query given back holds the rows of its own normal form. */
  lemma QueryEntry(queries: seq<string>, normalize: string -> string, data: seq<Hit>, mapper: map<string, string>, q: string)
    requires mapper == Mapper(Normalized(queries, normalize), queries)
    requires forall h :: h in data ==> h.query in mapper
    requires exists h :: h in data && HitOwned(mapper, h, q)
    ensures q in queries
    ensures OwnedBy(data, mapper, q) == OfQuery(data, normalize(q))
  {
    var normal := Normalized(queries, normalize);
    var h :| h in data && HitOwned(mapper, h, q);
    MapperValues(normal, queries, h.query);
    MapperNormal(queries, normalize, h.query);
    forall x | x in data ensures HitOwned(mapper, x, q) <==> x.query == normalize(q) {
      MapperNormal(queries, normalize, x.query);
    }
    OwnedByOfQuery(data, mapper, q, normalize(q));
  }

  /** The loop of `get_query_domains` over the chunks: each lookup's rows after those of the
      chunks before. */
  method LookupChunked(groups: seq<StoredGroup>, keep: StoredGroup -> bool, qs: seq<string>) returns (data: seq<Hit>)
    ensures data == AllHits(groups, keep, qs)
  {
    data := [];
    var i := 0;
    while i < |qs|
      invariant 0 <= i <= |qs|
      invariant data + AllHits(groups, keep, qs[i..]) == AllHits(groups, keep, qs)
    {
      var rest := qs[i..];
      var j := i + HeadChunk(rest);
      assert rest[..j - i] == qs[i..j] && rest[j - i..] == qs[j..];
      var part := ChunkHits(groups, keep, set q | q in qs[i..j]);
      assert AllHits(groups, keep, rest) == part + AllHits(groups, keep, qs[j..]);
      data := data + part;
      i := j;
    }
    assert qs[|qs|..] == [];
  }

  /** The loop of `get_query_domains` over the rows: `result.setdefault(query, []).append(domain)`
      under the query each row maps back to. */
  method GroupDomains(data: seq<Hit>, mapper: map<string, string>) returns (result: map<string, seq<string>>)
    requires forall h :: h in data ==> h.query in mapper
    ensures forall q :: q in result <==> exists h :: h in data && HitOwned(mapper, h, q)
    ensures forall q :: q in result ==> result[q] == Domains(OwnedBy(data, mapper, q))
  {
    result := map[];
    var k := 0;
    while k < |data|
      invariant 0 <= k <= |data|
      invariant forall q :: q in result <==> exists h :: h in data[..k] && HitOwned(mapper, h, q)
      invariant forall q :: q in result ==> result[q] == Domains(OwnedBy(data[..k], mapper, q))
    {
      var h := data[k];
      assert data[..k + 1] == data[..k] + [h];
      var q := mapper[h.query];
      var before := OwnedBy(data[..k], mapper, q);
      if q !in result && before != [] {
        OwnedByMember(data[..k], mapper, q, before[0]);
      }
      var domains := if q in result then result[q] else [];
      forall p ensures OwnedBy(data[..k + 1], mapper, p) == OwnedBy(data[..k], mapper, p) + (if p == q then [h] else []) {
        OwnedBySnoc(data[..k], h, mapper, p);
      }
      assert Domains(before + [h]) == Domains(before) + [h.domain];
      result := result[q := domains + [h.domain]];
      assert h in data[..k + 1] && HitOwned(mapper, h, q);
      k := k + 1;
    }
    assert data[..|data|] == data;
  }

  // ---------------------------------------------------------------- get_domain_groups

  /** The query searched within the domain's site. */
  function SiteQuery(domain: string, q: string): string {
    "site:" + domain + " " + q
  }

  /** The first index of `c` in `t`. */
  function IndexOf(t: string, c: char): (i: nat)
    requires c in t
    ensures i < |t| && t[i] == c && forall j :: 0 <= j < i ==> t[j] != c
  {
    if t[0] == c then 0 else 1 + IndexOf(t[1..], c)
  }

  /** The query a group's request stands for: a `site:` query without its first word, which
      `split(' ', 1)` cannot take apart without a space. */
  function StripSite(q: string): Result<string, SearchError> {
    if !StartsWith(q, "site:") then Ok(q)
    else if ' ' !in q then Err(ValueError)
    else Ok(q[IndexOf(q, ' ') + 1..])
  }

  /** A domain without spaces: the site query reads back to its query. */
  lemma SiteRoundTrip(domain: string, q: string)
    requires ' ' !in domain
    ensures StripSite(SiteQuery(domain, q)) == Ok(q)
  {
    var t := SiteQuery(domain, q);
    assert StartsWith(t, "site:");
    var n := 5 + |domain|;
    assert t[n] == ' ';
    forall j | 0 <= j < n ensures t[j] != ' ' {
      if j >= 5 {
        assert t[j] == domain[j - 5];
      }
    }
    assert IndexOf(t, ' ') == n;
    assert t[n + 1..] == q;
  }

  /** The caller's query a group is filed under, or the exception the lookup raises. */
  function Target(m: map<string, string>, g: StoredGroup): Result<string, SearchError> {
    match StripSite(g.query)
    case Err(e) => Err(e)
    case Ok(q) => if q in m then Ok(m[q]) else Err(KeyError(q))
  }

  /** The queries whose groups `get_domain_groups` returns: those found as they are, and the
      site queries of the others. */
  function ResultQueries(s: Search, before: Store, normal: seq<string>): set<string> {
    var qs := set q | q in normal;
    var found := FoundQueries(s, before, qs);
    found + set q | q in qs - found :: SiteQuery(s.domain, q)
  }

  /** The site queries still to download: those of the queries not found, for which the
      domain is not found either. */
  function SiteToFetch(s: Search, before: Store, normal: seq<string>): set<string> {
    var qs := set q | q in normal;
    var site := set q | q in qs - FoundQueries(s, before, qs) :: SiteQuery(s.domain, q);
    site - FoundQueries(s, before, site)
  }

  /** A group `get_domain_groups` reads: of the domain and the region, on any page, for one of
      the result queries. */
  predicate Returned(s: Search, g: StoredGroup, queries: set<string>) {
    g.domain == s.domain && g.regionId == s.regionId && g.query in queries
  }

  /** `get_domain_groups`: the site queries to download from page 0 (read on the store
      `before`), then on the store `after` the download one group of the domain per caller's
      query, or the exception a group whose query does not map back raises. */
  method DomainGroups(s: Search, before: Store, after: Store, queries: seq<string>, normalize: string -> string)
    returns (starts: seq<(string, int)>, r: Result<map<string, StoredGroup>, SearchError>)
    ensures StartQueries(starts) == SiteToFetch(s, before, Normalized(queries, normalize))
    ensures OnceEach(starts) && forall i :: 0 <= i < |starts| ==> starts[i].1 == 0
    ensures var rq := ResultQueries(s, before, Normalized(queries, normalize));
            var m := Mapper(Normalized(queries, normalize), queries);
      && (r.Err? <==> exists g :: g in after.groups && Returned(s, g, rq) && Target(m, g).Err?)
      && (r.Err? ==> exists g :: g in after.groups && Returned(s, g, rq) && Target(m, g) == Err(r.error))
      && (r.Ok? ==> forall q :: q in r.value <==> exists g :: g in after.groups && Returned(s, g, rq) && Target(m, g) == Ok(q))
      && (r.Ok? ==> forall q :: q in r.value ==> r.value[q] in after.groups && Returned(s, r.value[q], rq) && Target(m, r.value[q]) == Ok(q))
  {
    var normal := Normalized(queries, normalize);
    var resultQueries;
    starts, resultQueries := SiteStarts(s, before, normal);
    var rows := SelectChunked(after.groups, (g: StoredGroup) => g.domain == s.domain && g.regionId == s.regionId, (g: StoredGroup) => g.query, resultQueries);
    var mapper := Mapper(normal, queries);
    r := FileGroups(rows, mapper);
    ghost var rq := ResultQueries(s, before, normal);
    assert forall g :: g in rows <==> g in after.groups && Returned(s, g, rq);
  }

  /** The lookups of `get_domain_groups` on the store before the download: the site queries
      still to download, from page 0, and the queries whose groups it returns. */
  method SiteStarts(s: Search, before: Store, normal: seq<string>) returns (starts: seq<(string, int)>, resultQueries: seq<string>)
    ensures StartQueries(starts) == SiteToFetch(s, before, normal)
    ensures OnceEach(starts) && forall i :: 0 <= i < |starts| ==> starts[i].1 == 0
    ensures (set q | q in resultQueries) == ResultQueries(s, before, normal)
  {
    var hitRows := SelectChunked(before.groups, g => DomainHit(s, g), (g: StoredGroup) => g.query, normal);
    var found := set g | g in hitRows :: g.query;
    assert found == FoundQueries(s, before, set q | q in normal);
    var notFound := (set q | q in normal) - found;
    var plain := Enumerate(notFound);
    var site := seq(|plain|, i requires 0 <= i < |plain| => SiteQuery(s.domain, plain[i]));
    var siteSet := set q | q in site;
    assert siteSet == set q | q in notFound :: SiteQuery(s.domain, q) by {
      forall q | q in notFound ensures SiteQuery(s.domain, q) in siteSet {
        var i :| 0 <= i < |plain| && plain[i] == q;
        assert site[i] == SiteQuery(s.domain, q);
      }
    }
    var siteRows := SelectChunked(before.groups, g => DomainHit(s, g), (g: StoredGroup) => g.query, site);
    var foundSite := set g | g in siteRows :: g.query;
    assert foundSite == FoundQueries(s, before, siteSet);
    var pending := Enumerate(siteSet - foundSite);
    starts := seq(|pending|, i requires 0 <= i < |pending| => (pending[i], 0));
    forall q | q in siteSet - foundSite ensures q in StartQueries(starts) {
      var i :| 0 <= i < |pending| && pending[i] == q;
      assert starts[i].0 == q;
    }
    var foundList := Enumerate(found);
    resultQueries := foundList + site;
  }

  /** The loop of `get_domain_groups` over the groups read: each filed under the caller's
      query it maps back to, the first one that does not map back raising. */
  method FileGroups(rows: seq<StoredGroup>, mapper: map<string, string>) returns (r: Result<map<string, StoredGroup>, SearchError>)
    ensures r.Err? <==> exists g :: g in rows && Target(mapper, g).Err?
    ensures r.Err? ==> exists g :: g in rows && Target(mapper, g) == Err(r.error)
    ensures r.Ok? ==> forall q :: q in r.value <==> exists g :: g in rows && Target(mapper, g) == Ok(q)
    ensures r.Ok? ==> forall q :: q in r.value ==> r.value[q] in rows && Target(mapper, r.value[q]) == Ok(q)
  {
    var result: map<string, StoredGroup> := map[];
    var k := 0;
    while k < |rows|
      invariant 0 <= k <= |rows|
      invariant forall j :: 0 <= j < k ==> Target(mapper, rows[j]).Ok?
      invariant forall q :: q in result <==> exists j :: 0 <= j < k && Target(mapper, rows[j]) == Ok(q)
      invariant forall q :: q in result ==> result[q] in rows[..k] && Target(mapper, result[q]) == Ok(q)
    {
      var t := Target(mapper, rows[k]);
      if t.Err? {
        assert rows[k] in rows;
        return Err(t.error);
      }
      result := result[t.value := rows[k]];
      k := k + 1;
    }
    assert rows[..|rows|] == rows;
    forall g | g in rows ensures Target(mapper, g).Ok? {
      var j :| 0 <= j < |rows| && rows[j] == g;
    }
    forall q | exists g :: g in rows && Target(mapper, g) == Ok(q) ensures q in result {
      var g :| g in rows && Target(mapper, g) == Ok(q);
      var j :| 0 <= j < |rows| && rows[j] == g;
    }
    r := Ok(result);
  }
}
