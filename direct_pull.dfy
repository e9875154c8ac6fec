/** Loading one account from Direct (`load_account` and the helpers it calls in
    direct/api_manager.py): the dictionary and campaign change checks, which ids changed or
    disappeared since the saved checkpoint, whether everything is reloaded or only what
    changed, the saved checkpoints, the date range of the statistics report and the rows kept
    from it. Direct is a fixed function from requests to answers; the loads themselves
    (`get_campaigns`, ... and their `sync_response`) are recorded as events. */
module DirectPull {
  import opened Wrappers
  import opened Strings
  import opened Dates
  import opened DirectCodec
  import DirectModels

  // ---------------------------------------------------------------- Direct and the account

  /** The three kinds of object whose existence is checked. */
  datatype Kind = CampaignKind | GroupKind | AdKind

  /** The answer of `checkDictionaries_changes`: `RegionsChanged` and the server's
      `Timestamp`. */
  datatype DictionaryChanges = DictionaryChanges(regionsChanged: string, timestamp: string)

  /** One entry of the `Campaigns` list of `checkCampaigns_changes`. */
  datatype CampaignChange = CampaignChange(id: int, changesIn: seq<string>)

  /** The answer of `checkCampaigns_changes`; a missing `Campaigns` list is empty. */
  datatype CampaignChanges = CampaignChanges(timestamp: string, campaigns: seq<CampaignChange>)

  /** `Modified` of `check_changes` on campaigns: group and ad ids, missing lists empty. */
  datatype Modified = Modified(groups: seq<int>, ads: seq<int>)

  /** Direct's answers: the dictionary check (with or without a timestamp), the campaign
      check, the child check of some campaigns, and the `NotFound` ids of an existence check
      (a missing list is empty). */
  datatype Remote = Remote(
    dictionaries: Option<string> -> DictionaryChanges,
    campaigns: string -> CampaignChanges,
    children: (seq<int>, string) -> Modified,
    notFound: (Kind, seq<int>, string) -> seq<int>)

  /** The `Account` row: its login, its two change checkpoints as the text they are saved
      with, and the time of its last synchronisation. */
  datatype Account = Account(login: string, lastCampaignsChanges: Option<string>,
                             lastDictionariesChanges: Option<string>, syncTime: Option<int>)

  /** The ids in the store, of every account, that the existence checks send. */
  datatype Known = Known(campaigns: seq<int>, groups: seq<int>, ads: seq<int>)

  /** What a load does, in order: requests to Direct, loads of objects into the store,
      deletions, saves of the account and the statistics. */
  datatype Event =
    | CheckDictionaries(timestamp: Option<string>)
    | LoadRegions
    | CheckCampaigns(since: string)
    | CheckChildren(campaignIds: seq<int>, since: string)
    | CheckExisting(kind: Kind, ids: seq<int>, since: string)
    | DeleteAccountCampaigns
    | LoadCampaigns(only: Option<seq<int>>)
    | LoadGroups(campaignIds: seq<int>, groupIds: seq<int>)
    | LoadAds(campaignIds: seq<int>, adIds: seq<int>)
    | LoadKeywords(campaignIds: seq<int>, groupIds: seq<int>)
    | DeleteRows(kind: Kind, ids: seq<int>)
    | SaveAccount
    | LoadStats

  /** `s[:-1]`. */
  function DropLast(s: string): (r: string)
    ensures s == [] ==> r == []
    ensures s != [] ==> r + [s[|s| - 1]] == s
  {
    if s == [] then [] else s[..|s| - 1]
  }

  /** A checkpoint saved as `timestamp[:-1]` and sent back as `isoformat() + 'Z'` is the
      server's timestamp again, when it ends with `Z` as Direct's do. */
  lemma CheckpointRoundTrip(timestamp: string)
    requires timestamp != [] && timestamp[|timestamp| - 1] == 'Z'
    ensures DropLast(timestamp) + "Z" == timestamp
  {
    assert DropLast(timestamp) + [timestamp[|timestamp| - 1]] == timestamp;
  }

  // ---------------------------------------------------------------- sync_dictionaries

  /** The timestamp the dictionary check sends: none without a checkpoint. */
  function DictionariesSince(acc: Account): Option<string> {
    match acc.lastDictionariesChanges
    case None => None
    case Some(t) => Some(t + "Z")
  }

  /** The regions are reloaded without a checkpoint, or when Direct says they changed. */
  predicate RegionsReloaded(acc: Account, remote: Remote) {
    acc.lastDictionariesChanges.None? || remote.dictionaries(DictionariesSince(acc)).regionsChanged == "YES"
  }

  /** What `sync_dictionaries` does. */
  function DictionaryEvents(acc: Account, remote: Remote): seq<Event> {
    [CheckDictionaries(DictionariesSince(acc))] + (if RegionsReloaded(acc, remote) then [LoadRegions] else []) + [SaveAccount]
  }

  /** The account once `sync_dictionaries` saved it. */
  function AfterDictionaries(acc: Account, remote: Remote): Account {
    acc.(lastDictionariesChanges := Some(DropLast(remote.dictionaries(DictionariesSince(acc)).timestamp)))
  }

  /** `sync_dictionaries`: one check, the regions loaded when needed, the server's timestamp
      saved as the next checkpoint; the next check sends that timestamp back. */
  lemma DictionariesMeaning(acc: Account, remote: Remote)
    ensures var ev := DictionaryEvents(acc, remote);
      && ev[0] == CheckDictionaries(DictionariesSince(acc))
      && (acc.lastDictionariesChanges.None? <==> ev[0].timestamp.None?)
      && (LoadRegions in ev <==> acc.lastDictionariesChanges.None? || remote.dictionaries(DictionariesSince(acc)).regionsChanged == "YES")
      && AfterDictionaries(acc, remote).(lastDictionariesChanges := acc.lastDictionariesChanges) == acc
    ensures var ts := remote.dictionaries(DictionariesSince(acc)).timestamp;
      ts != [] && ts[|ts| - 1] == 'Z' ==> DictionariesSince(AfterDictionaries(acc, remote)) == Some(ts)
  {
    var ts := remote.dictionaries(DictionariesSince(acc)).timestamp;
    if ts != [] && ts[|ts| - 1] == 'Z' {
      CheckpointRoundTrip(ts);
    }
  }

  // ---------------------------------------------------------------- get_changed_ids

  /** The ids of the change records whose `ChangesIn` holds the tag, in order. */
  function Tagged(cs: seq<CampaignChange>, tag: string): (r: seq<int>)
    ensures |r| <= |cs|
    ensures forall x :: x in r <==> exists c :: c in cs && tag in c.changesIn && c.id == x
  {
    if cs == [] then []
    else
      var last := cs[|cs| - 1];
      var rest := Tagged(cs[..|cs| - 1], tag);
      assert forall c :: c in cs <==> c in cs[..|cs| - 1] || c == last;
      rest + (if tag in last.changesIn then [last.id] else [])
  }

  /** The `NotFound` ids of an existence check, which is skipped for no ids. */
  function Missing(remote: Remote, kind: Kind, ids: seq<int>, since: string): seq<int> {
    if ids == [] then [] else remote.notFound(kind, ids, since)
  }

  /** The existence check, when there are ids to check. */
  function CheckIf(kind: Kind, ids: seq<int>, since: string): seq<Event> {
    if ids == [] then [] else [CheckExisting(kind, ids, since)]
  }

  datatype Ids = Ids(campaigns: seq<int>, groups: seq<int>, ads: seq<int>)

  /** What `get_changed_ids` returns: only the server's time without a checkpoint, otherwise
      the changed and the deleted ids and the server's time. */
  datatype Changes =
    | TimestampOnly(timestamp: string)
    | Since(changed: Ids, deleted: Ids, timestamp: string)

  /** The campaigns whose children changed, and what the child check answers: nothing is
      asked for no campaigns. */
  function ChildIds(remote: Remote, cs: seq<CampaignChange>, since: string): Modified {
    var parents := Tagged(cs, "CHILDREN");
    if parents == [] then Modified([], []) else remote.children(parents, since)
  }

  function ChangedIds(acc: Account, remote: Remote, known: Known): Changes {
    match acc.lastCampaignsChanges
    case None => TimestampOnly(remote.dictionaries(None).timestamp)
    case Some(t) =>
      var since := t + "Z";
      var cc := remote.campaigns(since);
      var m := ChildIds(remote, cc.campaigns, since);
      Since(Ids(Tagged(cc.campaigns, "SELF"), m.groups, m.ads),
            Ids(Missing(remote, CampaignKind, known.campaigns, since),
                Missing(remote, GroupKind, known.groups, since),
                Missing(remote, AdKind, known.ads, since)),
            cc.timestamp)
  }

  /** The requests `get_changed_ids` sends. */
  function ChangeEvents(acc: Account, remote: Remote, known: Known): seq<Event> {
    match acc.lastCampaignsChanges
    case None => [CheckDictionaries(None)]
    case Some(t) =>
      var since := t + "Z";
      var parents := Tagged(remote.campaigns(since).campaigns, "CHILDREN");
      [CheckCampaigns(since)] + (if parents == [] then [] else [CheckChildren(parents, since)])
      + CheckIf(CampaignKind, known.campaigns, since) + CheckIf(GroupKind, known.groups, since)
      + CheckIf(AdKind, known.ads, since)
  }

  /** Without a checkpoint `get_changed_ids` asks for the server's time only, and returns
      only that. */
  lemma NoCheckpointTimestampOnly(acc: Account, remote: Remote, known: Known)
    requires acc.lastCampaignsChanges.None?
    ensures ChangedIds(acc, remote, known).TimestampOnly?
    ensures ChangedIds(acc, remote, known).timestamp == remote.dictionaries(None).timestamp
    ensures ChangeEvents(acc, remote, known) == [CheckDictionaries(None)]
  {
  }

  /** With a checkpoint: a campaign is changed itself exactly when `SELF` is in its
      `ChangesIn`, and its children are asked about exactly when `CHILDREN` is; both can hold.
      The child check is sent only for some campaigns, and without it no group or ad is
      changed. */
  lemma ChangesSorted(acc: Account, remote: Remote, known: Known)
    requires acc.lastCampaignsChanges.Some?
    ensures var since := acc.lastCampaignsChanges.value + "Z";
      var cs := remote.campaigns(since).campaigns;
      var r := ChangedIds(acc, remote, known);
      var ev := ChangeEvents(acc, remote, known);
      && r.Since? && r.timestamp == remote.campaigns(since).timestamp
      && (forall x :: x in r.changed.campaigns <==> exists c :: c in cs && "SELF" in c.changesIn && c.id == x)
      && (forall x :: x in Tagged(cs, "CHILDREN") <==> exists c :: c in cs && "CHILDREN" in c.changesIn && c.id == x)
      && ((exists e :: e in ev && e.CheckChildren?) <==> Tagged(cs, "CHILDREN") != [])
      && (Tagged(cs, "CHILDREN") == [] ==> r.changed.groups == [] && r.changed.ads == [])
      && (Tagged(cs, "CHILDREN") != [] ==> r.changed.groups == remote.children(Tagged(cs, "CHILDREN"), since).groups)
  {
    var since := acc.lastCampaignsChanges.value + "Z";
    var parents := Tagged(remote.campaigns(since).campaigns, "CHILDREN");
    var ev := ChangeEvents(acc, remote, known);
    if parents != [] {
      assert ev[1] == CheckChildren(parents, since);
    }
  }

  /** With a checkpoint: the deleted ids of each kind are the `NotFound` ids of its existence
      check over the known ids, and the check is sent exactly when there are known ids. */
  lemma DeletedAreNotFound(acc: Account, remote: Remote, known: Known, kind: Kind)
    requires acc.lastCampaignsChanges.Some?
    ensures var since := acc.lastCampaignsChanges.value + "Z";
      var ids := match kind case CampaignKind => known.campaigns case GroupKind => known.groups case AdKind => known.ads;
      var deleted := ChangedIds(acc, remote, known).deleted;
      && (match kind case CampaignKind => deleted.campaigns case GroupKind => deleted.groups case AdKind => deleted.ads)
           == (if ids == [] then [] else remote.notFound(kind, ids, since))
      && (CheckExisting(kind, ids, since) in ChangeEvents(acc, remote, known) <==> ids != [])
  {
  }

  // ---------------------------------------------------------------- load_account

  /** `get_ad_groups`, `get_text_ads`, `get_keywords`: nothing when given neither campaigns
      nor ids. */
  function LoadIf(e: Event): seq<Event>
    requires e.LoadGroups? || e.LoadAds? || e.LoadKeywords?
  {
    match e
    case LoadGroups(c, ids) => if c == [] && ids == [] then [] else [e]
    case LoadAds(c, ids) => if c == [] && ids == [] then [] else [e]
    case LoadKeywords(c, ids) => if c == [] && ids == [] then [] else [e]
  }

  /** The loads and deletions of `load_account` once the changes are known; `campaignIds` is
      what the store holds for the account once the campaigns are loaded. */
  function LoadEvents(changes: Changes, campaignIds: seq<int>): seq<Event> {
    match changes
    case TimestampOnly(_) =>
      [DeleteAccountCampaigns, LoadCampaigns(None)]
      + LoadIf(LoadGroups(campaignIds, [])) + LoadIf(LoadAds(campaignIds, [])) + LoadIf(LoadKeywords(campaignIds, []))
    case Since(changed, deleted, _) =>
      (if changed.campaigns == [] then [] else [LoadCampaigns(Some(changed.campaigns))])
      + LoadIf(LoadGroups(campaignIds, changed.groups)) + LoadIf(LoadAds(campaignIds, changed.ads))
      + LoadIf(LoadKeywords(campaignIds, changed.groups))
      + [DeleteRows(AdKind, deleted.ads), DeleteRows(GroupKind, deleted.groups), DeleteRows(CampaignKind, deleted.campaigns)]
  }

  /** Without a checkpoint everything of the account is deleted and then loaded again, and
      nothing is deleted by id. With one, nothing is deleted wholesale, the changed campaigns
      are loaded, and the deleted ads, then groups, then campaigns are deleted, last; which
      groups, ads and keywords are loaded is `LoadEventsChildren`. */
  lemma LoadEventsMeaning(changes: Changes, campaignIds: seq<int>)
    ensures var ev := LoadEvents(changes, campaignIds);
      && (changes.TimestampOnly? ==>
            && ev[..2] == [DeleteAccountCampaigns, LoadCampaigns(None)]
            && (forall e :: e in ev ==> !e.DeleteRows?)
            && (campaignIds != [] ==> LoadGroups(campaignIds, []) in ev && LoadAds(campaignIds, []) in ev
                                      && LoadKeywords(campaignIds, []) in ev))
      && (changes.Since? ==>
            && DeleteAccountCampaigns !in ev && LoadCampaigns(None) !in ev
            && (LoadCampaigns(Some(changes.changed.campaigns)) in ev <==> changes.changed.campaigns != [])
            && |ev| >= 3
            && ev[|ev| - 3..] == [DeleteRows(AdKind, changes.deleted.ads), DeleteRows(GroupKind, changes.deleted.groups),
                                  DeleteRows(CampaignKind, changes.deleted.campaigns)])
  {
    var ev := LoadEvents(changes, campaignIds);
    if changes.TimestampOnly? && campaignIds != [] {
      assert ev == [DeleteAccountCampaigns, LoadCampaigns(None), LoadGroups(campaignIds, []), LoadAds(campaignIds, []),
                    LoadKeywords(campaignIds, [])];
    }
    if changes.Since? {
      var changed := changes.changed;
      var c := if changed.campaigns == [] then [] else [LoadCampaigns(Some(changed.campaigns))];
      var g, a, k := LoadIf(LoadGroups(campaignIds, changed.groups)), LoadIf(LoadAds(campaignIds, changed.ads)),
                     LoadIf(LoadKeywords(campaignIds, changed.groups));
      var d := [DeleteRows(AdKind, changes.deleted.ads), DeleteRows(GroupKind, changes.deleted.groups),
                DeleteRows(CampaignKind, changes.deleted.campaigns)];
      assert ev == c + g + a + k + d;
      LoadIfMeaning(LoadGroups(campaignIds, changed.groups));
      LoadIfMeaning(LoadAds(campaignIds, changed.ads));
      LoadIfMeaning(LoadKeywords(campaignIds, changed.groups));
      InFive(c, g, a, k, d, DeleteAccountCampaigns);
      InFive(c, g, a, k, d, LoadCampaigns(None));
      InFive(c, g, a, k, d, LoadCampaigns(Some(changed.campaigns)));
    }
  }

  /** With a checkpoint, the groups, ads and keywords of the account's campaigns are loaded
      restricted to the changed ids, and all of them when no id of that kind changed (an empty
      id list puts no filter on the request); each is loaded once, and not at all only when
      there are neither campaigns nor changed ids. */
  lemma LoadEventsChildren(changes: Changes, campaignIds: seq<int>)
    requires changes.Since?
    ensures var ev := LoadEvents(changes, campaignIds);
      && (LoadGroups(campaignIds, changes.changed.groups) in ev <==> campaignIds != [] || changes.changed.groups != [])
      && (LoadAds(campaignIds, changes.changed.ads) in ev <==> campaignIds != [] || changes.changed.ads != [])
      && (LoadKeywords(campaignIds, changes.changed.groups) in ev <==> campaignIds != [] || changes.changed.groups != [])
      && (forall e :: e in ev && e.LoadGroups? ==> e == LoadGroups(campaignIds, changes.changed.groups))
      && (forall e :: e in ev && e.LoadAds? ==> e == LoadAds(campaignIds, changes.changed.ads))
      && (forall e :: e in ev && e.LoadKeywords? ==> e == LoadKeywords(campaignIds, changes.changed.groups))
  {
    var changed := changes.changed;
    var c := if changed.campaigns == [] then [] else [LoadCampaigns(Some(changed.campaigns))];
    var g, a, k := LoadIf(LoadGroups(campaignIds, changed.groups)), LoadIf(LoadAds(campaignIds, changed.ads)),
                   LoadIf(LoadKeywords(campaignIds, changed.groups));
    var d := [DeleteRows(AdKind, changes.deleted.ads), DeleteRows(GroupKind, changes.deleted.groups),
              DeleteRows(CampaignKind, changes.deleted.campaigns)];
    var ev := c + g + a + k + d;
    assert LoadEvents(changes, campaignIds) == ev;
    LoadIfMeaning(LoadGroups(campaignIds, changed.groups));
    LoadIfMeaning(LoadAds(campaignIds, changed.ads));
    LoadIfMeaning(LoadKeywords(campaignIds, changed.groups));
    forall e | e in ev
      ensures && (e.LoadGroups? ==> e in g) && (e.LoadAds? ==> e in a) && (e.LoadKeywords? ==> e in k)
    {
      InFive(c, g, a, k, d, e);
    }
    InFive(c, g, a, k, d, LoadGroups(campaignIds, changed.groups));
    InFive(c, g, a, k, d, LoadAds(campaignIds, changed.ads));
    InFive(c, g, a, k, d, LoadKeywords(campaignIds, changed.groups));
  }

  /** Membership in five sequences put end to end. */
  lemma InFive<T>(c: seq<T>, g: seq<T>, a: seq<T>, k: seq<T>, d: seq<T>, e: T)
    ensures e in c + g + a + k + d <==> e in c || e in g || e in a || e in k || e in d
  {
  }

  /** `LoadIf` keeps its load or drops it, and drops it only when the load names neither
      campaigns nor ids. */
  lemma LoadIfMeaning(e: Event)
    requires e.LoadGroups? || e.LoadAds? || e.LoadKeywords?
    ensures forall x :: x in LoadIf(e) ==> x == e
    ensures e in LoadIf(e) <==> match e
                                case LoadGroups(c, ids) => c != [] || ids != []
                                case LoadAds(c, ids) => c != [] || ids != []
                                case LoadKeywords(c, ids) => c != [] || ids != []
  {
  }

  /** The account once `load_account` saved it: the server's time of the change check,
      without its `Z`, and the synchronisation time. */
  function AfterLoad(acc: Account, changes: Changes, now: int): Account {
    acc.(lastCampaignsChanges := Some(DropLast(changes.timestamp)), syncTime := Some(now))
  }

  /** Everything `load_account` does, in order. */
  function LoadAccountEvents(acc: Account, remote: Remote, known: Known, campaignIds: seq<int>, sandbox: bool): seq<Event> {
    var acc1 := AfterDictionaries(acc, remote);
    DictionaryEvents(acc, remote) + ChangeEvents(acc1, remote, known)
    + LoadEvents(ChangedIds(acc1, remote, known), campaignIds)
    + [SaveAccount] + (if sandbox then [] else [LoadStats])
  }

  /** `load_account`: the dictionaries first, the statistics last and only outside the
      sandbox; the next change check sends the server's time of this one. */
  lemma LoadAccountMeaning(acc: Account, remote: Remote, known: Known, campaignIds: seq<int>, sandbox: bool, now: int)
    ensures var ev := LoadAccountEvents(acc, remote, known, campaignIds, sandbox);
      && ev[0] == CheckDictionaries(DictionariesSince(acc))
      && (LoadStats in ev <==> !sandbox)
      && (!sandbox ==> ev[|ev| - 1] == LoadStats)
    ensures var changes := ChangedIds(AfterDictionaries(acc, remote), remote, known);
      var acc' := AfterLoad(AfterDictionaries(acc, remote), changes, now);
      && acc'.login == acc.login && acc'.syncTime == Some(now)
      && (changes.timestamp != [] && changes.timestamp[|changes.timestamp| - 1] == 'Z' ==>
            acc'.lastCampaignsChanges.value + "Z" == changes.timestamp)
  {
    var changes := ChangedIds(AfterDictionaries(acc, remote), remote, known);
    if changes.timestamp != [] && changes.timestamp[|changes.timestamp| - 1] == 'Z' {
      CheckpointRoundTrip(changes.timestamp);
    }
    var ev := LoadAccountEvents(acc, remote, known, campaignIds, sandbox);
    if LoadStats in ev && sandbox {
      var i :| 0 <= i < |ev| && ev[i] == LoadStats;
      LoadStatsOnlyLast(acc, remote, known, campaignIds, i);
    }
  }

  /** No event before the statistics is the statistics. */
  lemma LoadStatsOnlyLast(acc: Account, remote: Remote, known: Known, campaignIds: seq<int>, i: nat)
    requires i < |LoadAccountEvents(acc, remote, known, campaignIds, true)|
    ensures LoadAccountEvents(acc, remote, known, campaignIds, true)[i] != LoadStats
  {
    var acc1 := AfterDictionaries(acc, remote);
    var a := DictionaryEvents(acc, remote);
    var b := ChangeEvents(acc1, remote, known);
    var c := LoadEvents(ChangedIds(acc1, remote, known), campaignIds);
    var ev := a + b + c + [SaveAccount];
    assert LoadAccountEvents(acc, remote, known, campaignIds, true) == ev;
    ChangeEventsNoStats(acc1, remote, known);
    LoadEventsNoStats(ChangedIds(acc1, remote, known), campaignIds);
    assert LoadStats !in a;
  }

  lemma ChangeEventsNoStats(acc: Account, remote: Remote, known: Known)
    ensures LoadStats !in ChangeEvents(acc, remote, known)
  {
  }

  lemma LoadEventsNoStats(changes: Changes, campaignIds: seq<int>)
    ensures LoadStats !in LoadEvents(changes, campaignIds)
  {
  }

  // ---------------------------------------------------------------- statistics

  /** The `DateRangeType` of the report and, for a custom range, its first and last day. */
  datatype DateRange = AllTime | Auto | CustomDate(from: int, to: int)

  /** `_calc_stats_params`' range: everything without statistics; the automatic range when
      there are statistics of the day before yesterday or later; otherwise from a week before
      the last statistics to yesterday, so a week of corrections is read again. */
  function StatsRange(lastStat: Option<int>, today: int): (r: DateRange)
    ensures r == AllTime <==> lastStat.None?
    ensures r == Auto <==> lastStat.Some? && lastStat.value >= today - 2
    ensures r.CustomDate? ==> r.from == lastStat.value - 7 && r.to == today - 1
    ensures r.CustomDate? ==> r.from <= lastStat.value < r.to && r.to - r.from >= 8
  {
    var yesterday := today - 1;
    match lastStat
    case None => AllTime
    case Some(last) => if last >= yesterday - 1 then Auto else CustomDate(last - 7, yesterday)
  }

  /** The parameters of the report request that depend on the account: its campaigns, the
      range type and, for a custom range only, its first and last day in ISO form. */
  datatype ReportParams = ReportParams(campaignIds: seq<int>, rangeType: string, dateFrom: Option<string>, dateTo: Option<string>)

  function StatsParams(lastStat: Option<int>, today: int, campaignIds: seq<int>): (p: ReportParams)
    ensures p.campaignIds == campaignIds
    ensures p.rangeType in {"ALL_TIME", "AUTO", "CUSTOM_DATE"}
    ensures p.dateFrom.Some? <==> p.rangeType == "CUSTOM_DATE"
    ensures p.dateTo.Some? <==> p.rangeType == "CUSTOM_DATE"
  {
    match StatsRange(lastStat, today)
    case AllTime => ReportParams(campaignIds, "ALL_TIME", None, None)
    case Auto => ReportParams(campaignIds, "AUTO", None, None)
    case CustomDate(from, to) => ReportParams(campaignIds, "CUSTOM_DATE", Some(IsoFormat(from)), Some(IsoFormat(to)))
  }

  /** The range type sent is the one chosen, and a custom range is sent as its two days. */
  lemma StatsParamsMeaning(lastStat: Option<int>, today: int, campaignIds: seq<int>)
    ensures var p := StatsParams(lastStat, today, campaignIds);
      && (p.rangeType == "ALL_TIME" <==> lastStat.None?)
      && (p.rangeType == "AUTO" <==> lastStat.Some? && lastStat.value >= today - 2)
      && (p.rangeType == "CUSTOM_DATE" ==>
            p.dateFrom == Some(IsoFormat(lastStat.value - 7)) && p.dateTo == Some(IsoFormat(today - 1)))
  {
  }

  /** The day of a statistics row; comparing anything else with a date raises `TypeError`. */
  function StatDay(s: Decoded): Result<int, CodecError> {
    match Attr(s.attrs, "date")
    case Date(d) => Ok(d)
    case _ => Err(TypeError)
  }

  /** One row of the report deserialized, with its day. */
  function RowStat(row: Dict): Result<(Decoded, int), CodecError> {
    var stat :- DirectModels.StatsDeserialize(row);
    var day :- StatDay(stat);
    Ok((stat, day))
  }

  /** The rows of a report, each decoded with `decode`. */
  function Rows(report: seq<Dict>, decode: Dict -> Result<(Decoded, int), CodecError>): (rs: seq<Result<(Decoded, int), CodecError>>)
    ensures |rs| == |report|
  {
    if report == [] then [] else Rows(report[..|report| - 1], decode) + [decode(report[|report| - 1])]
  }

  /** The `i`-th row decoded is the `i`-th row of the report decoded. */
  lemma {:induction false} RowsAt(report: seq<Dict>, decode: Dict -> Result<(Decoded, int), CodecError>)
    ensures forall i :: 0 <= i < |report| ==> Rows(report, decode)[i] == decode(report[i])
    decreases |report|
  {
    if report != [] {
      var init := report[..|report| - 1];
      RowsAt(init, decode);
      assert forall i :: 0 <= i < |init| ==> init[i] == report[i];
    }
  }

  /** What is kept of deserialized rows: the first failure stops it, and the rows dated today
      or later are dropped. */
  function Retained(rs: seq<Result<(Decoded, int), CodecError>>, today: int): Result<seq<Decoded>, CodecError> {
    if rs == [] then Ok([])
    else
      var before :- Retained(rs[..|rs| - 1], today);
      var stat :- rs[|rs| - 1];
      if stat.1 >= today then Ok(before) else Ok(before + [stat.0])
  }

  /** `parse_direct_report`. */
  function ParsedReport(report: seq<Dict>, today: int): Result<seq<Decoded>, CodecError> {
    Retained(Rows(report, RowStat), today)
  }

  /** A deserialized row is kept when it is a statistic dated before today. */
  predicate KeptRow(r: Result<(Decoded, int), CodecError>, today: int, s: Decoded) {
    r.Ok? && r.value.0 == s && r.value.1 < today
  }

  /** Keeping fails exactly when a row failed, and keeps at most one statistic per row. */
  lemma {:induction false} KeptFails(rs: seq<Result<(Decoded, int), CodecError>>, today: int)
    ensures var r := Retained(rs, today);
      && (r.Ok? <==> forall i :: 0 <= i < |rs| ==> rs[i].Ok?)
      && (r.Ok? ==> |r.value| <= |rs|)
    decreases |rs|
  {
    if rs != [] {
      var init := rs[..|rs| - 1];
      KeptFails(init, today);
      assert forall i :: 0 <= i < |init| ==> init[i] == rs[i];
    }
  }

  /** What is kept is exactly the statistics of the rows dated before today. */
  lemma {:induction false} KeptKeeps(rs: seq<Result<(Decoded, int), CodecError>>, today: int)
    ensures var r := Retained(rs, today);
      r.Ok? ==> forall s :: s in r.value <==> exists i :: 0 <= i < |rs| && KeptRow(rs[i], today, s)
    decreases |rs|
  {
    var r := Retained(rs, today);
    if rs != [] && r.Ok? {
      var init := rs[..|rs| - 1];
      KeptKeeps(init, today);
      var before := Retained(init, today).value;
      var last := rs[|rs| - 1].value;
      assert r.value == if last.1 >= today then before else before + [last.0];
      forall s ensures s in r.value <==> exists i :: 0 <= i < |rs| && KeptRow(rs[i], today, s) {
        if s in r.value && s !in before {
          assert KeptRow(rs[|rs| - 1], today, s);
        }
        if s in before {
          var i :| 0 <= i < |init| && KeptRow(init[i], today, s);
          assert rs[i] == init[i];
        }
        if exists i :: 0 <= i < |rs| && KeptRow(rs[i], today, s) {
          var i :| 0 <= i < |rs| && KeptRow(rs[i], today, s);
          if i < |init| {
            assert KeptRow(init[i], today, s);
          }
        }
      }
    }
  }

  /** The parsed report fails exactly when a row does not deserialize to a dated statistic;
      otherwise it holds exactly the statistics of the rows dated before today. */
  lemma ParsedReportMeaning(report: seq<Dict>, today: int)
    ensures var r := ParsedReport(report, today);
      && (r.Ok? <==> forall i :: 0 <= i < |report| ==> RowStat(report[i]).Ok?)
      && (r.Ok? ==> |r.value| <= |report|)
      && (r.Ok? ==> forall s :: s in r.value <==> exists i :: 0 <= i < |report| && KeptRow(RowStat(report[i]), today, s))
  {
    KeptFails(Rows(report, RowStat), today);
    KeptKeeps(Rows(report, RowStat), today);
    RowsAt(report, RowStat);
  }

  /** A criterion created for a statistic whose criterion is missing from the store. */
  datatype Criterion = Criterion(id: int, group: Value)

  /** `int(stat.criterion_id)`: the report's text parsed, an integer kept, anything else an
      error. */
  function CriterionId(s: Decoded): Result<int, CodecError> {
    match Attr(s.attrs, "criterion_id")
    case Int(i) => Ok(i)
    case Str(t) => if ParseInt(t).Some? then Ok(ParseInt(t).value) else Err(ValueError)
    case _ => Err(TypeError)
  }

  /** The criteria `_create_missed_criterions` creates: one per criterion id that is neither
      in the store nor already created, with the group of the first statistic naming it, in
      the order of first appearance. */
  function Missed(stats: seq<Decoded>, known: set<int>): Result<seq<Criterion>, CodecError> {
    if stats == [] then Ok([])
    else
      var k :- CriterionId(stats[0]);
      if k in known then Missed(stats[1..], known)
      else
        var rest :- Missed(stats[1..], known + {k});
        Ok([Criterion(k, Attr(stats[0].attrs, "group_id"))] + rest)
  }

  /** The ids of some criteria. */
  function CriterionIds(cs: seq<Criterion>): set<int> {
    set c | c in cs :: c.id
  }

  /** The `i`-th statistic is the first to name `c`'s id and has `c`'s group. */
  predicate FirstAt(stats: seq<Decoded>, c: Criterion, i: int) {
    && 0 <= i < |stats|
    && CriterionId(stats[i]) == Ok(c.id)
    && Attr(stats[i].attrs, "group_id") == c.group
    && forall j :: 0 <= j < i ==> CriterionId(stats[j]) != Ok(c.id)
  }

  predicate FirstNaming(stats: seq<Decoded>, c: Criterion) {
    exists i :: 0 <= i < |stats| && FirstAt(stats, c, i)
  }

  /** Every statistic's criterion ends up in the store: it was there, or exactly one criterion
      is created for it, with the group of the first statistic naming it; nothing already in
      the store is created. It fails exactly when some criterion id is no integer. */
  lemma {:induction false} MissedMeaning(stats: seq<Decoded>, known: set<int>)
    ensures var r := Missed(stats, known);
      && (r.Ok? <==> forall i :: 0 <= i < |stats| ==> CriterionId(stats[i]).Ok?)
      && (r.Ok? ==>
            && (forall i, j :: 0 <= i < j < |r.value| ==> r.value[i].id != r.value[j].id)
            && (forall c :: c in r.value ==> c.id !in known)
            && (forall i :: 0 <= i < |stats| ==> CriterionId(stats[i]).value in known + CriterionIds(r.value))
            && (forall c :: c in r.value ==> FirstNaming(stats, c)))
    decreases |stats|
  {
    if stats != [] {
      var tail := stats[1..];
      assert forall i :: 0 <= i < |tail| ==> tail[i] == stats[i + 1];
      var k := CriterionId(stats[0]);
      if k.Ok? {
        var known' := if k.value in known then known else known + {k.value};
        MissedMeaning(tail, known');
        var r := Missed(stats, known);
        if r.Ok? {
          var rest := Missed(tail, known').value;
          assert r.value == if k.value in known then rest else [Criterion(k.value, Attr(stats[0].attrs, "group_id"))] + rest;
          forall c | c in r.value
            ensures FirstNaming(stats, c)
          {
            if c in rest {
              var i :| 0 <= i < |tail| && FirstAt(tail, c, i);
              assert CriterionId(stats[0]) != Ok(c.id);
              assert FirstAt(stats, c, i + 1);
            } else {
              assert FirstAt(stats, c, 0);
            }
          }
        }
      }
    }
  }

  // ---------------------------------------------------------------- the API manager

  /** The loading half of the API manager: Direct's answers, the account being loaded
      (`self.account`) and what the load has done so far. */
  class Loader {
    const remote: Remote
    var account: Account
    var log: seq<Event>

    constructor(remote0: Remote, acc0: Account)
      ensures remote == remote0 && account == acc0 && log == []
    {
      remote := remote0;
      account := acc0;
      log := [];
    }

    /** `sync_dictionaries`. */
    method SyncDictionaries()
      modifies this
      ensures account == AfterDictionaries(old(account), remote)
      ensures log == old(log) + DictionaryEvents(old(account), remote)
    {
      var since := if account.lastDictionariesChanges.None? then None else Some(account.lastDictionariesChanges.value + "Z");
      var result := remote.dictionaries(since);
      log := log + [CheckDictionaries(since)];
      if since.None? || result.regionsChanged == "YES" {
        log := log + [LoadRegions];
      }
      account := account.(lastDictionariesChanges := Some(DropLast(result.timestamp)));
      log := log + [SaveAccount];
    }

    /** `get_changed_ids`; `known` are the ids of every campaign, group and ad in the store,
        of any account. */
    method GetChangedIds(known: Known) returns (changes: Changes)
      modifies this
      ensures account == old(account)
      ensures changes == ChangedIds(account, remote, known)
      ensures log == old(log) + ChangeEvents(account, remote, known)
    {
      if account.lastCampaignsChanges.None? {
        log := log + [CheckDictionaries(None)];
        return TimestampOnly(remote.dictionaries(None).timestamp);
      }
      var since := account.lastCampaignsChanges.value + "Z";
      var cc := remote.campaigns(since);
      log := log + [CheckCampaigns(since)];
      var selfIds, parents := SortChanges(cc.campaigns);
      var groups, ads := [], [];
      if parents != [] {
        log := log + [CheckChildren(parents, since)];
        var m := remote.children(parents, since);
        groups, ads := m.groups, m.ads;
      }
      ghost var asked := [CheckCampaigns(since)] + (if parents == [] then [] else [CheckChildren(parents, since)]);
      assert log == old(log) + asked;
      var deletedCampaigns := CheckExistence(CampaignKind, known.campaigns, since);
      var deletedGroups := CheckExistence(GroupKind, known.groups, since);
      var deletedAds := CheckExistence(AdKind, known.ads, since);
      changes := Since(Ids(selfIds, groups, ads), Ids(deletedCampaigns, deletedGroups, deletedAds), cc.timestamp);
      Concat4(old(log), asked, CheckIf(CampaignKind, known.campaigns, since), CheckIf(GroupKind, known.groups, since),
              CheckIf(AdKind, known.ads, since));
    }

    /** One existence check, skipped for no ids. */
    method CheckExistence(kind: Kind, ids: seq<int>, since: string) returns (deleted: seq<int>)
      modifies this
      ensures account == old(account)
      ensures deleted == Missing(remote, kind, ids, since)
      ensures log == old(log) + CheckIf(kind, ids, since)
    {
      if ids == [] {
        return [];
      }
      log := log + [CheckExisting(kind, ids, since)];
      deleted := remote.notFound(kind, ids, since);
    }

    /** `load_account`: `campaignIds` is what the store holds for the account once its
        campaigns are loaded, `now` the time saved as the synchronisation time. */
    method LoadAccount(acc: Account, known: Known, campaignIds: seq<int>, sandbox: bool, now: int)
      modifies this
      ensures account == AfterLoad(AfterDictionaries(acc, remote), ChangedIds(AfterDictionaries(acc, remote), remote, known), now)
      ensures log == old(log) + LoadAccountEvents(acc, remote, known, campaignIds, sandbox)
    {
      ghost var acc1 := AfterDictionaries(acc, remote);
      account := acc;
      SyncDictionaries();
      ghost var d := DictionaryEvents(acc, remote);
      var changes := GetChangedIds(known);
      ghost var c := ChangeEvents(acc1, remote, known);
      assert log == old(log) + d + c;
      Finish(changes, campaignIds, sandbox, now);
      Concat4(old(log), d, c, LoadEvents(changes, campaignIds), [SaveAccount] + (if sandbox then [] else [LoadStats]));
    }

    /** The end of `load_account`: the loads and deletions, the account saved with the new
        checkpoint, and the statistics outside the sandbox. */
    method Finish(changes: Changes, campaignIds: seq<int>, sandbox: bool, now: int)
      modifies this
      ensures account == AfterLoad(old(account), changes, now)
      ensures log == old(log) + LoadEvents(changes, campaignIds) + ([SaveAccount] + (if sandbox then [] else [LoadStats]))
    {
      log := log + LoadEvents(changes, campaignIds);
      account := account.(lastCampaignsChanges := Some(DropLast(changes.timestamp)), syncTime := Some(now));
      log := log + [SaveAccount];
      if !sandbox {
        log := log + [LoadStats];
      }
    }
  }

  /** `parse_direct_report`, every row deserialized as `DirectStats` statistics. */
  method ParseDirectReport(report: seq<Dict>, today: int) returns (r: Result<seq<Decoded>, CodecError>)
    ensures r == ParsedReport(report, today)
  {
    r := RetainRows(report, today, RowStat);
  }

  /** The loop of `parse_direct_report`, each row decoded with `decode`. */
  method RetainRows(report: seq<Dict>, today: int, decode: Dict -> Result<(Decoded, int), CodecError>)
    returns (r: Result<seq<Decoded>, CodecError>)
    ensures r == Retained(Rows(report, decode), today)
  {
    var stats := [];
    var i := 0;
    while i < |report|
      invariant 0 <= i <= |report|
      invariant Retained(Rows(report[..i], decode), today) == Ok(stats)
    {
      var stat := decode(report[i]);
      RowsSnoc(report, i, decode);
      if stat.Err? {
        NoRecovery(Rows(report, decode), today, i + 1);
        return Err(stat.error);
      }
      if stat.value.1 < today {
        stats := stats + [stat.value.0];
      }
      i := i + 1;
    }
    assert report[..|report|] == report;
    return Ok(stats);
  }

  /** The first `i + 1` rows deserialized are the first `i` followed by the `i`-th. */
  lemma RowsSnoc(report: seq<Dict>, i: nat, decode: Dict -> Result<(Decoded, int), CodecError>)
    requires i < |report|
    ensures Rows(report[..i + 1], decode) == Rows(report[..i], decode) + [decode(report[i])]
    ensures Rows(report[..i + 1], decode) == Rows(report, decode)[..i + 1]
  {
    assert report[..i + 1][..i] == report[..i];
    RowsPrefix(report, i + 1, decode);
  }

  lemma {:induction false} RowsPrefix(report: seq<Dict>, k: nat, decode: Dict -> Result<(Decoded, int), CodecError>)
    requires k <= |report|
    ensures Rows(report[..k], decode) == Rows(report, decode)[..k]
    decreases |report|
  {
    if k < |report| {
      var init := report[..|report| - 1];
      assert init[..k] == report[..k];
      RowsPrefix(init, k, decode);
    } else {
      assert report[..k] == report;
    }
  }

  /** A failure in the first `k` rows is the failure of all of them. */
  lemma {:induction false} NoRecovery(rs: seq<Result<(Decoded, int), CodecError>>, today: int, k: nat)
    requires k <= |rs| && Retained(rs[..k], today).Err?
    ensures Retained(rs, today) == Retained(rs[..k], today)
    decreases |rs| - k
  {
    if k < |rs| {
      assert rs[..k + 1][..k] == rs[..k];
      NoRecovery(rs, today, k + 1);
    } else {
      assert rs[..k] == rs;
    }
  }

  /** The loop of `_create_missed_criterions`: `kwdIds` are the account's criteria in the
      store; `deleted` is the dictionary of criteria to create, whose values in insertion
      order are `created`. */
  method CreateMissedCriterions(stats: seq<Decoded>, kwdIds: set<int>) returns (r: Result<seq<Criterion>, CodecError>)
    ensures r == Missed(stats, kwdIds)
  {
    var deleted: map<int, Criterion> := map[];
    var created: seq<Criterion> := [];
    var i := 0;
    assert stats[0..] == stats;
    assert kwdIds + deleted.Keys == kwdIds;
    if Missed(stats, kwdIds).Ok? {
      assert [] + Missed(stats, kwdIds).value == Missed(stats, kwdIds).value;
    }
    while i < |stats|
      invariant 0 <= i <= |stats|
      invariant deleted.Keys == CriterionIds(created) && deleted.Keys !! kwdIds
      invariant Missed(stats, kwdIds) == Prepend(created, Missed(stats[i..], kwdIds + deleted.Keys))
    {
      assert stats[i..][1..] == stats[i + 1..];
      assert stats[i..][0] == stats[i];
      var id := CriterionId(stats[i]);
      if id.Err? {
        return Err(id.error);
      }
      ghost var known := kwdIds + deleted.Keys;
      if id.value !in kwdIds && id.value !in deleted {
        var c := Criterion(id.value, Attr(stats[i].attrs, "group_id"));
        assert Missed(stats[i..], known) == Prepend([c], Missed(stats[i + 1..], known + {id.value}));
        PrependCons(created, c, Missed(stats[i + 1..], known + {id.value}));
        deleted := deleted[id.value := c];
        created := created + [c];
        assert kwdIds + deleted.Keys == known + {id.value};
      } else {
        assert Missed(stats[i..], known) == Missed(stats[i + 1..], known);
      }
      i := i + 1;
    }
    assert created + [] == created;
    return Ok(created);
  }

  /** The criteria created so far in front of what the rest of the statistics create. */
  function Prepend(created: seq<Criterion>, rest: Result<seq<Criterion>, CodecError>): Result<seq<Criterion>, CodecError> {
    if rest.Ok? then Ok(created + rest.value) else rest
  }

  lemma PrependCons(created: seq<Criterion>, c: Criterion, rest: Result<seq<Criterion>, CodecError>)
    ensures Prepend(created, if rest.Ok? then Ok([c] + rest.value) else rest) == Prepend(created + [c], rest)
  {
    if rest.Ok? {
      assert created + ([c] + rest.value) == created + [c] + rest.value;
    }
  }

  lemma Concat4(a: seq<Event>, b: seq<Event>, c: seq<Event>, d: seq<Event>, e: seq<Event>)
    ensures a + b + c + d + e == a + (b + c + d + e)
  {
  }

  /** The loop over the change records: `SELF` sends the campaign to the changed list, and
      `CHILDREN` to the list whose children are asked about. */
  method SortChanges(cs: seq<CampaignChange>) returns (selfIds: seq<int>, parents: seq<int>)
    ensures selfIds == Tagged(cs, "SELF") && parents == Tagged(cs, "CHILDREN")
  {
    selfIds, parents := [], [];
    var i := 0;
    while i < |cs|
      invariant 0 <= i <= |cs|
      invariant selfIds == Tagged(cs[..i], "SELF") && parents == Tagged(cs[..i], "CHILDREN")
    {
      assert cs[..i + 1][..i] == cs[..i];
      if "SELF" in cs[i].changesIn {
        selfIds := selfIds + [cs[i].id];
      }
      if "CHILDREN" in cs[i].changesIn {
        parents := parents + [cs[i].id];
      }
      i := i + 1;
    }
    assert cs[..|cs|] == cs;
  }
}
