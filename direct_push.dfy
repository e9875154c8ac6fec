/** Sending the local changes of one account to Direct (`send_account_changes` and
    `send_objects_of_class` in direct/api_manager.py): which rows are new, changed in their
    state, changed otherwise or marked for deletion since the last synchronisation, and the
    fixed order in which they are created, updated, suspended or resumed and deleted. */
module DirectPush {
  import opened Wrappers
  import opened DirectCodec
  import opened DirectStore
  import DirectModels

  /** A class of objects as `send_objects_of_class` receives it: the service name (`obj_names`,
      whose lower-cased form names the API methods), the table of its rows and its model
      (whose exclusion sets shape the payloads). */
  datatype ObjClass = ObjClass(names: string, table: string, model: Model)

  const AdGroupsName := "AdGroups"

  const Campaigns := ObjClass("Campaigns", "TextCampaign", DirectModels.TextCampaignModel)
  const AdGroups := ObjClass(AdGroupsName, "AdGroup", DirectModels.AdGroupModel)
  const Ads := ObjClass("Ads", "TextAd", DirectModels.TextAdModel)
  const Keywords := ObjClass("Keywords", "Keyword", DirectModels.KeywordModel)

  /** The extra filter `update_q` selecting objects whose children changed: none (`Q(pk=None)`)
      or, for groups, a keyword with a historical record after the synchronisation. */
  datatype ChildFilter = NoChildren | KeywordsChanged

  /** `history_date > sync_time`, where an account never synchronised has `datetime.min`. */
  predicate After(date: int, sync: Option<int>) {
    sync.None? || date > sync.value
  }

  // ---------------------------------------------------------------- classification

  /** The row belongs to the class and to the account (the class's `q_filter`). */
  predicate InClass(rows: map<Ref, Row>, c: ObjClass, acc: string, r: Ref)
    requires r in rows
  {
    r.table == c.table && rows[r].owner == acc
  }

  /** `new`: the rows of the class with a placeholder id. */
  function NewSet(rows: map<Ref, Row>, c: ObjClass, acc: string): set<Ref> {
    set r | r in rows && InClass(rows, c, acc, r) && r.id < 0
  }

  /** Some change record (`~`) was written after the synchronisation. */
  predicate ChangedAfter(h: seq<Snapshot>, sync: Option<int>) {
    exists i :: 0 <= i < |h| && h[i].htype == Changed && After(h[i].date, sync)
  }

  /** Some historical record was written after the synchronisation. */
  predicate TouchedAfter(h: seq<Snapshot>, sync: Option<int>) {
    exists i :: 0 <= i < |h| && After(h[i].date, sync)
  }

  /** `updated`: rows of the class changed after the synchronisation, not marked for deletion
      and not new. */
  function UpdatedSet(rows: map<Ref, Row>, c: ObjClass, acc: string, sync: Option<int>): (s: set<Ref>)
    ensures s <= rows.Keys
  {
    set r | r in rows && InClass(rows, c, acc, r) && r.id >= 0 && ChangedAfter(rows[r].history, sync)
                        && rows[r].state != DeleteState
  }

  /** One of the group's keywords has a historical record after the synchronisation. */
  predicate KeywordTouched(rows: map<Ref, Row>, group: Ref, sync: Option<int>) {
    exists k :: k in rows && k.table == "Keyword" && "ad_group" in rows[k].links
                && rows[k].links["ad_group"] == group && TouchedAfter(rows[k].history, sync)
  }

  /** `child_updated`: rows of the class the child filter selects, not marked for deletion and
      not new. */
  function ChildUpdatedSet(rows: map<Ref, Row>, c: ObjClass, acc: string, sync: Option<int>, f: ChildFilter): (s: set<Ref>)
    ensures s <= rows.Keys
  {
    if f == NoChildren then {}
    else set r | r in rows && InClass(rows, c, acc, r) && r.id >= 0 && rows[r].state != DeleteState
                 && KeywordTouched(rows, r, sync)
  }

  /** The rows of the class touched after the synchronisation and marked for deletion. */
  function DeletedSet(rows: map<Ref, Row>, c: ObjClass, acc: string, sync: Option<int>): (s: set<Ref>)
    ensures s <= rows.Keys
  {
    set r | r in rows && InClass(rows, c, acc, r) && TouchedAfter(rows[r].history, sync) && rows[r].state == DeleteState
  }

  // ---------------------------------------------------------------- history deltas

  /** The value a historical record holds for a field; `state` and `status` are fields too. */
  function FieldValue(x: Snapshot, k: string): Value {
    if k == "state" then Str(x.state) else if k == "status" then Str(x.status) else Attr(x.values, k)
  }

  /** The row a historical record's foreign key `k` names, if it has that key. */
  function LinkOf(x: Snapshot, k: string): Option<Ref> {
    if k in x.links then Some(x.links[k]) else None
  }

  /** `changed_fields` of `x.diff_against(y)`: the fields whose values differ, foreign keys
      included. */
  function Diff(x: Snapshot, y: Snapshot): (r: set<string>)
    ensures forall k :: k in r <==> FieldValue(x, k) != FieldValue(y, k) || LinkOf(x, k) != LinkOf(y, k)
  {
    set k | k in {"state", "status"} + x.values.Keys + y.values.Keys + x.links.Keys + y.links.Keys
              && (FieldValue(x, k) != FieldValue(y, k) || LinkOf(x, k) != LinkOf(y, k))
  }

  /** The position of the first record at or after `i` written after the synchronisation. */
  function FirstAfter(h: seq<Snapshot>, sync: Option<int>, i: nat): (r: Option<nat>)
    requires i <= |h|
    ensures r.Some? ==> i <= r.value < |h| && After(h[r.value].date, sync)
    ensures r.Some? ==> forall j :: i <= j < r.value ==> !After(h[j].date, sync)
    ensures r.None? ==> forall j :: i <= j < |h| ==> !After(h[j].date, sync)
    decreases |h| - i
  {
    if i == |h| then None
    else if After(h[i].date, sync) then Some(i)
    else FirstAfter(h, sync, i + 1)
  }

  /** The position of the last record before `k` written after the synchronisation. */
  function LastAfter(h: seq<Snapshot>, sync: Option<int>, k: nat): (r: Option<nat>)
    requires k <= |h|
    ensures r.Some? ==> r.value < k && After(h[r.value].date, sync)
    ensures r.Some? ==> forall j :: r.value < j < k ==> !After(h[j].date, sync)
    ensures r.None? ==> forall j :: 0 <= j < k ==> !After(h[j].date, sync)
  {
    if k == 0 then None
    else if After(h[k - 1].date, sync) then Some(k - 1)
    else LastAfter(h, sync, k - 1)
  }

  /** The delta `send_objects_of_class` computes, as written:
      `last_histories.last().diff_against(last_histories[0].prev_record)`. Historical records
      are ordered newest first, so `last()` is the oldest record after the synchronisation and
      `[0]` the newest, whose `prev_record` is the record written just before it. None where
      the code fails: `prev_record` of the very first record is `None`. */
  function DeltaAsWritten(h: seq<Snapshot>, sync: Option<int>): Option<set<string>> {
    match (FirstAfter(h, sync, 0), LastAfter(h, sync, |h|))
    case (Some(a), Some(b)) => if b == 0 then None else Some(Diff(h[a], h[b - 1]))
    case _ => None
  }

  /** The delta as intended: the newest record against the one written just before the first
      record after the synchronisation (against that first record itself when the history
      starts after the synchronisation). */
  function Delta(h: seq<Snapshot>, sync: Option<int>): set<string> {
    match (FirstAfter(h, sync, 0), LastAfter(h, sync, |h|))
    case (Some(a), Some(b)) => Diff(h[b], h[if a == 0 then 0 else a - 1])
    case _ => {}
  }

  /** The rows of `updated` whose delta holds `state`. */
  function StatesOf(rows: map<Ref, Row>, updated: set<Ref>, sync: Option<int>): set<Ref> {
    set r | r in rows && r in updated && "state" in Delta(rows[r].history, sync)
  }

  /** The rows of `updated` whose delta holds a field other than `state`. */
  function ContentOf(rows: map<Ref, Row>, updated: set<Ref>, sync: Option<int>): set<Ref> {
    set r | r in rows && r in updated && Delta(rows[r].history, sync) - {"state"} != {}
  }

  /** `state_changed`: for classes other than groups, the updated rows whose delta holds
      `state`. */
  function StateChanged(rows: map<Ref, Row>, c: ObjClass, acc: string, sync: Option<int>): set<Ref> {
    if c.names == AdGroupsName then {} else StatesOf(rows, UpdatedSet(rows, c, acc, sync), sync)
  }

  /** `other_changed`: every updated group, or for other classes the updated rows whose delta
      holds a field other than `state`; and the rows the child filter selects. */
  function OtherChanged(rows: map<Ref, Row>, c: ObjClass, acc: string, sync: Option<int>, f: ChildFilter): set<Ref> {
    (if c.names == AdGroupsName then UpdatedSet(rows, c, acc, sync) else ContentOf(rows, UpdatedSet(rows, c, acc, sync), sync))
    + ChildUpdatedSet(rows, c, acc, sync, f)
  }

  /** `send_objects_of_class` up to the pushes: the rows whose children changed join the
      content changes. */
  method SplitChanges(rows: map<Ref, Row>, c: ObjClass, acc: string, sync: Option<int>, f: ChildFilter)
    returns (states: set<Ref>, other: set<Ref>)
    ensures states == StateChanged(rows, c, acc, sync)
    ensures other == OtherChanged(rows, c, acc, sync, f)
  {
    var updated := UpdatedSet(rows, c, acc, sync);
    if c.names == AdGroupsName {
      states, other := {}, updated;
    } else {
      states, other := SplitUpdated(rows, updated, sync);
    }
    other := other + ChildUpdatedSet(rows, c, acc, sync, f);
  }

  /** The loop over `updated`: a row whose delta holds `state` is appended to the state
      changes, and one whose delta holds anything else is added to the other changes; a row
      can be in both. */
  method SplitUpdated(rows: map<Ref, Row>, updated: set<Ref>, sync: Option<int>)
    returns (states: set<Ref>, other: set<Ref>)
    requires updated <= rows.Keys
    ensures states == StatesOf(rows, updated, sync)
    ensures other == ContentOf(rows, updated, sync)
  {
    states, other := {}, {};
    var left := updated;
    while left != {}
      invariant left <= updated
      invariant states == StatesOf(rows, updated - left, sync)
      invariant other == ContentOf(rows, updated - left, sync)
      decreases left
    {
      var r :| r in left;
      var d := Delta(rows[r].history, sync);
      assert updated - (left - {r}) == (updated - left) + {r};
      SplitStep(rows, updated - left, r, sync);
      if "state" in d {
        states := states + {r};
      }
      if d - {"state"} != {} {
        other := other + {r};
      }
      left := left - {r};
    }
  }

  /** One more updated row: it joins the state changes when its delta holds `state`, and the
      content changes when its delta holds another field. */
  lemma SplitStep(rows: map<Ref, Row>, done: set<Ref>, r: Ref, sync: Option<int>)
    requires r in rows
    ensures StatesOf(rows, done + {r}, sync) == StatesOf(rows, done, sync) + (if "state" in Delta(rows[r].history, sync) then {r} else {})
    ensures ContentOf(rows, done + {r}, sync) == ContentOf(rows, done, sync) + (if Delta(rows[r].history, sync) - {"state"} != {} then {r} else {})
  {
  }

  // ---------------------------------------------------------------- requests and steps

  /** A request to Direct: `add_<service>`, `update_<service>` (objects and the fields left out
      of their payloads), `suspend_`, `resume_`, `delete_<service>` (ids), `moderate_ads`, and a
      status method of `__getattr__` (`archive_campaigns`, ...). */
  datatype Call =
    | Add(service: string, objs: seq<Ref>, exclude: set<string>)
    | Update(service: string, objs: seq<Ref>, exclude: set<string>)
    | Suspend(service: string, ids: seq<int>)
    | Resume(service: string, ids: seq<int>)
    | Delete(service: string, ids: seq<int>)
    | Moderate(ids: seq<int>)
    | StatusCall(methodName: string, ids: seq<int>)

  /** What the run depends on outside the store: the ids Direct returns for each request, and
      the time the saves are dated with. */
  datatype Env = Env(reply: Call -> seq<int>, now: int)

  /** The store and the requests sent so far. */
  datatype World = World(rows: map<Ref, Row>, order: seq<Ref>, sent: seq<Call>)

  /** Where a push ends: `ok` is false when an assertion on Direct's answer failed, which
      stops the whole run. */
  datatype Run = Run(world: World, ok: bool)

  function Send(w: World, call: Call): World {
    w.(sent := w.sent + [call])
  }

  /** The ids of the rows, in order. */
  function Ids(objs: seq<Ref>): (r: seq<int>)
    ensures |r| == |objs| && forall i :: 0 <= i < |objs| ==> r[i] == objs[i].id
  {
    seq(|objs|, i requires 0 <= i < |objs| => objs[i].id)
  }

  /** `change_id(obj, new_id)` on the store. */
  function Remapped(w: World, obj: Ref, newId: int, now: int): World {
    if obj in w.rows then
      var n := Ref(obj.table, newId);
      w.(rows := ChangedId(w.rows, obj, newId, now), order := if n in w.rows then w.order else w.order + [n])
    else w
  }

  /** `for obj, id in zip(objs, ids): change_id(obj, id)`: one remapping per pair, as many as
      the shorter list has. */
  function RemapAll(w: World, objs: seq<Ref>, ids: seq<int>, now: int): World
    decreases |objs|
  {
    if objs == [] || ids == [] then w
    else RemapAll(Remapped(w, objs[0], ids[0], now), objs[1..], ids[1..], now)
  }

  /** A queryset `delete()` of the rows of `s`: they and the rows their deletion cascades to
      leave the store. */
  function Drop(w: World, s: set<Ref>): World {
    var gone := Cascade(w.rows, s);
    w.(rows := Without(w.rows, gone), order := Unselect(w.order, gone))
  }

  function AddCall(c: ObjClass, objs: seq<Ref>): Call {
    Add(c.names, objs, {"id"} + c.model.exclude)
  }

  function UpdateCall(c: ObjClass, objs: seq<Ref>): Call {
    Update(c.names, objs, c.model.excludeUpdate)
  }

  /** `add_objects`: nothing for no objects; otherwise one request, then each object remapped
      to the id Direct returned for it. */
  function AddStep(w: World, c: ObjClass, objs: seq<Ref>, env: Env): World {
    if objs == [] then w
    else RemapAll(Send(w, AddCall(c, objs)), objs, env.reply(AddCall(c, objs)), env.now)
  }

  /** `update_objects`: nothing for no objects; otherwise one request, whose answer must hold
      one id per object, then each object remapped to its id (the comparison with the builtin
      `id` never holds back a remapping). */
  function UpdateStep(w: World, c: ObjClass, objs: seq<Ref>, env: Env): Run {
    if objs == [] then Run(w, true)
    else
      var call := UpdateCall(c, objs);
      var ids := env.reply(call);
      if |ids| != |objs| then Run(Send(w, call), false)
      else Run(RemapAll(Send(w, call), objs, ids, env.now), true)
  }

  /** The ids Direct answered the update of the objects with; none when there was nothing to
      update. */
  function UpdateIds(c: ObjClass, objs: seq<Ref>, env: Env): seq<int> {
    if objs == [] then [] else env.reply(UpdateCall(c, objs))
  }

  /** The objects `change_object_states` is given once `update_objects` has run on `other`:
      they are the same objects, and an object the update remapped carries its new id. */
  function Renamed(objs: seq<Ref>, other: seq<Ref>, ids: seq<int>): (r: seq<Ref>)
    requires |other| <= |ids|
    ensures |r| == |objs|
  {
    seq(|objs|, j requires 0 <= j < |objs| => MapRef(other, ids, objs[j]))
  }

  /** The ids of the objects whose state is `state`, in order. */
  function IdsWith(rows: map<Ref, Row>, objs: seq<Ref>, state: string): (r: seq<int>)
    ensures |r| <= |objs|
    ensures forall x :: x in r <==> exists o :: o in objs && o in rows && rows[o].state == state && o.id == x
  {
    if objs == [] then []
    else
      var rest := IdsWith(rows, objs[1..], state);
      assert forall o :: o in objs <==> o == objs[0] || o in objs[1..];
      if objs[0] in rows && rows[objs[0]].state == state then [objs[0].id] + rest else rest
  }

  /** A request on ids, sent only when there are some; its answer must hold as many ids. */
  function IdsStep(w: World, call: Call, ids: seq<int>, env: Env): Run {
    if ids == [] then Run(w, true) else Run(Send(w, call), |env.reply(call)| == |ids|)
  }

  /** `change_object_states`: the suspended objects are suspended, then the enabled ones
      resumed. */
  function StateStep(w: World, c: ObjClass, objs: seq<Ref>, env: Env): Run {
    if objs == [] then Run(w, true)
    else
      var off := IdsWith(w.rows, objs, "SUSPENDED");
      var r := IdsStep(w, Suspend(c.names, off), off, env);
      if !r.ok then r
      else
        var on := IdsWith(w.rows, objs, "ON");
        IdsStep(r.world, Resume(c.names, on), on, env)
  }

  /** `delete_objects`. */
  function DeleteStep(w: World, c: ObjClass, ids: seq<int>, env: Env): Run {
    IdsStep(w, Delete(c.names, ids), ids, env)
  }

  /** What `send_objects_of_class` computes before it sends anything. */
  datatype Plan = Plan(created: seq<Ref>, other: seq<Ref>, states: seq<Ref>, deleted: seq<int>)

  function PlanOf(w: World, c: ObjClass, acc: string, sync: Option<int>, f: ChildFilter): Plan {
    Plan(Select(w.order, NewSet(w.rows, c, acc)),
         Select(w.order, OtherChanged(w.rows, c, acc, sync, f)),
         Select(w.order, StateChanged(w.rows, c, acc, sync)),
         DeletedIds(w.rows, Select(w.order, DeletedSet(w.rows, c, acc, sync)), sync))
  }

  /** The number of historical records written after the synchronisation. */
  function CountAfter(h: seq<Snapshot>, sync: Option<int>): (n: nat)
    ensures n <= |h|
    ensures n > 0 <==> TouchedAfter(h, sync)
  {
    if h == [] then 0
    else
      var rest := CountAfter(h[1..], sync);
      assert TouchedAfter(h, sync) <==> After(h[0].date, sync) || TouchedAfter(h[1..], sync) by {
        if TouchedAfter(h[1..], sync) {
          var i :| 0 <= i < |h[1..]| && After(h[1..][i].date, sync);
          assert h[i + 1] == h[1..][i];
        }
        if TouchedAfter(h, sync) && !After(h[0].date, sync) {
          var i :| 0 <= i < |h| && After(h[i].date, sync);
          assert h[1..][i - 1] == h[i];
        }
      }
      (if After(h[0].date, sync) then 1 else 0) + rest
  }

  /** `values_list('id', flat=True)` of the deletion query: the query joins the history, so a
      row's id comes once for each of its records written after the synchronisation. */
  function DeletedIds(rows: map<Ref, Row>, objs: seq<Ref>, sync: Option<int>): (ids: seq<int>)
    ensures forall x :: x in ids <==> exists o :: o in objs && o in rows && TouchedAfter(rows[o].history, sync) && o.id == x
  {
    if objs == [] then []
    else
      var o := objs[0];
      var k := if o in rows then CountAfter(rows[o].history, sync) else 0;
      var rest := DeletedIds(rows, objs[1..], sync);
      var head := seq(k, _ => o.id);
      assert forall y :: y in objs <==> y == o || y in objs[1..];
      assert forall x :: x in head <==> k > 0 && x == o.id by {
        if k > 0 {
          assert head[0] == o.id;
        }
      }
      head + rest
  }

  /** Create, drop the placeholders, update, change states. */
  function Front(w: World, c: ObjClass, acc: string, p: Plan, env: Env): Run {
    var w1 := AddStep(w, c, p.created, env);
    var w2 := Drop(w1, NewSet(w1.rows, c, acc));
    var r := UpdateStep(w2, c, p.other, env);
    if !r.ok then r else StateStep(r.world, c, Renamed(p.states, p.other, UpdateIds(c, p.other, env)), env)
  }

  /** Delete in Direct, then in the store (the deletion query is evaluated again then). */
  function Back(w: World, c: ObjClass, acc: string, sync: Option<int>, p: Plan, env: Env): Run {
    var r := DeleteStep(w, c, p.deleted, env);
    if !r.ok then r else Run(Drop(r.world, DeletedSet(r.world.rows, c, acc, sync)), true)
  }

  /** `send_objects_of_class`; `hook` is the groups' `before_delete`. */
  function SendClass(w: World, c: ObjClass, acc: string, sync: Option<int>, f: ChildFilter, hook: bool, env: Env): Run
    decreases if hook then 2 else 0, 1
  {
    Push(w, c, acc, sync, PlanOf(w, c, acc, sync, f), hook, env)
  }

  /** The sending part of `send_objects_of_class`, once its plan is made. */
  function Push(w: World, c: ObjClass, acc: string, sync: Option<int>, p: Plan, hook: bool, env: Env): Run
    decreases if hook then 2 else 0, 0
  {
    var r := Front(w, c, acc, p, env);
    if !r.ok then r
    else
      var h := if hook then AdsAndKeywords(r.world, acc, sync, env) else r;
      if !h.ok then h else Back(h.world, c, acc, sync, p, env)
  }

  /** `send_ads_and_keywords`: ads, then keywords, then moderation. */
  function AdsAndKeywords(w: World, acc: string, sync: Option<int>, env: Env): Run
    decreases 1, 2
  {
    var r := SendClass(w, Ads, acc, sync, NoChildren, false, env);
    if !r.ok then r
    else
      var k := SendClass(r.world, Keywords, acc, sync, NoChildren, false, env);
      if !k.ok then k else ModerateStep(k.world, acc, env)
  }

  /** The account's text ads in status `DRAFT`. */
  function DraftAds(rows: map<Ref, Row>, acc: string): set<Ref> {
    set r | r in rows && r.table == "TextAd" && rows[r].owner == acc && rows[r].status == "DRAFT"
  }

  /** The text ads with one of the ids. */
  function AdsWithIds(rows: map<Ref, Row>, ids: seq<int>): set<Ref> {
    set r | r in rows && r.table == "TextAd" && r.id in ids
  }

  /** `modrate_new_ads`: the draft ads sent to moderation and saved in status `MODERATION`. */
  function ModerateStep(w: World, acc: string, env: Env): Run {
    var ids := Ids(Select(w.order, DraftAds(w.rows, acc)));
    var r := IdsStep(w, Moderate(ids), ids, env);
    if ids == [] || !r.ok then r
    else Run(r.world.(rows := StatusSaved(r.world.rows, AdsWithIds(r.world.rows, ids), "MODERATION", env.now)), true)
  }

  /** `send_account_changes`: the campaigns, then the groups with their ads and keywords. */
  function SendAccount(w: World, acc: string, sync: Option<int>, env: Env): Run {
    var r := SendClass(w, Campaigns, acc, sync, NoChildren, false, env);
    if !r.ok then r else SendClass(r.world, AdGroups, acc, sync, KeywordsChanged, true, env)
  }

  // ---------------------------------------------------------------- status methods

  /** The part of a method name before its first `_` (`method_name.split('_', 1)[0]`). */
  function Verb(name: string): (r: string)
    ensures '_' !in r && r <= name
    ensures r == name || name[|r|] == '_'
  {
    if name == [] || name[0] == '_' then []
    else [name[0]] + Verb(name[1..])
  }

  /** `status_map` of `__getattr__`: the status an object is saved with after each method;
      `suspend` gives `ARCHIVED`, as written. None raises `KeyError`. */
  function StatusAfter(verb: string): Option<string> {
    if verb == "archive" then Some("ARCHIVED")
    else if verb == "unarchive" then Some("SUSPENDED")
    else if verb == "suspend" then Some("ARCHIVED")
    else if verb == "resume" then Some("ON")
    else None
  }

  /** The rows of the table with one of the ids. */
  function RowsWithIds(rows: map<Ref, Row>, table: string, ids: seq<int>): set<Ref> {
    set r | r in rows && r.table == table && r.id in ids
  }

  /** A method of `__getattr__` (`suspend_campaigns(objects)`, ...): one request on the objects'
      ids, whose answer must hold as many ids, then each row with one of the ids saved with the
      method's status. An unknown method fails there, once there is a row to save. */
  function StatusStep(w: World, methodName: string, objs: seq<Ref>, env: Env): Run {
    if objs == [] then Run(w, true)
    else
      var ids := Ids(objs);
      var r := IdsStep(w, StatusCall(methodName, ids), ids, env);
      if !r.ok then r
      else
        var targets := RowsWithIds(r.world.rows, objs[0].table, ids);
        match StatusAfter(Verb(methodName))
        case None => Run(r.world, targets == {})
        case Some(st) => Run(r.world.(rows := StatusSaved(r.world.rows, targets, st, env.now)), true)
  }

  // ---------------------------------------------------------------- the API manager

  /** The sending half of the API manager: the store it writes, Direct's answers, the requests
      sent so far, and the account being sent (`self.account`). */
  class DirectApi {
    const store: Store
    const env: Env
    var sent: seq<Call>
    var account: string

    constructor(store0: Store, env0: Env)
      ensures store == store0 && env == env0 && sent == [] && account == ""
    {
      store := store0;
      env := env0;
      sent := [];
      account := "";
    }

    function Now(): World
      reads this, store
    {
      World(store.rows, store.order, sent)
    }

    predicate Valid()
      reads this, store
    {
      Listed(store.rows, store.order)
    }

    /** `send_account_changes`. */
    method SendAccountChanges(acc: string, sync: Option<int>) returns (ok: bool)
      requires Valid()
      modifies this, store
      ensures Valid() && account == acc
      ensures Run(Now(), ok) == SendAccount(old(Now()), acc, sync, env)
    {
      account := acc;
      ok := SendObjectsOfClass(Campaigns, sync, NoChildren, false);
      if ok {
        ok := SendObjectsOfClass(AdGroups, sync, KeywordsChanged, true);
      }
    }

    /** `send_ads_and_keywords`. */
    method SendAdsAndKeywords(sync: Option<int>) returns (ok: bool)
      requires Valid()
      modifies this, store
      ensures Valid() && account == old(account)
      ensures Run(Now(), ok) == AdsAndKeywords(old(Now()), account, sync, env)
      decreases 1
    {
      ok := SendObjectsOfClass(Ads, sync, NoChildren, false);
      if ok {
        ok := SendObjectsOfClass(Keywords, sync, NoChildren, false);
        if ok {
          ok := ModerateNewAds();
        }
      }
    }

    /** `send_objects_of_class`: everything is selected first, then sent in order. */
    method SendObjectsOfClass(c: ObjClass, sync: Option<int>, f: ChildFilter, hook: bool) returns (ok: bool)
      requires Valid()
      modifies this, store
      ensures Valid() && account == old(account)
      ensures Run(Now(), ok) == SendClass(old(Now()), c, account, sync, f, hook, env)
      decreases if hook then 2 else 0
    {
      var created := Select(store.order, NewSet(store.rows, c, account));
      var states, other := SplitChanges(store.rows, c, account, sync, f);
      var p := Plan(created, Select(store.order, other), Select(store.order, states),
                    DeletedIds(store.rows, Select(store.order, DeletedSet(store.rows, c, account, sync)), sync));
      assert p == PlanOf(Now(), c, account, sync, f);
      AddObjects(c, p.created);
      store.DeleteRows(NewSet(store.rows, c, account));
      ok := UpdateObjects(c, p.other);
      if ok {
        ok := ChangeObjectStates(c, Renamed(p.states, p.other, UpdateIds(c, p.other, env)));
      }
      assert Run(Now(), ok) == Front(old(Now()), c, account, p, env);
      if ok && hook {
        ok := SendAdsAndKeywords(sync);
      }
      if ok {
        ok := DeleteObjects(c, p.deleted);
        if ok {
          store.DeleteRows(DeletedSet(store.rows, c, account, sync));
        }
      }
    }

    /** `add_objects`. */
    method AddObjects(c: ObjClass, objs: seq<Ref>)
      requires Valid()
      modifies this, store
      ensures Valid() && account == old(account)
      ensures Now() == AddStep(old(Now()), c, objs, env)
    {
      if objs == [] {
        return;
      }
      var call := AddCall(c, objs);
      sent := sent + [call];
      RemapEach(objs, env.reply(call));
    }

    /** `update_objects`. */
    method UpdateObjects(c: ObjClass, objs: seq<Ref>) returns (ok: bool)
      requires Valid()
      modifies this, store
      ensures Valid() && account == old(account)
      ensures Run(Now(), ok) == UpdateStep(old(Now()), c, objs, env)
    {
      if objs == [] {
        return true;
      }
      var call := UpdateCall(c, objs);
      sent := sent + [call];
      var ids := env.reply(call);
      if |ids| != |objs| {
        return false;
      }
      RemapEach(objs, ids);
      ok := true;
    }

    /** The `change_id` loop over `zip(objs, ids)`. */
    method RemapEach(objs: seq<Ref>, ids: seq<int>)
      requires Valid()
      modifies store
      ensures Valid()
      ensures Now() == RemapAll(old(Now()), objs, ids, env.now)
    {
      var i := 0;
      while i < |objs| && i < |ids|
        invariant 0 <= i <= |objs| && i <= |ids|
        invariant Valid() && sent == old(sent)
        invariant RemapAll(Now(), objs[i..], ids[i..], env.now) == RemapAll(old(Now()), objs, ids, env.now)
      {
        ghost var w := Now();
        assert objs[i..][1..] == objs[i + 1..] && ids[i..][1..] == ids[i + 1..];
        if objs[i] in store.rows {
          store.ChangeId(objs[i], ids[i], env.now);
        }
        assert Now() == Remapped(w, objs[i], ids[i], env.now);
        i := i + 1;
      }
    }

    /** `change_object_states`. */
    method ChangeObjectStates(c: ObjClass, objs: seq<Ref>) returns (ok: bool)
      requires Valid()
      modifies this
      ensures account == old(account)
      ensures Run(Now(), ok) == StateStep(old(Now()), c, objs, env)
    {
      if objs == [] {
        return true;
      }
      var off := IdsWith(store.rows, objs, "SUSPENDED");
      ok := SendIds(Suspend(c.names, off), off);
      if ok {
        var on := IdsWith(store.rows, objs, "ON");
        ok := SendIds(Resume(c.names, on), on);
      }
    }

    /** `delete_objects`. */
    method DeleteObjects(c: ObjClass, ids: seq<int>) returns (ok: bool)
      modifies this
      ensures account == old(account)
      ensures Run(Now(), ok) == DeleteStep(old(Now()), c, ids, env)
    {
      ok := SendIds(Delete(c.names, ids), ids);
    }

    /** A request on ids: skipped when there are none, and its answer's length asserted. */
    method SendIds(call: Call, ids: seq<int>) returns (ok: bool)
      modifies this
      ensures account == old(account)
      ensures Run(Now(), ok) == IdsStep(old(Now()), call, ids, env)
    {
      if ids == [] {
        return true;
      }
      sent := sent + [call];
      ok := |env.reply(call)| == |ids|;
    }

    /** `modrate_new_ads`. */
    method ModerateNewAds() returns (ok: bool)
      requires Valid()
      modifies this, store
      ensures Valid() && account == old(account)
      ensures Run(Now(), ok) == ModerateStep(old(Now()), account, env)
    {
      var ids := Ids(Select(store.order, DraftAds(store.rows, account)));
      ok := SendIds(Moderate(ids), ids);
      if ids != [] && ok {
        store.SaveStatus(AdsWithIds(store.rows, ids), "MODERATION", env.now);
      }
    }

    /** A status method of `__getattr__`. */
    method ChangeStatus(methodName: string, objs: seq<Ref>) returns (ok: bool)
      requires Valid()
      modifies this, store
      ensures Valid() && account == old(account)
      ensures Run(Now(), ok) == StatusStep(old(Now()), methodName, objs, env)
    {
      if objs == [] {
        return true;
      }
      var ids := Ids(objs);
      ok := SendIds(StatusCall(methodName, ids), ids);
      if ok {
        var targets := RowsWithIds(store.rows, objs[0].table, ids);
        var st := StatusAfter(Verb(methodName));
        if st.None? {
          ok := targets == {};
        } else {
          store.SaveStatus(targets, st.value, env.now);
        }
      }
    }
  }

  // ---------------------------------------------------------------- properties: deltas

  /** A record compared with itself shows no change. */
  lemma DiffSelf(x: Snapshot)
    ensures Diff(x, x) == {}
  {
  }

  /** With exactly the last two records written after the synchronisation the delta, as
      written, compares the older of them with itself: it is empty, so the object is sent
      neither as a state change nor as a content change. */
  lemma {:induction false} DeltaAsWrittenTwoChanges(h: seq<Snapshot>, sync: Option<int>)
    requires |h| >= 2 && After(h[|h| - 2].date, sync) && After(h[|h| - 1].date, sync)
    requires forall j :: 0 <= j < |h| - 2 ==> !After(h[j].date, sync)
    ensures DeltaAsWritten(h, sync) == Some({})
  {
    var a := FirstAfter(h, sync, 0);
    var b := LastAfter(h, sync, |h|);
    assert a == Some(|h| - 2);
    assert b == Some(|h| - 1);
    DiffSelf(h[|h| - 2]);
  }

  /** The same history: the intended delta compares the newest record with the one before
      both changes. */
  lemma {:induction false} DeltaTwoChanges(h: seq<Snapshot>, sync: Option<int>)
    requires |h| >= 3 && After(h[|h| - 2].date, sync) && After(h[|h| - 1].date, sync)
    requires forall j :: 0 <= j < |h| - 2 ==> !After(h[j].date, sync)
    ensures Delta(h, sync) == Diff(h[|h| - 1], h[|h| - 3])
  {
    assert FirstAfter(h, sync, 0) == Some(|h| - 2);
    assert LastAfter(h, sync, |h|) == Some(|h| - 1);
  }

  /** With a single record after the synchronisation, and one before it, the delta as written
      and the intended one agree. */
  lemma {:induction false} DeltaOneChange(h: seq<Snapshot>, sync: Option<int>, p: nat)
    requires 0 < p < |h| && After(h[p].date, sync)
    requires forall j :: 0 <= j < |h| && j != p ==> !After(h[j].date, sync)
    ensures DeltaAsWritten(h, sync) == Some(Delta(h, sync)) == Some(Diff(h[p], h[p - 1]))
  {
    assert FirstAfter(h, sync, 0) == Some(p);
    assert LastAfter(h, sync, |h|) == Some(p);
  }

  /** A campaign renamed, then suspended, after the synchronisation: as written nothing is
      sent, while both the new title and the new state were to be. */
  lemma DeltaAsWrittenExample()
    ensures var h := [Snapshot(0, Created, "ON", "ACCEPTED", map[], map["name" := Str("a")]),
                      Snapshot(5, Changed, "ON", "ACCEPTED", map[], map["name" := Str("b")]),
                      Snapshot(6, Changed, "SUSPENDED", "ACCEPTED", map[], map["name" := Str("b")])];
      DeltaAsWritten(h, Some(1)) == Some({}) && Delta(h, Some(1)) == {"name", "state"}
  {
    var h := [Snapshot(0, Created, "ON", "ACCEPTED", map[], map["name" := Str("a")]),
              Snapshot(5, Changed, "ON", "ACCEPTED", map[], map["name" := Str("b")]),
              Snapshot(6, Changed, "SUSPENDED", "ACCEPTED", map[], map["name" := Str("b")])];
    DeltaAsWrittenTwoChanges(h, Some(1));
    DeltaTwoChanges(h, Some(1));
    var d := Diff(h[2], h[0]);
    assert FieldValue(h[2], "name") != FieldValue(h[0], "name");
    assert FieldValue(h[2], "state") != FieldValue(h[0], "state");
    assert forall k :: k in d ==> k == "name" || k == "state";
  }

  /** A text ad whose only edit after the synchronisation moves it to another group: its
      delta is the foreign key alone, so it is sent as a content change. */
  lemma DeltaMovedAd()
    ensures var h := [Snapshot(0, Created, "ON", "ACCEPTED", map["ad_group" := Ref("AdGroup", 1)], map["title" := Str("a")]),
                      Snapshot(5, Changed, "ON", "ACCEPTED", map["ad_group" := Ref("AdGroup", 2)], map["title" := Str("a")])];
      Delta(h, Some(1)) == {"ad_group"}
  {
    var h := [Snapshot(0, Created, "ON", "ACCEPTED", map["ad_group" := Ref("AdGroup", 1)], map["title" := Str("a")]),
              Snapshot(5, Changed, "ON", "ACCEPTED", map["ad_group" := Ref("AdGroup", 2)], map["title" := Str("a")])];
    assert FirstAfter(h, Some(1), 0) == Some(1);
    assert LastAfter(h, Some(1), |h|) == Some(1);
    var d := Diff(h[1], h[0]);
    assert LinkOf(h[1], "ad_group") != LinkOf(h[0], "ad_group");
    assert forall k :: k in d ==> k == "ad_group";
  }

  // ---------------------------------------------------------------- properties: classification

  /** Where a row of the class goes: state changes only off the groups and only with `state`
      in its delta, other changes for every updated group, for a delta with another field, or
      for changed children. New rows and rows marked for deletion go to neither, and a row
      whose delta has `state` and another field goes to both. */
  lemma Classified(rows: map<Ref, Row>, c: ObjClass, acc: string, sync: Option<int>, f: ChildFilter, r: Ref)
    requires r in rows
    ensures r in UpdatedSet(rows, c, acc, sync) <==>
              InClass(rows, c, acc, r) && r.id >= 0 && ChangedAfter(rows[r].history, sync) && rows[r].state != DeleteState
    ensures r in StateChanged(rows, c, acc, sync) <==>
              c.names != AdGroupsName && r in UpdatedSet(rows, c, acc, sync) && "state" in Delta(rows[r].history, sync)
    ensures r in OtherChanged(rows, c, acc, sync, f) <==>
              r in ChildUpdatedSet(rows, c, acc, sync, f)
              || (r in UpdatedSet(rows, c, acc, sync) && (c.names == AdGroupsName || Delta(rows[r].history, sync) - {"state"} != {}))
    ensures r in NewSet(rows, c, acc) || rows[r].state == DeleteState ==>
              r !in StateChanged(rows, c, acc, sync) && r !in OtherChanged(rows, c, acc, sync, f)
  {
  }

  // ---------------------------------------------------------------- properties: order

  /** The place of a request in the push of an account: the campaigns' requests, then the
      groups' creations, updates and state changes, then the ads', then the keywords', then
      moderation, and the groups' deletion last. Within a class: add, update, suspend, resume,
      delete. */
  function Rank(call: Call): nat {
    match call
    case Add(svc, _, _) => Base(svc)
    case Update(svc, _, _) => Base(svc) + 1
    case Suspend(svc, _) => Base(svc) + 2
    case Resume(svc, _) => Base(svc) + 3
    case Delete(svc, _) => if svc == AdGroupsName then 40 else Base(svc) + 5
    case Moderate(_) => 36
    case StatusCall(_, _) => 200
  }

  function Base(svc: string): nat {
    if svc == "Campaigns" then 0
    else if svc == AdGroupsName then 10
    else if svc == "Ads" then 20
    else if svc == "Keywords" then 30
    else 100
  }

  /** `w'` has what `w` had sent, followed by requests in rank order, each ranked within
      `lo..hi`. */
  predicate Grows(w: World, w': World, lo: nat, hi: nat) {
    && w.sent <= w'.sent
    && (forall i, j :: |w.sent| <= i < j < |w'.sent| ==> Rank(w'.sent[i]) <= Rank(w'.sent[j]))
    && (forall i :: |w.sent| <= i < |w'.sent| ==> lo <= Rank(w'.sent[i]) <= hi)
  }

  lemma GrowsTrans(w1: World, w2: World, w3: World, a: nat, b: nat, c: nat, d: nat)
    requires Grows(w1, w2, a, b) && Grows(w2, w3, c, d) && a <= b <= c <= d
    ensures Grows(w1, w3, a, d)
  {
    forall i | |w1.sent| <= i < |w2.sent| ensures w3.sent[i] == w2.sent[i] {
    }
  }

  lemma GrowsWider(w1: World, w2: World, a: nat, b: nat, a': nat, b': nat)
    requires Grows(w1, w2, a, b) && a' <= a && b <= b'
    ensures Grows(w1, w2, a', b')
  {
  }

  lemma SendGrows(w: World, call: Call)
    ensures Grows(w, Send(w, call), Rank(call), Rank(call))
  {
  }

  /** Remapping sends nothing. */
  lemma {:induction false} RemapAllSent(w: World, objs: seq<Ref>, ids: seq<int>, now: int)
    ensures RemapAll(w, objs, ids, now).sent == w.sent
    decreases |objs|
  {
    if objs != [] && ids != [] {
      RemapAllSent(Remapped(w, objs[0], ids[0], now), objs[1..], ids[1..], now);
    }
  }

  lemma AddStepGrows(w: World, c: ObjClass, objs: seq<Ref>, env: Env)
    ensures Grows(w, AddStep(w, c, objs, env), Base(c.names), Base(c.names))
  {
    if objs != [] {
      SendGrows(w, AddCall(c, objs));
      RemapAllSent(Send(w, AddCall(c, objs)), objs, env.reply(AddCall(c, objs)), env.now);
    }
  }

  lemma UpdateStepGrows(w: World, c: ObjClass, objs: seq<Ref>, env: Env)
    ensures Grows(w, UpdateStep(w, c, objs, env).world, Base(c.names) + 1, Base(c.names) + 1)
  {
    if objs != [] {
      SendGrows(w, UpdateCall(c, objs));
      RemapAllSent(Send(w, UpdateCall(c, objs)), objs, env.reply(UpdateCall(c, objs)), env.now);
    }
  }

  lemma IdsStepGrows(w: World, call: Call, ids: seq<int>, env: Env)
    ensures Grows(w, IdsStep(w, call, ids, env).world, Rank(call), Rank(call))
  {
  }

  lemma StateStepGrows(w: World, c: ObjClass, objs: seq<Ref>, env: Env)
    ensures Grows(w, StateStep(w, c, objs, env).world, Base(c.names) + 2, Base(c.names) + 3)
  {
    if objs != [] {
      var off := IdsWith(w.rows, objs, "SUSPENDED");
      var r := IdsStep(w, Suspend(c.names, off), off, env);
      IdsStepGrows(w, Suspend(c.names, off), off, env);
      if r.ok {
        var on := IdsWith(w.rows, objs, "ON");
        IdsStepGrows(r.world, Resume(c.names, on), on, env);
        GrowsTrans(w, r.world, IdsStep(r.world, Resume(c.names, on), on, env).world,
                   Base(c.names) + 2, Base(c.names) + 2, Base(c.names) + 3, Base(c.names) + 3);
      } else {
        GrowsWider(w, r.world, Base(c.names) + 2, Base(c.names) + 2, Base(c.names) + 2, Base(c.names) + 3);
      }
    }
  }

  /** Creation, update and state changes of a class are ranked `Base .. Base + 3`, in that
      order. */
  lemma FrontGrows(w: World, c: ObjClass, acc: string, p: Plan, env: Env)
    ensures Grows(w, Front(w, c, acc, p, env).world, Base(c.names), Base(c.names) + 3)
  {
    var k := Base(c.names);
    var w1 := AddStep(w, c, p.created, env);
    AddStepGrows(w, c, p.created, env);
    var w2 := Drop(w1, NewSet(w1.rows, c, acc));
    assert Grows(w, w2, k, k);
    var r := UpdateStep(w2, c, p.other, env);
    UpdateStepGrows(w2, c, p.other, env);
    GrowsTrans(w, w2, r.world, k, k, k + 1, k + 1);
    if r.ok {
      var states := Renamed(p.states, p.other, UpdateIds(c, p.other, env));
      StateStepGrows(r.world, c, states, env);
      GrowsTrans(w, r.world, StateStep(r.world, c, states, env).world, k, k + 1, k + 2, k + 3);
    } else {
      GrowsWider(w, r.world, k, k + 1, k, k + 3);
    }
  }

  /** Deleting in Direct is one request, ranked after everything else of the class. */
  lemma BackGrows(w: World, c: ObjClass, acc: string, sync: Option<int>, p: Plan, env: Env)
    ensures Grows(w, Back(w, c, acc, sync, p, env).world, Rank(Delete(c.names, [])), Rank(Delete(c.names, [])))
  {
    IdsStepGrows(w, Delete(c.names, p.deleted), p.deleted, env);
  }

  /** The requests of a class other than the groups go add, update, suspend, resume, delete. */
  lemma {:induction false} ClassGrows(w: World, c: ObjClass, acc: string, sync: Option<int>, p: Plan, env: Env)
    requires c.names != AdGroupsName
    ensures Grows(w, Push(w, c, acc, sync, p, false, env).world, Base(c.names), Base(c.names) + 5)
  {
    var k := Base(c.names);
    var r := Front(w, c, acc, p, env);
    FrontGrows(w, c, acc, p, env);
    if r.ok {
      BackGrows(r.world, c, acc, sync, p, env);
      GrowsTrans(w, r.world, Back(r.world, c, acc, sync, p, env).world, k, k + 3, k + 5, k + 5);
    } else {
      GrowsWider(w, r.world, k, k + 3, k, k + 5);
    }
  }

  lemma ModerateGrows(w: World, acc: string, env: Env)
    ensures Grows(w, ModerateStep(w, acc, env).world, 36, 36)
  {
    var ids := Ids(Select(w.order, DraftAds(w.rows, acc)));
    IdsStepGrows(w, Moderate(ids), ids, env);
  }

  /** `send_ads_and_keywords`: the ads' requests, then the keywords', then moderation. */
  lemma {:induction false} AdsAndKeywordsGrows(w: World, acc: string, sync: Option<int>, env: Env)
    ensures Grows(w, AdsAndKeywords(w, acc, sync, env).world, 20, 36)
  {
    var r := SendClass(w, Ads, acc, sync, NoChildren, false, env);
    ClassGrows(w, Ads, acc, sync, PlanOf(w, Ads, acc, sync, NoChildren), env);
    if r.ok {
      var k := SendClass(r.world, Keywords, acc, sync, NoChildren, false, env);
      ClassGrows(r.world, Keywords, acc, sync, PlanOf(r.world, Keywords, acc, sync, NoChildren), env);
      GrowsTrans(w, r.world, k.world, 20, 25, 30, 35);
      if k.ok {
        ModerateGrows(k.world, acc, env);
        GrowsTrans(w, k.world, ModerateStep(k.world, acc, env).world, 20, 35, 36, 36);
      } else {
        GrowsWider(w, k.world, 20, 35, 20, 36);
      }
    } else {
      GrowsWider(w, r.world, 20, 25, 20, 36);
    }
  }

  /** The groups: creation, update and state changes, then the ads and keywords, and the
      groups' deletion last. */
  lemma {:induction false} GroupsGrows(w: World, c: ObjClass, acc: string, sync: Option<int>, p: Plan, env: Env)
    requires c.names == AdGroupsName
    ensures Grows(w, Push(w, c, acc, sync, p, true, env).world, 10, 40)
  {
    var r := Front(w, c, acc, p, env);
    FrontGrows(w, c, acc, p, env);
    if r.ok {
      HookThenBackGrows(r.world, c, acc, sync, p, env);
      GrowsTrans(w, r.world, Push(w, c, acc, sync, p, true, env).world, 10, 13, 20, 40);
    } else {
      GrowsWider(w, r.world, 10, 13, 10, 40);
    }
  }

  /** After the groups' front half: the ads and keywords, then the groups' deletion. */
  lemma HookThenBackGrows(w: World, c: ObjClass, acc: string, sync: Option<int>, p: Plan, env: Env)
    requires c.names == AdGroupsName
    ensures var h := AdsAndKeywords(w, acc, sync, env);
      Grows(w, (if h.ok then Back(h.world, c, acc, sync, p, env) else h).world, 20, 40)
  {
    var h := AdsAndKeywords(w, acc, sync, env);
    AdsAndKeywordsGrows(w, acc, sync, env);
    if h.ok {
      BackGrows(h.world, c, acc, sync, p, env);
      GrowsTrans(w, h.world, Back(h.world, c, acc, sync, p, env).world, 20, 36, 40, 40);
    } else {
      GrowsWider(w, h.world, 20, 36, 20, 40);
    }
  }

  /** The push of an account sends its requests in rank order: the campaigns' first, the
      groups' creations and updates before the ads', the ads' before the keywords', moderation
      after both, and the groups' deletion last. */
  lemma {:induction false} SendAccountOrder(w: World, acc: string, sync: Option<int>, env: Env)
    ensures Grows(w, SendAccount(w, acc, sync, env).world, 0, 40)
  {
    var r := SendClass(w, Campaigns, acc, sync, NoChildren, false, env);
    ClassGrows(w, Campaigns, acc, sync, PlanOf(w, Campaigns, acc, sync, NoChildren), env);
    if r.ok {
      GroupsGrows(r.world, AdGroups, acc, sync, PlanOf(r.world, AdGroups, acc, sync, KeywordsChanged), env);
      GrowsTrans(w, r.world, SendAccount(w, acc, sync, env).world, 0, 5, 10, 40);
    } else {
      GrowsWider(w, r.world, 0, 5, 0, 40);
    }
  }

  // ---------------------------------------------------------------- properties: remapping

  /** Every foreign key points at a row of the store, and no row points at itself. */
  predicate Linked(rows: map<Ref, Row>) {
    forall r, l :: r in rows && l in rows[r].links ==> rows[r].links[l] in rows && rows[r].links[l] != r
  }

  /** Where a foreign key to `x` points once the placeholders `objs` are remapped to `ids`. */
  function MapRef(objs: seq<Ref>, ids: seq<int>, x: Ref): Ref
    requires |objs| <= |ids|
  {
    if objs == [] then x
    else if x == objs[0] then Ref(objs[0].table, ids[0])
    else MapRef(objs[1..], ids[1..], x)
  }

  /** `row` is `before` with each foreign key pointed through the remapping. */
  predicate Moved(row: Row, before: Row, objs: seq<Ref>, ids: seq<int>)
    requires |objs| <= |ids|
  {
    row.links.Keys == before.links.Keys && forall l :: l in before.links ==> row.links[l] == MapRef(objs, ids, before.links[l])
  }

  /** The same object: owner, state, status and values. */
  predicate SameContent(a: Row, b: Row) {
    a.owner == b.owner && a.state == b.state && a.status == b.status && a.values == b.values
  }

  /** Distinct rows of the table with placeholder ids. */
  predicate Placeholders(rows: map<Ref, Row>, objs: seq<Ref>, table: string) {
    Distinct(objs) && forall i :: 0 <= i < |objs| ==> objs[i] in rows && objs[i].table == table && objs[i].id < 0
  }

  /** Distinct ids, none negative and none already used in the table. */
  predicate FreshIds(rows: map<Ref, Row>, table: string, ids: seq<int>) {
    && (forall i :: 0 <= i < |ids| ==> ids[i] >= 0 && Ref(table, ids[i]) !in rows)
    && (forall i, j :: 0 <= i < j < |ids| ==> ids[i] != ids[j])
  }

  /** The rows of the table under the ids. */
  function Copies(table: string, ids: seq<int>): set<Ref> {
    set i | 0 <= i < |ids| :: Ref(table, ids[i])
  }

  /** A foreign key to anything but a placeholder is left alone. */
  lemma {:induction false} MapRefOutside(objs: seq<Ref>, ids: seq<int>, x: Ref)
    requires |objs| <= |ids| && x !in objs
    ensures MapRef(objs, ids, x) == x
    decreases |objs|
  {
    if objs != [] {
      assert x !in objs[1..];
      MapRefOutside(objs[1..], ids[1..], x);
    }
  }

  /** Remapped keys point at no placeholder. */
  lemma {:induction false} MapRefLeaves(objs: seq<Ref>, ids: seq<int>, x: Ref)
    requires |objs| <= |ids| && (forall i :: 0 <= i < |ids| ==> ids[i] >= 0) && (forall i :: 0 <= i < |objs| ==> objs[i].id < 0)
    ensures MapRef(objs, ids, x) !in objs
    decreases |objs|
  {
    if objs != [] && x != objs[0] {
      MapRefLeaves(objs[1..], ids[1..], x);
      if MapRef(objs[1..], ids[1..], x) == objs[0] {
        MapRefNotNew(objs[1..], ids[1..], x, objs[0]);
      }
    }
  }

  /** A key remapped through `objs` is a copy or was not a placeholder. */
  lemma {:induction false} MapRefNotNew(objs: seq<Ref>, ids: seq<int>, x: Ref, y: Ref)
    requires |objs| <= |ids| && (forall i :: 0 <= i < |ids| ==> ids[i] >= 0) && y.id < 0 && y != x
    ensures MapRef(objs, ids, x) != y
    decreases |objs|
  {
    if objs != [] && x != objs[0] {
      MapRefNotNew(objs[1..], ids[1..], x, y);
    }
  }

  /** Pointing the keys through the first placeholder, then through the rest, is pointing them
      through all. */
  lemma MovedCompose(row2: Row, row1: Row, row0: Row, objs: seq<Ref>, ids: seq<int>)
    requires 0 < |objs| <= |ids| && ids[0] >= 0 && forall i :: 0 <= i < |objs| ==> objs[i].id < 0
    requires Moved(row1, row0, [objs[0]], [ids[0]]) && Moved(row2, row1, objs[1..], ids[1..])
    ensures Moved(row2, row0, objs, ids)
  {
    forall l | l in row0.links ensures row2.links[l] == MapRef(objs, ids, row0.links[l]) {
      var x := row0.links[l];
      if x == objs[0] {
        assert row1.links[l] == Ref(objs[0].table, ids[0]);
        assert Ref(objs[0].table, ids[0]) !in objs[1..];
        MapRefOutside(objs[1..], ids[1..], Ref(objs[0].table, ids[0]));
      } else {
        assert MapRef([objs[0]], [ids[0]], x) == MapRef([objs[0]][1..], [ids[0]][1..], x) == x;
      }
    }
  }

  /** A row without keys to the placeholder is unmoved by it. */
  lemma MovedNone(row: Row, obj: Ref, id: int)
    requires forall l :: l in row.links ==> row.links[l] != obj
    ensures Moved(row, row, [obj], [id])
  {
  }

  /** What one `change_id` to a fresh id does: the copy joins the store with the object's
      content and keys, and every key to the object now points at the copy. */
  predicate StepFacts(rows: map<Ref, Row>, rows1: map<Ref, Row>, obj: Ref, id: int)
    requires obj in rows
  {
    var n := Ref(obj.table, id);
    && Linked(rows1) && rows1.Keys == rows.Keys + {n}
    && (forall r :: r in rows ==> Moved(rows1[r], rows[r], [obj], [id]) && SameContent(rows1[r], rows[r]))
    && (forall r :: r in rows && r != obj ==> rows1[r].(links := rows[r].links) == rows[r])
    && rows1[n].links == rows[obj].links && SameContent(rows1[n], rows[obj])
  }

  lemma RemappedStep(w: World, obj: Ref, id: int, now: int)
    requires obj in w.rows && Linked(w.rows) && Ref(obj.table, id) !in w.rows
    ensures StepFacts(w.rows, Remapped(w, obj, id, now).rows, obj, id)
  {
    var rows' := ChangedId(w.rows, obj, id, now);
    ChangedIdPointwise(w.rows, obj, id, now);
    ChangedIdOnlyLinks(w.rows, obj, id, now);
    ChangedIdCopies(w.rows, obj, id, now);
    ChangedIdKeepsOldRow(w.rows, obj, id, now);
    RepointedRows(w.rows, rows', obj, id);
  }

  /** The facts of one remapping, on any store that satisfies them. */
  lemma RepointedRows(rows: map<Ref, Row>, rows': map<Ref, Row>, obj: Ref, id: int)
    requires obj in rows && Linked(rows) && Ref(obj.table, id) !in rows
    requires rows'.Keys == rows.Keys + {Ref(obj.table, id)} && rows'[Ref(obj.table, id)].links == rows[obj].links
    requires forall r :: r in rows ==>
               && rows'[r].links.Keys == rows[r].links.Keys
               && forall l :: l in rows[r].links ==> rows'[r].links[l] == if rows[r].links[l] == obj then Ref(obj.table, id) else rows[r].links[l]
    ensures Linked(rows')
    ensures forall r :: r in rows ==> Moved(rows'[r], rows[r], [obj], [id])
  {
    var n := Ref(obj.table, id);
    assert MapRef([obj], [id], obj) == n;
    forall x | x != obj ensures MapRef([obj], [id], x) == x {
      assert MapRef([obj], [id], x) == MapRef([obj][1..], [id][1..], x);
    }
    forall r, l | r in rows' && l in rows'[r].links ensures rows'[r].links[l] in rows' && rows'[r].links[l] != r {
      if r != n {
        assert l in rows[r].links;
      }
    }
  }

  lemma {:induction false} CopiesCons(table: string, ids: seq<int>, k: nat)
    requires 0 < k <= |ids|
    ensures Copies(table, ids[..k]) == {Ref(table, ids[0])} + Copies(table, ids[1..][..k - 1])
  {
    var a := Copies(table, ids[..k]);
    var b := {Ref(table, ids[0])} + Copies(table, ids[1..][..k - 1]);
    forall x | x in a ensures x in b {
      var i :| 0 <= i < k && x == Ref(table, ids[..k][i]);
      if i > 0 {
        assert x == Ref(table, ids[1..][..k - 1][i - 1]);
      }
    }
    forall x | x in b ensures x in a {
      if x == Ref(table, ids[0]) {
        assert x == Ref(table, ids[..k][0]);
      } else {
        var i :| 0 <= i < k - 1 && x == Ref(table, ids[1..][..k - 1][i]);
        assert x == Ref(table, ids[..k][i + 1]);
      }
    }
  }

  lemma DistinctTail(objs: seq<Ref>)
    requires objs != [] && Distinct(objs)
    ensures Distinct(objs[1..]) && objs[0] !in objs[1..]
  {
    forall i, j | 0 <= i < j < |objs[1..]| ensures objs[1..][i] != objs[1..][j] {
      assert objs[1..][i] == objs[i + 1] && objs[1..][j] == objs[j + 1];
    }
  }

  /** What the `change_id` loop over placeholders and fresh ids does: each placeholder's copy
      is in the store with its content and its keys pointed through the remapping, every other
      row is as it was but for its keys, which are pointed through the remapping too, and the
      store gains exactly the copies. (The placeholders themselves lose their history to the
      copies.) */
  predicate MovesAll(rows: map<Ref, Row>, rows': map<Ref, Row>, objs: seq<Ref>, ids: seq<int>, t: string)
    requires |objs| <= |ids|
  {
    && Linked(rows') && rows'.Keys == rows.Keys + Copies(t, ids[..|objs|])
    && (forall r :: r in rows ==> Moved(rows'[r], rows[r], objs, ids) && SameContent(rows'[r], rows[r]))
    && (forall r :: r in rows && r !in objs ==> rows'[r].(links := rows[r].links) == rows[r])
    && (forall i :: 0 <= i < |objs| ==>
          && objs[i] in rows && Ref(t, ids[i]) in rows'
          && Moved(rows'[Ref(t, ids[i])], rows[objs[i]], objs, ids) && SameContent(rows'[Ref(t, ids[i])], rows[objs[i]]))
  }

  lemma {:induction false} RemapAllMoves(w: World, objs: seq<Ref>, ids: seq<int>, now: int, t: string)
    requires Linked(w.rows) && Placeholders(w.rows, objs, t) && FreshIds(w.rows, t, ids) && |objs| <= |ids|
    ensures MovesAll(w.rows, RemapAll(w, objs, ids, now).rows, objs, ids, t)
    decreases |objs|
  {
    if objs == [] {
      MovesNone(w.rows, ids, t);
    } else {
      var w1 := Remapped(w, objs[0], ids[0], now);
      RemapFirst(w, objs, ids, now, t);
      RemapAllMoves(w1, objs[1..], ids[1..], now, t);
      MovesCons(w.rows, w1.rows, RemapAll(w1, objs[1..], ids[1..], now).rows, objs, ids, t);
    }
  }

  /** The first remapping of the loop, and what is left for the rest. */
  lemma RemapFirst(w: World, objs: seq<Ref>, ids: seq<int>, now: int, t: string)
    requires Linked(w.rows) && Placeholders(w.rows, objs, t) && FreshIds(w.rows, t, ids) && 0 < |objs| <= |ids|
    ensures var w1 := Remapped(w, objs[0], ids[0], now);
      && RemapAll(w, objs, ids, now) == RemapAll(w1, objs[1..], ids[1..], now)
      && StepFacts(w.rows, w1.rows, objs[0], ids[0])
      && Placeholders(w1.rows, objs[1..], t) && FreshIds(w1.rows, t, ids[1..])
  {
    RemappedStep(w, objs[0], ids[0], now);
    FreshTail(w.rows, Remapped(w, objs[0], ids[0], now).rows, objs, ids, t);
  }

  /** No placeholders: nothing moves. */
  lemma MovesNone(rows: map<Ref, Row>, ids: seq<int>, t: string)
    requires Linked(rows)
    ensures MovesAll(rows, rows, [], ids, t)
  {
    assert Copies(t, ids[..0]) == {};
    forall r | r in rows ensures Moved(rows[r], rows[r], [], ids) {
    }
  }

  /** After the first remapping, the rest are placeholders and fresh ids still. */
  lemma FreshTail(rows: map<Ref, Row>, rows1: map<Ref, Row>, objs: seq<Ref>, ids: seq<int>, t: string)
    requires Placeholders(rows, objs, t) && FreshIds(rows, t, ids) && 0 < |objs| <= |ids|
    requires rows1.Keys == rows.Keys + {Ref(t, ids[0])}
    ensures Placeholders(rows1, objs[1..], t) && FreshIds(rows1, t, ids[1..])
  {
    DistinctTail(objs);
    forall i | 0 <= i < |ids[1..]| ensures Ref(t, ids[1..][i]) !in rows1 {
      assert ids[1..][i] == ids[i + 1] != ids[0];
    }
    forall i, j | 0 <= i < j < |ids[1..]| ensures ids[1..][i] != ids[1..][j] {
      assert ids[1..][i] == ids[i + 1] && ids[1..][j] == ids[j + 1];
    }
  }

  /** The first remapping followed by the rest is the whole remapping. */
  lemma MovesCons(rows: map<Ref, Row>, rows1: map<Ref, Row>, rows': map<Ref, Row>, objs: seq<Ref>, ids: seq<int>, t: string)
    requires 0 < |objs| <= |ids| && Linked(rows) && Placeholders(rows, objs, t) && FreshIds(rows, t, ids)
    requires StepFacts(rows, rows1, objs[0], ids[0]) && MovesAll(rows1, rows', objs[1..], ids[1..], t)
    ensures MovesAll(rows, rows', objs, ids, t)
  {
    CopiesCons(t, ids, |objs|);
    forall r | r in rows
      ensures Moved(rows'[r], rows[r], objs, ids) && SameContent(rows'[r], rows[r])
      ensures r !in objs ==> rows'[r].(links := rows[r].links) == rows[r]
    {
      ComposeKept(rows, rows1, rows', objs, ids, t, r);
    }
    forall i | 0 <= i < |objs|
      ensures objs[i] in rows && Ref(t, ids[i]) in rows' &&
              Moved(rows'[Ref(t, ids[i])], rows[objs[i]], objs, ids) && SameContent(rows'[Ref(t, ids[i])], rows[objs[i]])
    {
      ComposeCopy(rows, rows1, rows', objs, ids, t, i);
    }
  }

  /** A row that was in the store before the remapping. */
  lemma ComposeKept(rows: map<Ref, Row>, rows1: map<Ref, Row>, rows': map<Ref, Row>, objs: seq<Ref>, ids: seq<int>, t: string, r: Ref)
    requires 0 < |objs| <= |ids| && Placeholders(rows, objs, t) && FreshIds(rows, t, ids)
    requires StepFacts(rows, rows1, objs[0], ids[0]) && MovesAll(rows1, rows', objs[1..], ids[1..], t)
    requires r in rows
    ensures Moved(rows'[r], rows[r], objs, ids) && SameContent(rows'[r], rows[r])
    ensures r !in objs ==> rows'[r].(links := rows[r].links) == rows[r]
  {
    MovedCompose(rows'[r], rows1[r], rows[r], objs, ids);
  }

  /** The copy of the placeholder at `i`. */
  lemma ComposeCopy(rows: map<Ref, Row>, rows1: map<Ref, Row>, rows': map<Ref, Row>, objs: seq<Ref>, ids: seq<int>, t: string, i: int)
    requires 0 < |objs| <= |ids| && Linked(rows) && Placeholders(rows, objs, t) && FreshIds(rows, t, ids)
    requires StepFacts(rows, rows1, objs[0], ids[0]) && MovesAll(rows1, rows', objs[1..], ids[1..], t)
    requires 0 <= i < |objs|
    ensures objs[i] in rows && Ref(t, ids[i]) in rows'
    ensures Moved(rows'[Ref(t, ids[i])], rows[objs[i]], objs, ids) && SameContent(rows'[Ref(t, ids[i])], rows[objs[i]])
  {
    if i == 0 {
      ComposeFirstCopy(rows, rows1, rows', objs, ids, t);
    } else {
      ComposeLaterCopy(rows, rows1, rows', objs, ids, t, i);
    }
  }

  lemma ComposeFirstCopy(rows: map<Ref, Row>, rows1: map<Ref, Row>, rows': map<Ref, Row>, objs: seq<Ref>, ids: seq<int>, t: string)
    requires 0 < |objs| <= |ids| && Linked(rows) && Placeholders(rows, objs, t) && FreshIds(rows, t, ids)
    requires StepFacts(rows, rows1, objs[0], ids[0]) && MovesAll(rows1, rows', objs[1..], ids[1..], t)
    ensures objs[0] in rows && Ref(t, ids[0]) in rows'
    ensures Moved(rows'[Ref(t, ids[0])], rows[objs[0]], objs, ids) && SameContent(rows'[Ref(t, ids[0])], rows[objs[0]])
  {
    var o, n := objs[0], Ref(t, ids[0]);
    assert o.table == t && n == Ref(o.table, ids[0]);
    assert n in rows1 && SameContent(rows1[n], rows[o]);
    assert Moved(rows'[n], rows1[n], objs[1..], ids[1..]) && SameContent(rows'[n], rows1[n]);
    CopyFirst(rows'[n], rows1[n], rows[o], objs, ids);
  }

  lemma ComposeLaterCopy(rows: map<Ref, Row>, rows1: map<Ref, Row>, rows': map<Ref, Row>, objs: seq<Ref>, ids: seq<int>, t: string, i: int)
    requires 0 < |objs| <= |ids| && Placeholders(rows, objs, t) && FreshIds(rows, t, ids)
    requires StepFacts(rows, rows1, objs[0], ids[0]) && MovesAll(rows1, rows', objs[1..], ids[1..], t)
    requires 0 < i < |objs|
    ensures objs[i] in rows && Ref(t, ids[i]) in rows'
    ensures Moved(rows'[Ref(t, ids[i])], rows[objs[i]], objs, ids) && SameContent(rows'[Ref(t, ids[i])], rows[objs[i]])
  {
    var o := objs[0];
    var x, c := objs[i], Ref(t, ids[i]);
    assert objs[1..][i - 1] == x && ids[1..][i - 1] == ids[i];
    assert x in rows && c in rows';
    assert Moved(rows'[c], rows1[x], objs[1..], ids[1..]) && SameContent(rows'[c], rows1[x]);
    assert Moved(rows1[x], rows[x], [o], [ids[0]]) && SameContent(rows1[x], rows[x]);
    MovedCompose(rows'[c], rows1[x], rows[x], objs, ids);
  }

  /** The first placeholder's copy: its keys start as the placeholder's, which point at other rows. */
  lemma CopyFirst(row': Row, row1: Row, row0: Row, objs: seq<Ref>, ids: seq<int>)
    requires 0 < |objs| <= |ids| && ids[0] >= 0 && forall i :: 0 <= i < |objs| ==> objs[i].id < 0
    requires row1.links == row0.links && forall l :: l in row0.links ==> row0.links[l] != objs[0]
    requires Moved(row', row1, objs[1..], ids[1..])
    ensures Moved(row', row0, objs, ids)
  {
    MovedNone(row1, objs[0], ids[0]);
    MovedCompose(row', row1, row0, objs, ids);
  }

  /** `add_objects` followed by `new.delete()`: the account's placeholders of the class are
      gone, each replaced by a copy under the id Direct returned for it, with the same content
      and its keys pointing at copies; every other row is kept, but for its keys, which point at
      the copies instead of the placeholders; so no key is left dangling. Direct is assumed to
      answer with fresh ids, at least one per object. */
  lemma AddStepMoves(w: World, c: ObjClass, acc: string, env: Env)
    requires Linked(w.rows) && Listed(w.rows, w.order)
    requires var objs := Select(w.order, NewSet(w.rows, c, acc));
             var ids := env.reply(AddCall(c, objs));
             |objs| <= |ids| && FreshIds(w.rows, c.table, ids)
    ensures var s := NewSet(w.rows, c, acc);
            var objs := Select(w.order, s);
            var ids := env.reply(AddCall(c, objs));
            var w1 := AddStep(w, c, objs, env);
            var w2 := Drop(w1, NewSet(w1.rows, c, acc));
            && NewSet(w2.rows, c, acc) == {}
            && w2.rows.Keys == (w.rows.Keys - s) + Copies(c.table, ids[..|objs|])
            && Linked(w2.rows)
            && (forall r :: r in w.rows && r !in s ==>
                  Moved(w2.rows[r], w.rows[r], objs, ids) && w2.rows[r].(links := w.rows[r].links) == w.rows[r])
            && (forall i :: 0 <= i < |objs| ==>
                  && Ref(c.table, ids[i]) in w2.rows
                  && Moved(w2.rows[Ref(c.table, ids[i])], w.rows[objs[i]], objs, ids)
                  && SameContent(w2.rows[Ref(c.table, ids[i])], w.rows[objs[i]]))
  {
    var s := NewSet(w.rows, c, acc);
    var objs := Select(w.order, s);
    var ids := env.reply(AddCall(c, objs));
    var t := c.table;
    assert Placeholders(w.rows, objs, t);
    var w1 := AddStep(w, c, objs, env);
    assert w1.rows == RemapAll(Send(w, AddCall(c, objs)), objs, ids, env.now).rows by {
      if objs == [] {
        assert Send(w, AddCall(c, objs)).rows == w.rows;
      }
    }
    RemapAllMoves(Send(w, AddCall(c, objs)), objs, ids, env.now, t);
    NewSetKept(w.rows, w1.rows, objs, ids, c, acc);
    DropMoves(w.rows, w1.rows, objs, ids, t, s);
    assert Cascade(w1.rows, NewSet(w1.rows, c, acc)) == s;
  }

  /** The remapping neither adds nor removes a placeholder of the class. */
  lemma NewSetKept(rows: map<Ref, Row>, rows': map<Ref, Row>, objs: seq<Ref>, ids: seq<int>, c: ObjClass, acc: string)
    requires |objs| <= |ids| && FreshIds(rows, c.table, ids) && MovesAll(rows, rows', objs, ids, c.table)
    ensures NewSet(rows', c, acc) == NewSet(rows, c, acc)
  {
    forall r | r in NewSet(rows', c, acc) ensures r in rows {
    }
  }

  /** The copies carry ids Direct returned, none of them a placeholder's. */
  lemma CopiesFresh(rows: map<Ref, Row>, t: string, ids: seq<int>, k: nat, x: Ref)
    requires k <= |ids| && FreshIds(rows, t, ids) && x in Copies(t, ids[..k])
    ensures x.id >= 0 && x !in rows
  {
    var i :| 0 <= i < |ids[..k]| && x == Ref(t, ids[..k][i]);
    assert ids[..k][i] == ids[i];
  }

  /** Deleting the placeholders once their copies hold every key that pointed at them. */
  lemma DropMoves(rows: map<Ref, Row>, rows': map<Ref, Row>, objs: seq<Ref>, ids: seq<int>, t: string, s: set<Ref>)
    requires |objs| <= |ids| && Placeholders(rows, objs, t) && FreshIds(rows, t, ids)
    requires MovesAll(rows, rows', objs, ids, t)
    requires forall x :: x in s <==> x in objs
    ensures Cascade(rows', s) == s
    ensures var rows2 := Without(rows', s);
            && rows2.Keys == (rows.Keys - s) + Copies(t, ids[..|objs|])
            && Linked(rows2)
  {
    var rows2 := Without(rows', s);
    forall x | x in Copies(t, ids[..|objs|]) ensures x !in s {
      CopiesFresh(rows, t, ids, |objs|, x);
    }
    forall r | r in rows' ensures !LinksInto(rows'[r], s) {
      forall l | l in rows'[r].links ensures rows'[r].links[l] !in s {
        DropLink(rows, rows', objs, ids, t, r, l);
      }
    }
    CascadeNone(rows', s);
  }

  /** A key of a remapped row points at no placeholder. */
  lemma DropLink(rows: map<Ref, Row>, rows': map<Ref, Row>, objs: seq<Ref>, ids: seq<int>, t: string, r: Ref, l: string)
    requires |objs| <= |ids| && Placeholders(rows, objs, t) && FreshIds(rows, t, ids)
    requires MovesAll(rows, rows', objs, ids, t)
    requires r in rows' && l in rows'[r].links
    ensures rows'[r].links[l] !in objs
  {
    if r in rows {
      MapRefLeaves(objs, ids, rows[r].links[l]);
    } else {
      var i :| 0 <= i < |ids[..|objs|]| && r == Ref(t, ids[..|objs|][i]);
      assert r == Ref(t, ids[i]);
      MapRefLeaves(objs, ids, rows[objs[i]].links[l]);
    }
  }

  // ---------------------------------------------------------------- properties: the other steps

  /** Remapping objects to the ids they already have (what `update_objects` does with Direct's
      answer, whatever the `obj.id != id` test says) keeps every row and the order, and only
      appends to the histories. */
  lemma {:induction false} RemapOwnIds(w: World, objs: seq<Ref>, now: int)
    ensures var w' := RemapAll(w, objs, Ids(objs), now);
      && w'.order == w.order && w'.sent == w.sent && w'.rows.Keys == w.rows.Keys
      && forall r :: r in w.rows ==> w'.rows[r].(history := w.rows[r].history) == w.rows[r] && w.rows[r].history <= w'.rows[r].history
    decreases |objs|
  {
    if objs != [] {
      var o := objs[0];
      var w1 := Remapped(w, o, o.id, now);
      assert Ids(objs)[1..] == Ids(objs[1..]);
      RemappedOwnId(w, o, now);
      RemapOwnIds(w1, objs[1..], now);
      var w' := RemapAll(w1, objs[1..], Ids(objs[1..]), now);
      forall r | r in w.rows
        ensures w'.rows[r].(history := w.rows[r].history) == w.rows[r] && w.rows[r].history <= w'.rows[r].history
      {
        HistoryOnly(w.rows[r], w1.rows[r], w'.rows[r]);
      }
    }
  }

  /** One remapping of an object to its own id. */
  lemma RemappedOwnId(w: World, o: Ref, now: int)
    ensures var w1 := Remapped(w, o, o.id, now);
      && w1.order == w.order && w1.sent == w.sent && w1.rows.Keys == w.rows.Keys
      && forall r :: r in w.rows ==> w1.rows[r].(history := w.rows[r].history) == w.rows[r] && w.rows[r].history <= w1.rows[r].history
  {
    if o in w.rows {
      assert Ref(o.table, o.id) == o;
      ChangedIdSameId(w.rows, o, now);
    }
  }

  /** Two changes that only append to the history are one. */
  lemma HistoryOnly(a: Row, b: Row, c: Row)
    requires b.(history := a.history) == a && a.history <= b.history
    requires c.(history := b.history) == b && b.history <= c.history
    ensures c.(history := a.history) == a && a.history <= c.history
  {
  }

  /** `update_objects` when Direct answers with the objects' own ids: one request, and the
      store keeps its rows and order, their histories only growing. */
  lemma UpdateStepOwnIds(w: World, c: ObjClass, objs: seq<Ref>, env: Env)
    requires env.reply(UpdateCall(c, objs)) == Ids(objs)
    ensures var r := UpdateStep(w, c, objs, env);
      && r.ok
      && r.world.sent == w.sent + (if objs == [] then [] else [UpdateCall(c, objs)])
      && r.world.order == w.order && r.world.rows.Keys == w.rows.Keys
      && forall x :: x in w.rows ==> r.world.rows[x].(history := w.rows[x].history) == w.rows[x]
  {
    if objs != [] {
      RemapOwnIds(Send(w, UpdateCall(c, objs)), objs, env.now);
    }
  }

  /** `delete_objects` then the local delete: the run goes on exactly when there was nothing
      to delete or Direct answered for every id; then the class's rows marked for deletion
      are gone with every row their deletion cascades to, every other row is as it was, and
      no foreign key is left dangling. */
  lemma BackDeletes(w: World, c: ObjClass, acc: string, sync: Option<int>, p: Plan, env: Env)
    ensures var r := Back(w, c, acc, sync, p, env);
      var gone := Cascade(w.rows, DeletedSet(w.rows, c, acc, sync));
      && (r.ok <==> p.deleted == [] || |env.reply(Delete(c.names, p.deleted))| == |p.deleted|)
      && (r.ok ==>
            && DeletedSet(r.world.rows, c, acc, sync) == {}
            && r.world.rows.Keys == w.rows.Keys - gone
            && (forall x :: x in r.world.rows ==> r.world.rows[x] == w.rows[x])
            && (Linked(w.rows) ==> Linked(r.world.rows)))
  {
    if Linked(w.rows) {
      CascadeLinked(w.rows, DeletedSet(w.rows, c, acc, sync));
    }
  }

  /** What a cascading delete leaves has no foreign key to a deleted row. */
  lemma CascadeLinked(rows: map<Ref, Row>, s: set<Ref>)
    requires Linked(rows)
    ensures Linked(Without(rows, Cascade(rows, s)))
  {
    var gone := Cascade(rows, s);
    var rows' := Without(rows, gone);
    forall r, l | r in rows' && l in rows'[r].links ensures rows'[r].links[l] in rows' {
      assert !LinksInto(rows[r], gone);
    }
  }

  /** A row with one record after the synchronisation gives its id once; with two it is
      asked to be deleted twice. */
  lemma DeletedIdsExample()
    ensures var ad := Ref("TextAd", 7);
      var row := Row("acc", map[], DeleteState, "ACCEPTED", map[], [Snapshot(5, Changed, DeleteState, "ACCEPTED", map[], map[])]);
      && DeletedIds(map[ad := row], [ad], Some(1)) == [7]
      && DeletedIds(map[ad := row.(history := row.history + row.history)], [ad], Some(1)) == [7, 7]
  {
    var ad := Ref("TextAd", 7);
    var rec := Snapshot(5, Changed, DeleteState, "ACCEPTED", map[], map[]);
    assert CountAfter([rec], Some(1)) == 1 by {
      assert [rec][1..] == [];
    }
    assert CountAfter([rec, rec], Some(1)) == 2 by {
      assert [rec, rec][1..] == [rec];
      assert [rec][1..] == [];
    }
    assert [rec] + [rec] == [rec, rec];
  }

  /** Each row with a single record after the synchronisation: the deleted ids are the rows'
      ids, once each. */
  lemma {:induction false} DeletedIdsOnce(rows: map<Ref, Row>, objs: seq<Ref>, sync: Option<int>)
    requires forall o :: o in objs ==> o in rows && CountAfter(rows[o].history, sync) == 1
    ensures DeletedIds(rows, objs, sync) == Ids(objs)
  {
    if objs != [] {
      DeletedIdsOnce(rows, objs[1..], sync);
      assert Ids(objs) == [objs[0].id] + Ids(objs[1..]);
    }
  }

  /** The state change of an object that was also updated names the id Direct answered the
      update with; any other object keeps its id. */
  lemma StatesRenamed(objs: seq<Ref>, other: seq<Ref>, ids: seq<int>)
    requires Distinct(other) && |other| <= |ids|
    ensures forall j :: 0 <= j < |objs| && objs[j] !in other ==> Renamed(objs, other, ids)[j] == objs[j]
    ensures forall j, i :: 0 <= j < |objs| && 0 <= i < |other| && objs[j] == other[i] ==>
              Renamed(objs, other, ids)[j] == Ref(other[i].table, ids[i])
  {
    forall j | 0 <= j < |objs| && objs[j] !in other ensures Renamed(objs, other, ids)[j] == objs[j] {
      MapRefOutside(other, ids, objs[j]);
    }
    forall j, i | 0 <= j < |objs| && 0 <= i < |other| && objs[j] == other[i]
      ensures Renamed(objs, other, ids)[j] == Ref(other[i].table, ids[i])
    {
      MapRefAt(other, ids, i);
    }
  }

  /** The placeholder at `i` is remapped to the id at `i`. */
  lemma {:induction false} MapRefAt(objs: seq<Ref>, ids: seq<int>, i: nat)
    requires Distinct(objs) && i < |objs| <= |ids|
    ensures MapRef(objs, ids, objs[i]) == Ref(objs[i].table, ids[i])
  {
    if i > 0 {
      DistinctTail(objs);
      assert objs[1..][i - 1] == objs[i] && ids[1..][i - 1] == ids[i];
      MapRefAt(objs[1..], ids[1..], i - 1);
    }
  }

  /** When Direct answers the update with the objects' own ids the state changes name the
      objects as they were. */
  lemma RenamedOwnIds(objs: seq<Ref>, other: seq<Ref>)
    ensures Renamed(objs, other, Ids(other)) == objs
  {
    forall j | 0 <= j < |objs| ensures Renamed(objs, other, Ids(other))[j] == objs[j] {
      MapRefOwn(other, objs[j]);
    }
  }

  lemma {:induction false} MapRefOwn(objs: seq<Ref>, x: Ref)
    ensures MapRef(objs, Ids(objs), x) == x
    decreases |objs|
  {
    if objs != [] && x != objs[0] {
      assert Ids(objs)[1..] == Ids(objs[1..]);
      MapRefOwn(objs[1..], x);
    }
  }

  /** `change_object_states` asks to suspend exactly the objects in state `SUSPENDED` and to
      resume exactly those in state `ON`, each request only when it has ids, and goes on only
      when Direct answered for every id. */
  lemma StateStepCalls(w: World, c: ObjClass, objs: seq<Ref>, env: Env)
    requires objs != []
    ensures var off := IdsWith(w.rows, objs, "SUSPENDED");
      var on := IdsWith(w.rows, objs, "ON");
      var r := StateStep(w, c, objs, env);
      && (forall x :: x in off <==> exists o :: o in objs && o in w.rows && w.rows[o].state == "SUSPENDED" && o.id == x)
      && (forall x :: x in on <==> exists o :: o in objs && o in w.rows && w.rows[o].state == "ON" && o.id == x)
      && r.world.rows == w.rows
      && (r.ok <==> (off == [] || |env.reply(Suspend(c.names, off))| == |off|) && (on == [] || |env.reply(Resume(c.names, on))| == |on|))
      && (r.ok ==> r.world.sent == w.sent + (if off == [] then [] else [Suspend(c.names, off)])
                                          + (if on == [] then [] else [Resume(c.names, on)]))
  {
  }

  /** `modrate_new_ads`: when it goes on, no ad of the account is left a draft, the drafts
      are in status `MODERATION`, and every other row is as it was. */
  lemma ModerateClears(w: World, acc: string, env: Env)
    requires Listed(w.rows, w.order)
    ensures var r := ModerateStep(w, acc, env);
      && r.world.rows.Keys == w.rows.Keys
      && (r.ok ==>
            && DraftAds(r.world.rows, acc) == {}
            && (forall x :: x in DraftAds(w.rows, acc) ==> r.world.rows[x].status == "MODERATION")
            && (forall x :: x in w.rows && x !in DraftAds(w.rows, acc) ==> r.world.rows[x] == w.rows[x]))
  {
    var drafts := DraftAds(w.rows, acc);
    var ids := Ids(Select(w.order, drafts));
    forall x | x in w.rows ensures x in AdsWithIds(w.rows, ids) <==> x in drafts {
      if x in AdsWithIds(w.rows, ids) {
        var i :| 0 <= i < |ids| && ids[i] == x.id;
        var y := Select(w.order, drafts)[i];
        assert y in drafts && Ref(y.table, y.id) == x;
      }
    }
  }

  /** The verb of `<verb>_<service>` is `verb`. */
  lemma {:induction false} VerbOf(verb: string, service: string)
    requires '_' !in verb
    ensures Verb(verb + "_" + service) == verb
  {
    if verb != [] {
      assert (verb + "_" + service)[1..] == verb[1..] + "_" + service;
      VerbOf(verb[1..], service);
    }
  }

  /** The status methods of any service: `archive_` archives, `unarchive_` suspends, `resume_`
      turns on, and `suspend_` archives too, as written; any other verb has no status. */
  lemma StatusMap(service: string)
    ensures StatusAfter(Verb("archive_" + service)) == Some("ARCHIVED")
    ensures StatusAfter(Verb("unarchive_" + service)) == Some("SUSPENDED")
    ensures StatusAfter(Verb("suspend_" + service)) == Some("ARCHIVED")
    ensures StatusAfter(Verb("resume_" + service)) == Some("ON")
    ensures forall v :: '_' !in v && v !in {"archive", "unarchive", "suspend", "resume"} ==> StatusAfter(Verb(v + "_" + service)).None?
  {
    ArchiveVerb(service);
    UnarchiveVerb(service);
    SuspendVerb(service);
    ResumeVerb(service);
    OtherVerbs(service);
  }

  lemma ArchiveVerb(service: string)
    ensures StatusAfter(Verb("archive_" + service)) == Some("ARCHIVED")
  {
    VerbOf("archive", service);
    assert "archive" + "_" + service == "archive_" + service;
  }

  lemma UnarchiveVerb(service: string)
    ensures StatusAfter(Verb("unarchive_" + service)) == Some("SUSPENDED")
  {
    VerbOf("unarchive", service);
    assert "unarchive" + "_" + service == "unarchive_" + service;
  }

  lemma SuspendVerb(service: string)
    ensures StatusAfter(Verb("suspend_" + service)) == Some("ARCHIVED")
  {
    VerbOf("suspend", service);
    assert "suspend" + "_" + service == "suspend_" + service;
  }

  lemma ResumeVerb(service: string)
    ensures StatusAfter(Verb("resume_" + service)) == Some("ON")
  {
    VerbOf("resume", service);
    assert "resume" + "_" + service == "resume_" + service;
  }

  lemma OtherVerbs(service: string)
    ensures forall v :: '_' !in v && v !in {"archive", "unarchive", "suspend", "resume"} ==> StatusAfter(Verb(v + "_" + service)).None?
  {
    forall v | '_' !in v && v !in {"archive", "unarchive", "suspend", "resume"} ensures StatusAfter(Verb(v + "_" + service)).None? {
      VerbOf(v, service);
    }
  }

  /** A status method: one request on the objects' ids; when Direct answered for every id each
      row of the table with one of the ids gets the method's status, and no other row changes;
      an unknown method stops the run once there is such a row. */
  lemma StatusStepMeaning(w: World, methodName: string, objs: seq<Ref>, env: Env)
    requires objs != []
    ensures var ids := Ids(objs);
      var r := StatusStep(w, methodName, objs, env);
      var targets := RowsWithIds(w.rows, objs[0].table, ids);
      && r.world.sent == w.sent + [StatusCall(methodName, ids)]
      && r.world.rows.Keys == w.rows.Keys
      && (r.ok <==> |env.reply(StatusCall(methodName, ids))| == |ids| && (StatusAfter(Verb(methodName)).Some? || targets == {}))
      && (r.ok && StatusAfter(Verb(methodName)).Some? ==>
            forall x :: x in w.rows ==> r.world.rows[x].status == if x in targets then StatusAfter(Verb(methodName)).value else w.rows[x].status)
      && (forall x :: x in w.rows && x !in targets ==> r.world.rows[x] == w.rows[x])
  {
  }
}
