/** The AdvCake statistics download: items fetched in 70-day windows walking back from
    yesterday, each item read into an action with one position. The HTTP call is the `remote`
    parameter, taking the window's first and last day; the XML parse, the subid parser, float parsing and
    the final save are not part of this model (their results are parameters). */
module AdvCake {
  import opened Wrappers
  import opened Strings
  import opened Affiliate

  datatype Status = Pending | Approved | Declined

  /** What reading an item raises: a status missing from the status map, a time or number
      the parser refuses, the `TypeError` of indexing a string, or the `DoesNotExist` of
      `action.program` for a program the store does not have. */
  datatype AdvCakeError = KeyError(key: string) | ValueError(text: string) | TypeError | DoesNotExist(programId: int)

  /** `status_mapper[code]`. */
  function StatusOf(code: string): (r: Result<Status, AdvCakeError>)
    ensures r == Ok(Pending) <==> code == "1"
    ensures r == Ok(Approved) <==> code == "2"
    ensures r == Ok(Declined) <==> code == "3"
    ensures r.Err? <==> code != "1" && code != "2" && code != "3"
    ensures r.Err? ==> r.error == KeyError(code)
  {
    if code == "1" then Ok(Pending)
    else if code == "2" then Ok(Approved)
    else if code == "3" then Ok(Declined)
    else Err(KeyError(code))
  }

  /** One `<item>` of the statistics, its fields as text; an empty `clickedAt` is the missing
      click time. */
  datatype Item = Item(sub: SubId, status: string, date: string, clickedAt: string, dateChange: string,
                       offerId: string, price: string, commission: string, orderId: string)

  datatype Action = Action(tracking: Tracking, status: Status, actionTime: Moment, clickTime: Moment,
                           closingTime: Option<Moment>, programId: int, cart: int, payment: int, id: int)

  /** `datetime.fromisoformat`, as a parameter, with `ValueError` for text it refuses. */
  function Time(parseTime: string -> Option<Moment>, t: string): (r: Result<Moment, AdvCakeError>)
    ensures r.Ok? <==> parseTime(t).Some?
    ensures r.Ok? ==> parseTime(t) == Some(r.value)
    ensures r.Err? ==> r.error == ValueError(t)
  {
    match parseTime(t)
    case Some(m) => Ok(m)
    case None => Err(ValueError(t))
  }

  /** `int(t)`. */
  function Int(t: string): (r: Result<int, AdvCakeError>)
    ensures r.Ok? <==> ParseInt(t).Some?
    ensures r.Ok? ==> ParseInt(t) == Some(r.value)
    ensures r.Err? ==> r.error == ValueError(t)
  {
    match ParseInt(t)
    case Some(n) => Ok(n)
    case None => Err(ValueError(t))
  }

  /** `round(float(t) * 100)`, as a parameter, with `ValueError` for text it refuses. */
  function Kopecks(kopecks: string -> Option<int>, t: string): (r: Result<int, AdvCakeError>)
    ensures r.Ok? <==> kopecks(t).Some?
    ensures r.Ok? ==> kopecks(t) == Some(r.value)
    ensures r.Err? ==> r.error == ValueError(t)
  {
    match kopecks(t)
    case Some(n) => Ok(n)
    case None => Err(ValueError(t))
  }

  /** Every field of the item reads. */
  predicate Readable(item: Item, parseTime: string -> Option<Moment>, kopecks: string -> Option<int>) {
    && StatusOf(item.status).Ok?
    && parseTime(item.date).Some?
    && (item.clickedAt != "" ==> parseTime(item.clickedAt).Some?)
    && (item.status != "1" ==> parseTime(item.dateChange).Some?)
    && ParseInt(item.offerId).Some?
    && kopecks(item.price).Some? && kopecks(item.commission).Some?
    && ParseInt(item.orderId).Some?
  }

  /** `action_from_api_item`: the status mapped, the click time falling back to the action
      time, a closing time exactly when the action is no longer pending, amounts in kopecks,
      and the Google corrections; the first field that does not read raises. */
  function ActionFrom(item: Item, parseTime: string -> Option<Moment>, kopecks: string -> Option<int>): (r: Result<Action, AdvCakeError>)
    ensures r.Ok? <==> Readable(item, parseTime, kopecks)
    ensures StatusOf(item.status).Err? ==> r == Err(KeyError(item.status))
    ensures r.Ok? ==> Ok(r.value.status) == StatusOf(item.status)
    ensures r.Ok? ==> parseTime(item.date) == Some(r.value.actionTime)
    ensures r.Ok? && item.clickedAt == "" ==> r.value.clickTime == r.value.actionTime
    ensures r.Ok? && item.clickedAt != "" ==> parseTime(item.clickedAt) == Some(r.value.clickTime)
    ensures r.Ok? ==> (r.value.closingTime.Some? <==> r.value.status != Pending)
    ensures r.Ok? && r.value.closingTime.Some? ==> parseTime(item.dateChange) == r.value.closingTime
    ensures r.Ok? ==> ParseInt(item.offerId) == Some(r.value.programId) && ParseInt(item.orderId) == Some(r.value.id)
    ensures r.Ok? ==> kopecks(item.price) == Some(r.value.cart) && kopecks(item.commission) == Some(r.value.payment)
    ensures r.Ok? ==> r.value.tracking == Track(item.sub)
  {
    var status :- StatusOf(item.status);
    var actionTime :- Time(parseTime, item.date);
    var clickTime :- if item.clickedAt != "" then Time(parseTime, item.clickedAt) else Ok(actionTime);
    var closingTime :- if status != Pending then (var c :- Time(parseTime, item.dateChange); Ok(Some(c))) else Ok(None);
    var programId :- Int(item.offerId);
    var cart :- Kopecks(kopecks, item.price);
    var payment :- Kopecks(kopecks, item.commission);
    var id :- Int(item.orderId);
    Ok(Action(Track(item.sub), status, actionTime, clickTime, closingTime, programId, cart, payment, id))
  }

  /** `positions_from_api_item`: the one position of an action, under the action's id, for
      the whole cart, at the first tariff of the program (`firstTariff`, if it has one). The
      program must be in the store: `Known` is the item reader that raises otherwise. */
  function PositionFrom(a: Action, firstTariff: int -> Option<int>): (p: Position)
    ensures p.id == a.id && p.actionId == a.id
    ensures p.amount == Some(a.cart)
    ensures p.tariffId == firstTariff(a.programId)
  {
    Position(a.id, firstTariff(a.programId), Some(a.cart), a.id)
  }

  /** The positions of a list of actions, one each, in order. */
  function PositionsOf(actions: seq<Action>, firstTariff: int -> Option<int>): (ps: seq<Position>)
    ensures |ps| == |actions|
    ensures forall i :: 0 <= i < |actions| ==> ps[i] == PositionFrom(actions[i], firstTariff)
  {
    seq(|actions|, i requires 0 <= i < |actions| => PositionFrom(actions[i], firstTariff))
  }

  // ---------------------------------------------------------------- windows

  /** Days in a window, both ends included. */
  const WindowDays := 70

  /** The `k`-th window (first day, last day), counted from the one ending yesterday. */
  function Window(today: int, k: nat): (int, int) {
    var last := today - 1 - 70 * k;
    (last - 69, last)
  }

  /** The windows cover every day back from yesterday once: each is 70 days long, the first
      ends yesterday and each next one ends the day before the previous one starts. */
  lemma WindowsTile(today: int, k: nat)
    ensures Window(today, k).1 - Window(today, k).0 + 1 == 70
    ensures Window(today, 0).1 == today - 1
    ensures Window(today, k + 1).1 == Window(today, k).0 - 1
  {
  }

  /** The window after one that starts on `first`. */
  lemma WindowNext(today: int, k: nat, first: int)
    requires Window(today, k).0 == first
    ensures Window(today, k + 1) == (first - 70, first - 1)
  {
  }

  /** The parsed reply: no items, or a first item and the others. The XML parse gives a lone
      `<item>` as a mapping and several as a list. */
  datatype Reply = NoItems | Items(first: Item, others: seq<Item>)

  /** The reply to the `k`-th window. */
  function Fetch(today: int, remote: (int, int) -> Reply, k: nat): Reply {
    remote(Window(today, k).0, Window(today, k).1)
  }

  /** The items of a reply, as the loop means to walk them. */
  function ItemsOf(reply: Reply): (items: seq<Item>)
    ensures reply.NoItems? <==> items == []
    ensures reply.Items? ==> items == [reply.first] + reply.others
  {
    if reply.NoItems? then [] else [reply.first] + reply.others
  }

  /** The items as `result['items']['item']` walks them: a lone item is a mapping, and walking
      it gives its keys, strings that the item reader indexes with `'status'`. */
  function ItemsAsWritten(reply: Reply): Result<seq<Item>, AdvCakeError> {
    if reply.Items? && reply.others == [] then Err(TypeError) else Ok(ItemsOf(reply))
  }

  /** A window holding a single action cannot be read as written, while the items meant are
      that one item. */
  lemma LoneItemAsWritten(item: Item)
    ensures ItemsAsWritten(Items(item, [])) == Err(TypeError)
    ensures ItemsOf(Items(item, [])) == [item]
  {
  }

  /** Several items are walked as meant. */
  lemma SeveralItemsAsWritten(reply: Reply)
    requires reply.NoItems? || reply.others != []
    ensures ItemsAsWritten(reply) == Ok(ItemsOf(reply))
  {
  }

  /** `action_from_api_item` with its parsers fixed. */
  function Reader(parseTime: string -> Option<Moment>, kopecks: string -> Option<int>): Item -> Result<Action, AdvCakeError> {
    item => ActionFrom(item, parseTime, kopecks)
  }

  /** An item read, then its position made: `action.program` raises `DoesNotExist` for a
      program missing from `programs`, the store's programs with the first tariff of each (none
      when it has no tariff). */
  function Known(read: Item -> Result<Action, AdvCakeError>, programs: map<int, Option<int>>): Item -> Result<Action, AdvCakeError> {
    item => (var a :- read(item); if a.programId in programs then Ok(a) else Err(DoesNotExist(a.programId)))
  }

  /** `tariff_set.first()` of each program of the store. */
  function FirstTariff(programs: map<int, Option<int>>): int -> Option<int> {
    p => if p in programs then programs[p] else None
  }

  /** An item reads under `Known` exactly when it reads and its program is in the store; an
      item that reads with an unknown program raises `DoesNotExist` for it. */
  lemma KnownMeaning(read: Item -> Result<Action, AdvCakeError>, programs: map<int, Option<int>>, item: Item)
    ensures Known(read, programs)(item).Ok? <==> read(item).Ok? && read(item).value.programId in programs
    ensures Known(read, programs)(item).Ok? ==> Known(read, programs)(item) == read(item)
    ensures read(item).Err? ==> Known(read, programs)(item) == read(item)
    ensures read(item).Ok? && read(item).value.programId !in programs ==>
              Known(read, programs)(item) == Err(DoesNotExist(read(item).value.programId))
  {
  }

  /** Every action gathered through `Known` has its program in the store, so its position
      carries that program's first tariff. */
  lemma {:induction false} GatheredKnown(today: int, remote: (int, int) -> Reply, read: Item -> Result<Action, AdvCakeError>,
                                         programs: map<int, Option<int>>, n: nat)
    requires Gathered(today, remote, Known(read, programs), n).Ok?
    ensures var acts := Gathered(today, remote, Known(read, programs), n).value;
      forall i :: 0 <= i < |acts| ==>
        acts[i].programId in programs && PositionsOf(acts, FirstTariff(programs))[i].tariffId == programs[acts[i].programId]
  {
    if n > 0 {
      GatheredKnown(today, remote, read, programs, n - 1);
      var items := ItemsOf(Fetch(today, remote, n - 1));
      ReadAllKnown(items, read, programs);
    }
  }

  lemma {:induction false} ReadAllKnown(items: seq<Item>, read: Item -> Result<Action, AdvCakeError>, programs: map<int, Option<int>>)
    requires ReadAll(items, Known(read, programs)).Ok?
    ensures var acts := ReadAll(items, Known(read, programs)).value;
      forall i :: 0 <= i < |acts| ==> acts[i].programId in programs
    decreases |items|
  {
    if items != [] {
      ReadAllKnown(items[..|items| - 1], read, programs);
    }
  }

  /** The actions collected from the first `n` windows, or what the first item that does not
      read raises. */
  function Gathered(today: int, remote: (int, int) -> Reply, read: Item -> Result<Action, AdvCakeError>, n: nat): Result<seq<Action>, AdvCakeError>
  {
    if n == 0 then Ok([])
    else
      var before :- Gathered(today, remote, read, n - 1);
      var window :- ReadAll(ItemsOf(Fetch(today, remote, n - 1)), read);
      Ok(before + window)
  }

  /** The loop stops after a window whose last action, the earliest collected, is not after
      `dateFrom`. */
  predicate ReachedStart(dateFrom: Option<int>, actions: seq<Action>) {
    dateFrom.Some? && actions != [] && actions[|actions| - 1].actionTime.day <= dateFrom.value
  }

  /** Window `k` does not end the download: it holds items, they read, and the actions so far
      all come after `dateFrom` (or there is no `dateFrom`). */
  predicate GoesOn(today: int, dateFrom: Option<int>, remote: (int, int) -> Reply,
                   read: Item -> Result<Action, AdvCakeError>, k: nat)
  {
    var g := Gathered(today, remote, read, k + 1);
    Fetch(today, remote, k).Items? && g.Ok? && !ReachedStart(dateFrom, g.value)
  }

  /** The actions and positions collected from the first `k` windows. */
  ghost predicate Collected(today: int, remote: (int, int) -> Reply, read: Item -> Result<Action, AdvCakeError>, firstTariff: int -> Option<int>, k: nat,
                            actions: seq<Action>, positions: seq<Position>)
  {
    Gathered(today, remote, read, k) == Ok(actions) && positions == PositionsOf(actions, firstTariff)
  }

  /** `get_stats`: windows fetched one after the other until one is empty or reaches
      `dateFrom`, with the actions of all windows fetched and one position each, at the first
      tariff of the action's program; an unreadable item or an unknown program raises. The
      download ends only if some window is empty; `horizon` is such a window. */
  method GetStats(today: int, dateFrom: Option<int>, remote: (int, int) -> Reply,
                  parseTime: string -> Option<Moment>, kopecks: string -> Option<int>,
                  programs: map<int, Option<int>>, ghost horizon: nat)
    returns (r: Result<(seq<Action>, seq<Position>), AdvCakeError>, windows: nat)
    requires Fetch(today, remote, horizon).NoItems?
    ensures 1 <= windows <= horizon + 1
    ensures forall k :: 0 <= k < windows - 1 ==> GoesOn(today, dateFrom, remote, Known(Reader(parseTime, kopecks), programs), k)
    ensures r.Err? ==> Gathered(today, remote, Known(Reader(parseTime, kopecks), programs), windows) == Err(r.error)
    ensures r.Ok? ==> Gathered(today, remote, Known(Reader(parseTime, kopecks), programs), windows) == Ok(r.value.0)
    ensures r.Ok? ==> Fetch(today, remote, windows - 1).NoItems? || ReachedStart(dateFrom, r.value.0)
    ensures r.Ok? ==> r.value.1 == PositionsOf(r.value.0, FirstTariff(programs))
    ensures r.Ok? ==> forall i :: 0 <= i < |r.value.0| ==>
              r.value.0[i].programId in programs && r.value.1[i].tariffId == programs[r.value.0[i].programId]
  {
    var read := Known(Reader(parseTime, kopecks), programs);
    r, windows := Download(today, dateFrom, remote, read, FirstTariff(programs), horizon);
    assert AllGoOn(today, dateFrom, remote, read, windows - 1);
    if r.Ok? {
      GatheredKnown(today, remote, Reader(parseTime, kopecks), programs, windows);
    }
  }

  /** The loop of `get_stats`, for any item reader. */
  method Download(today: int, dateFrom: Option<int>, remote: (int, int) -> Reply,
                  read: Item -> Result<Action, AdvCakeError>,
                  firstTariff: int -> Option<int>, ghost horizon: nat)
    returns (r: Result<(seq<Action>, seq<Position>), AdvCakeError>, windows: nat)
    requires Fetch(today, remote, horizon).NoItems?
    ensures 1 <= windows <= horizon + 1
    ensures AllGoOn(today, dateFrom, remote, read, windows - 1)
    ensures r.Err? ==> Gathered(today, remote, read, windows) == Err(r.error)
    ensures r.Ok? ==> Gathered(today, remote, read, windows) == Ok(r.value.0)
    ensures r.Ok? ==> Fetch(today, remote, windows - 1).NoItems? || ReachedStart(dateFrom, r.value.0)
    ensures r.Ok? ==> r.value.1 == PositionsOf(r.value.0, firstTariff)
  {
    var actions: seq<Action> := [];
    var positions: seq<Position> := [];
    var batchTo := today - 1;
    var batchFrom := batchTo - (WindowDays - 1);
    windows := 0;
    while true
      invariant windows <= horizon
      invariant Downloading(today, dateFrom, remote, read, firstTariff, windows, batchFrom, batchTo, actions, positions)
      decreases horizon - windows
    {
      var got, stop := Round(today, dateFrom, remote, read, firstTariff, windows, horizon, batchFrom, batchTo, actions, positions);
      windows := windows + 1;
      if stop {
        return got, windows;
      }
      actions, positions := got.value.0, got.value.1;
      batchTo := batchFrom - 1;
      batchFrom := batchTo - (WindowDays - 1);
    }
  }

  /** The state of the loop of `get_stats` before window `k`: its bounds, the actions and
      positions of the windows before it, and none of those windows stopped the loop. */
  ghost predicate Downloading(today: int, dateFrom: Option<int>, remote: (int, int) -> Reply, read: Item -> Result<Action, AdvCakeError>,
                              firstTariff: int -> Option<int>, k: nat, batchFrom: int, batchTo: int,
                              actions: seq<Action>, positions: seq<Position>)
  {
    && (batchFrom, batchTo) == Window(today, k)
    && Collected(today, remote, read, firstTariff, k, actions, positions)
    && AllGoOn(today, dateFrom, remote, read, k)
  }

  /** One pass of the loop of `get_stats`: the `k`-th window fetched and read, and whether the
      loop stops after it (the window is empty, an item does not read, or the earliest action
      so far is not after `dateFrom`). */
  method Round(today: int, dateFrom: Option<int>, remote: (int, int) -> Reply, read: Item -> Result<Action, AdvCakeError>,
               firstTariff: int -> Option<int>, ghost k: nat, ghost horizon: nat,
               batchFrom: int, batchTo: int, actions: seq<Action>, positions: seq<Position>)
    returns (got: Result<(seq<Action>, seq<Position>), AdvCakeError>, stop: bool)
    requires k <= horizon && Fetch(today, remote, horizon).NoItems?
    requires Downloading(today, dateFrom, remote, read, firstTariff, k, batchFrom, batchTo, actions, positions)
    ensures stop ==> AllGoOn(today, dateFrom, remote, read, k)
    ensures stop && got.Err? ==> Gathered(today, remote, read, k + 1) == Err(got.error)
    ensures stop && got.Ok? ==> Gathered(today, remote, read, k + 1) == Ok(got.value.0)
    ensures stop && got.Ok? ==> Fetch(today, remote, k).NoItems? || ReachedStart(dateFrom, got.value.0)
    ensures stop && got.Ok? ==> got.value.1 == PositionsOf(got.value.0, firstTariff)
    ensures !stop ==> && got.Ok? && k < horizon
                      && Downloading(today, dateFrom, remote, read, firstTariff, k + 1, batchFrom - 70, batchFrom - 1, got.value.0, got.value.1)
  {
    var empty;
    got, empty := FetchWindow(today, remote, read, firstTariff, k, horizon, batchFrom, batchTo, actions, positions);
    if empty || got.Err? {
      return got, true;
    }
    var acts := got.value.0;
    if dateFrom.Some? && acts[|acts| - 1].actionTime.day <= dateFrom.value {
      return got, true;
    }
    AllGoOnStep(today, dateFrom, remote, read, k, acts);
    WindowNext(today, k, batchFrom);
    stop := false;
  }

  /** One pass of the loop of `get_stats` up to the stop test: the `k`-th window fetched and,
      if it holds items, their actions and positions appended. */
  method FetchWindow(today: int, remote: (int, int) -> Reply, read: Item -> Result<Action, AdvCakeError>, firstTariff: int -> Option<int>, ghost k: nat, ghost horizon: nat,
                     batchFrom: int, batchTo: int, actions: seq<Action>, positions: seq<Position>)
    returns (got: Result<(seq<Action>, seq<Position>), AdvCakeError>, empty: bool)
    requires (batchFrom, batchTo) == Window(today, k)
    requires k <= horizon && Fetch(today, remote, horizon).NoItems?
    requires Collected(today, remote, read, firstTariff, k, actions, positions)
    ensures empty <==> Fetch(today, remote, k).NoItems?
    ensures empty ==> got == Ok((actions, positions))
    ensures got.Ok? ==> Collected(today, remote, read, firstTariff, k + 1, got.value.0, got.value.1)
    ensures got.Ok? && !empty ==> |got.value.0| > |actions| && k < horizon
    ensures got.Err? ==> Gathered(today, remote, read, k + 1) == Err(got.error)
  {
    var reply := remote(batchFrom, batchTo);
    if reply.NoItems? {
      GatheredEmpty(today, remote, read, k);
      return Ok((actions, positions)), true;
    }
    var items := ItemsOf(reply);
    got := ReadWindow(items, read, firstTariff, actions, positions);
    empty := false;
    if got.Err? {
      GatheredFails(today, remote, read, k, got.error);
    } else {
      GatheredStep(today, remote, read, k, actions, got.value.0);
    }
  }

  /** The inner loop of `get_stats`: the actions of one window's items appended, each with its
      position, or what the first item that does not read raises. */
  method ReadWindow(items: seq<Item>, read: Item -> Result<Action, AdvCakeError>, firstTariff: int -> Option<int>,
                    actions: seq<Action>, positions: seq<Position>)
    returns (r: Result<(seq<Action>, seq<Position>), AdvCakeError>)
    requires positions == PositionsOf(actions, firstTariff)
    ensures r.Ok? <==> ReadAll(items, read).Ok?
    ensures r.Err? ==> ReadAll(items, read) == Err(r.error)
    ensures r.Ok? ==> r.value.0 == actions + ReadAll(items, read).value
    ensures r.Ok? ==> r.value.1 == PositionsOf(r.value.0, firstTariff)
  {
    var acts, poss := actions, positions;
    var i := 0;
    while i < |items|
      invariant 0 <= i <= |items|
      invariant ReadAll(items[..i], read).Ok?
      invariant acts == actions + ReadAll(items[..i], read).value
      invariant poss == PositionsOf(acts, firstTariff)
    {
      var action := read(items[i]);
      ReadSnoc(items, i, read);
      if action.Err? {
        ReadFirstError(items, i, read);
        return Err(action.error);
      }
      acts := acts + [action.value];
      poss := poss + [PositionFrom(action.value, firstTariff)];
      i := i + 1;
    }
    assert items[..|items|] == items;
    r := Ok((acts, poss));
  }

  /** The first `n` windows do not end the download. */
  ghost predicate AllGoOn(today: int, dateFrom: Option<int>, remote: (int, int) -> Reply,
                          read: Item -> Result<Action, AdvCakeError>, n: int)
  {
    forall k :: 0 <= k < n ==> GoesOn(today, dateFrom, remote, read, k)
  }

  /** A window with items, after which the actions collected all come after `dateFrom`, does
      not end the download. */
  lemma AllGoOnStep(today: int, dateFrom: Option<int>, remote: (int, int) -> Reply,
                    read: Item -> Result<Action, AdvCakeError>, n: nat, actions: seq<Action>)
    requires AllGoOn(today, dateFrom, remote, read, n)
    requires Fetch(today, remote, n).Items? && Gathered(today, remote, read, n + 1) == Ok(actions)
    requires !ReachedStart(dateFrom, actions)
    ensures AllGoOn(today, dateFrom, remote, read, n + 1)
  {
    assert GoesOn(today, dateFrom, remote, read, n);
  }

  /** An empty window adds no action. */
  lemma GatheredEmpty(today: int, remote: (int, int) -> Reply, read: Item -> Result<Action, AdvCakeError>, k: nat)
    requires Fetch(today, remote, k).NoItems? && Gathered(today, remote, read, k).Ok?
    ensures Gathered(today, remote, read, k + 1) == Gathered(today, remote, read, k)
  {
    var g := Gathered(today, remote, read, k).value;
    assert g + [] == g;
  }

  /** A window whose items all read adds their actions. */
  lemma GatheredStep(today: int, remote: (int, int) -> Reply, read: Item -> Result<Action, AdvCakeError>, k: nat, before: seq<Action>, after: seq<Action>)
    requires Gathered(today, remote, read, k) == Ok(before)
    requires var c := ReadAll(ItemsOf(Fetch(today, remote, k)), read);
             c.Ok? && after == before + c.value
    ensures Gathered(today, remote, read, k + 1) == Ok(after)
  {
  }

  /** A window with an item that does not read raises what that item raises. */
  lemma GatheredFails(today: int, remote: (int, int) -> Reply, read: Item -> Result<Action, AdvCakeError>, k: nat, e: AdvCakeError)
    requires Gathered(today, remote, read, k).Ok?
    requires ReadAll(ItemsOf(Fetch(today, remote, k)), read) == Err(e)
    ensures Gathered(today, remote, read, k + 1) == Err(e)
  {
  }
}
