/** The Admitad manager: a program's tariffs refreshed from its rates, and the statistics
    downloaded page by page, keeping the actions of known programs with their positions. The
    API client and the currency converter are parameters; the subid parser and the final save
    are not part of this model. */
module Admitad {
  import opened Wrappers
  import opened Dates
  import opened Affiliate

  /** What the manager raises: rates of one tariff that differ, a tariff without rates, and
      text that a time or number parser refuses. */
  datatype AdmitadError = DifferentRates | IndexError | ValueError(text: string)

  // ---------------------------------------------------------------- update_rates

  /** One rate of a tariff, its size as the API writes it. */
  datatype Rate = Rate(size: string, isPercentage: bool)
  datatype TariffData = TariffData(id: int, name: string, rates: seq<Rate>)
  datatype ActionDetail = ActionDetail(name: string, tariffs: seq<TariffData>)

  /** A tariff's size: a share of the cart, or a fixed payment in kopecks. */
  datatype TariffSize = Share(fraction: real) | Fixed(kopecks: int)
  datatype Tariff = Tariff(name: string, isPercentage: bool, size: TariffSize, programId: int)

  /** The program whose rates are read, with `float()` and the conversion of a payment in the
      program's currency to kopecks (`round(convert(currency, 'RUB', x) * 100)`). */
  datatype Program = Program(id: int, currency: string, toFloat: string -> Option<real>, rubles: (string, real) -> int)

  /** All rates of a tariff have one size. */
  predicate SameRates(rates: seq<Rate>) {
    forall i, j :: 0 <= i < |rates| && 0 <= j < |rates| ==> rates[i].size == rates[j].size
  }

  /** The check of `update_rates` over one tariff's rates, with the running `rate_size`: false
      where it raises. */
  method CheckRates(rates: seq<Rate>) returns (same: bool)
    ensures same <==> SameRates(rates)
  {
    var rateSize: Option<string> := None;
    var i := 0;
    while i < |rates|
      invariant 0 <= i <= |rates|
      invariant i == 0 <==> rateSize.None?
      invariant i > 0 ==> rateSize == Some(rates[0].size) && forall j :: 0 <= j < i ==> rates[j].size == rates[0].size
    {
      if rateSize.Some? && rates[i].size != rateSize.value {
        assert !SameRates(rates) by {
          assert rates[i].size != rates[0].size;
        }
        return false;
      }
      rateSize := Some(rates[i].size);
      i := i + 1;
    }
    return true;
  }

  /** The tariff saved for a tariff of the API, read from its first rate: a share of a
      percentage size, the payment converted to kopecks otherwise. */
  function TariffFrom(p: Program, actionName: string, t: TariffData): (r: Result<Tariff, AdmitadError>)
    ensures t.rates == [] ==> r == Err(IndexError)
    ensures r.Ok? <==> t.rates != [] && p.toFloat(t.rates[0].size).Some?
    ensures r.Err? && t.rates != [] ==> r.error == ValueError(t.rates[0].size)
    ensures r.Ok? ==> r.value.name == actionName + "/" + t.name && r.value.programId == p.id
    ensures r.Ok? ==> r.value.isPercentage == t.rates[0].isPercentage
    ensures r.Ok? && r.value.isPercentage ==> r.value.size == Share(p.toFloat(t.rates[0].size).value / 100.0)
    ensures r.Ok? && !r.value.isPercentage ==> r.value.size == Fixed(p.rubles(p.currency, p.toFloat(t.rates[0].size).value))
  {
    if t.rates == [] then Err(IndexError)
    else match p.toFloat(t.rates[0].size)
      case None => Err(ValueError(t.rates[0].size))
      case Some(size) =>
        var pct := t.rates[0].isPercentage;
        Ok(Tariff(actionName + "/" + t.name, pct, if pct then Share(size / 100.0) else Fixed(p.rubles(p.currency, size)), p.id))
  }

  /** One tariff as the loop handles it: the rate check first, then the tariff read. */
  function TariffStep(p: Program, named: (string, TariffData)): (r: Result<Tariff, AdmitadError>)
    ensures !SameRates(named.1.rates) ==> r == Err(DifferentRates)
    ensures SameRates(named.1.rates) ==> r == TariffFrom(p, named.0, named.1)
  {
    if !SameRates(named.1.rates) then Err(DifferentRates) else TariffFrom(p, named.0, named.1)
  }

  /** The tariffs of one action, each with the action's name. */
  function Pairs(d: ActionDetail): (ps: seq<(string, TariffData)>)
    ensures |ps| == |d.tariffs| && forall i :: 0 <= i < |ps| ==> ps[i] == (d.name, d.tariffs[i])
  {
    seq(|d.tariffs|, i requires 0 <= i < |d.tariffs| => (d.name, d.tariffs[i]))
  }

  /** The tariffs of all actions in the order the two loops walk them. */
  function Tariffs(detail: seq<ActionDetail>): seq<(string, TariffData)> {
    if detail == [] then [] else Tariffs(detail[..|detail| - 1]) + Pairs(detail[|detail| - 1])
  }

  /** The tariff table and the ids saved so far, or the exception that stopped the loop. */
  datatype Progress = Progress(rows: map<int, Tariff>, outcome: Result<seq<int>, AdmitadError>)

  /** `update_or_create` of one more tariff, unless the loop has already raised. */
  function SaveStep(s: Progress, p: Program, named: (string, TariffData)): Progress {
    if s.outcome.Err? then s
    else match TariffStep(p, named)
      case Err(e) => Progress(s.rows, Err(e))
      case Ok(t) => Progress(s.rows[named.1.id := t], Ok(s.outcome.value + [named.1.id]))
  }

  /** The tariff table after each tariff is saved in turn; the tariffs saved before an
      exception stay saved. */
  function Saved(rows: map<int, Tariff>, p: Program, flat: seq<(string, TariffData)>): Progress {
    if flat == [] then Progress(rows, Ok([]))
    else SaveStep(Saved(rows, p, flat[..|flat| - 1]), p, flat[|flat| - 1])
  }

  /** `program.tariff_set.exclude(id__in=ids).delete()`. */
  function Prune(rows: map<int, Tariff>, programId: int, ids: seq<int>): (m: map<int, Tariff>)
    ensures forall k :: k in m <==> k in rows && (rows[k].programId != programId || k in ids)
    ensures forall k :: k in m ==> m[k] == rows[k]
  {
    map k | k in rows && (rows[k].programId != programId || k in ids) :: rows[k]
  }

  /** The tariff table, `update_rates` changing it in place. */
  class TariffTable {
    var rows: map<int, Tariff>

    constructor (rows: map<int, Tariff>)
      ensures this.rows == rows
    {
      this.rows := rows;
    }

    /** `update_rates`: every tariff of every action saved in turn, raising at the first whose
        rates differ or that cannot be read; when all are saved, the program's other tariffs
        are deleted. */
    method UpdateRates(p: Program, detail: seq<ActionDetail>) returns (r: Result<(), AdmitadError>)
      modifies this
      ensures var s := Saved(old(rows), p, Tariffs(detail));
        && (r.Ok? <==> s.outcome.Ok?)
        && (r.Err? ==> s.outcome == Err(r.error))
        && rows == if s.outcome.Ok? then Prune(s.rows, p.id, s.outcome.value) else s.rows
    {
      ghost var start := rows;
      var ids: seq<int> := [];
      var a := 0;
      while a < |detail|
        invariant 0 <= a <= |detail|
        invariant Saved(start, p, Tariffs(detail[..a])) == Progress(rows, Ok(ids))
      {
        assert Tariffs(detail[..a + 1]) == Tariffs(detail[..a]) + Pairs(detail[a]) by {
          assert detail[..a + 1][..a] == detail[..a];
        }
        var saved := SaveAction(p, detail[a], start, Tariffs(detail[..a]), ids);
        if saved.Err? {
          TariffsSplit(detail, a + 1);
          SavedErrStays(start, p, Tariffs(detail[..a + 1]), Tariffs(detail[a + 1..]));
          return Err(saved.error);
        }
        ids := saved.value;
        a := a + 1;
      }
      assert detail[..|detail|] == detail;
      rows := Prune(rows, p.id, ids);
      r := Ok(());
    }

    /** The inner loop of `update_rates` over the tariffs of one action. */
    method SaveAction(p: Program, d: ActionDetail, ghost start: map<int, Tariff>,
                      ghost done: seq<(string, TariffData)>, ids: seq<int>)
      returns (r: Result<seq<int>, AdmitadError>)
      modifies this
      requires Saved(start, p, done) == Progress(rows, Ok(ids))
      ensures Saved(start, p, done + Pairs(d)) == Progress(rows, r)
    {
      var saved := ids;
      var b := 0;
      assert done + Pairs(d)[..0] == done;
      while b < |d.tariffs|
        invariant 0 <= b <= |d.tariffs|
        invariant Saved(start, p, done + Pairs(d)[..b]) == Progress(rows, Ok(saved))
      {
        var t := d.tariffs[b];
        SavedAction(start, p, done, d, b);
        var same := CheckRates(t.rates);
        if !same {
          return Err(DifferentRates);
        }
        var tariff := TariffFrom(p, d.name, t);
        if tariff.Err? {
          return Err(tariff.error);
        }
        rows := rows[t.id := tariff.value];
        saved := saved + [t.id];
        b := b + 1;
      }
      assert Pairs(d)[..|d.tariffs|] == Pairs(d);
      r := Ok(saved);
    }
  }

  /** Once a tariff raises, the tariffs after it change nothing. */
  lemma {:induction false} SavedErrStays(rows: map<int, Tariff>, p: Program,
                                          flat: seq<(string, TariffData)>, more: seq<(string, TariffData)>)
    requires Saved(rows, p, flat).outcome.Err?
    ensures Saved(rows, p, flat + more) == Saved(rows, p, flat)
    decreases |more|
  {
    if more == [] {
      assert flat + more == flat;
    } else {
      var n := |more| - 1;
      SavedErrStays(rows, p, flat, more[..n]);
      assert flat + more == flat + more[..n] + [more[n]];
      SavedSnoc(rows, p, flat + more[..n], more[n]);
    }
  }

  /** The `b`-th tariff of an action handled: saved, or raising what the whole action raises. */
  lemma SavedAction(rows: map<int, Tariff>, p: Program, done: seq<(string, TariffData)>, d: ActionDetail, b: nat)
    requires b < |d.tariffs|
    ensures var before := Saved(rows, p, done + Pairs(d)[..b]);
            var step := TariffStep(p, (d.name, d.tariffs[b]));
      && (before.outcome.Ok? && step.Err? ==> Saved(rows, p, done + Pairs(d)) == Progress(before.rows, Err(step.error)))
      && Saved(rows, p, done + Pairs(d)[..b + 1]) == SaveStep(before, p, (d.name, d.tariffs[b]))
  {
    assert done + Pairs(d)[..b + 1] == done + Pairs(d)[..b] + [(d.name, d.tariffs[b])];
    SavedSnoc(rows, p, done + Pairs(d)[..b], (d.name, d.tariffs[b]));
    if Saved(rows, p, done + Pairs(d)[..b + 1]).outcome.Err? {
      SavedActionRest(rows, p, done, d, b);
    }
  }

  /** Once the `b`-th tariff of an action raises, the action raises that. */
  lemma SavedActionRest(rows: map<int, Tariff>, p: Program, done: seq<(string, TariffData)>, d: ActionDetail, b: nat)
    requires b < |d.tariffs| && Saved(rows, p, done + Pairs(d)[..b + 1]).outcome.Err?
    ensures Saved(rows, p, done + Pairs(d)) == Saved(rows, p, done + Pairs(d)[..b + 1])
  {
    SavedErrStays(rows, p, done + Pairs(d)[..b + 1], Pairs(d)[b + 1..]);
    assert done + Pairs(d)[..b + 1] + Pairs(d)[b + 1..] == done + Pairs(d);
  }

  /** One more tariff handled. */
  lemma SavedSnoc(rows: map<int, Tariff>, p: Program, flat: seq<(string, TariffData)>, named: (string, TariffData))
    ensures Saved(rows, p, flat + [named]) == SaveStep(Saved(rows, p, flat), p, named)
  {
    assert (flat + [named])[..|flat|] == flat;
  }

  /** The walk over the actions is the walk over a first part followed by the rest. */
  lemma {:induction false} TariffsSplit(detail: seq<ActionDetail>, k: nat)
    requires k <= |detail|
    ensures Tariffs(detail) == Tariffs(detail[..k]) + Tariffs(detail[k..])
    decreases |detail|
  {
    if k == |detail| {
      assert detail[..k] == detail;
      assert detail[k..] == [];
    } else {
      var n := |detail| - 1;
      var init := detail[..n];
      var rest := detail[k..];
      TariffsSplit(init, k);
      assert init[..k] == detail[..k];
      assert rest[..|rest| - 1] == init[k..];
      assert rest[|rest| - 1] == detail[n];
      TariffsSnoc(detail);
      TariffsSnoc(rest);
      assert Tariffs(rest) == Tariffs(init[k..]) + Pairs(detail[n]);
    }
  }

  /** The walk over the actions ends with the last one's tariffs. */
  lemma TariffsSnoc(detail: seq<ActionDetail>)
    requires detail != []
    ensures var init := detail[..|detail| - 1]; Tariffs(detail) == Tariffs(init) + Pairs(detail[|detail| - 1])
  {
  }

  /** The walk succeeds exactly when every tariff passes the rate check and reads; a tariff
      whose rates differ, after tariffs that all passed, raises `Different rates in Tariff`. */
  lemma {:induction false} SavedOk(rows: map<int, Tariff>, p: Program, flat: seq<(string, TariffData)>)
    ensures Saved(rows, p, flat).outcome.Ok? <==> forall i :: 0 <= i < |flat| ==> TariffStep(p, flat[i]).Ok?
    ensures forall i :: 0 <= i < |flat| && !SameRates(flat[i].1.rates)
                   && (forall j :: 0 <= j < i ==> TariffStep(p, flat[j]).Ok?)
                   ==> Saved(rows, p, flat).outcome == Err(DifferentRates)
    decreases |flat|
  {
    if flat != [] {
      var n := |flat| - 1;
      var init := flat[..n];
      SavedOk(rows, p, init);
      assert forall i :: 0 <= i < n ==> init[i] == flat[i];
      forall i | 0 <= i < n && !SameRates(flat[i].1.rates) && (forall j :: 0 <= j < i ==> TariffStep(p, flat[j]).Ok?)
        ensures Saved(rows, p, flat).outcome == Err(DifferentRates)
      {
        assert !SameRates(init[i].1.rates);
        assert forall j :: 0 <= j < i ==> TariffStep(p, init[j]).Ok?;
      }
    }
  }

  /** Every id saved holds a tariff of the program; a tariff whose id is not among those of the
      walk keeps its row, and no other row appears. */
  lemma {:induction false} SavedRows(rows: map<int, Tariff>, p: Program, flat: seq<(string, TariffData)>)
    ensures var s := Saved(rows, p, flat);
      && (s.outcome.Ok? ==> forall id :: id in s.outcome.value ==> id in s.rows && s.rows[id].programId == p.id)
      && (forall k :: k in rows && (forall i :: 0 <= i < |flat| ==> flat[i].1.id != k) ==> k in s.rows && s.rows[k] == rows[k])
      && (forall k :: k in s.rows ==> k in rows || exists i :: 0 <= i < |flat| && flat[i].1.id == k)
    decreases |flat|
  {
    if flat != [] {
      var n := |flat| - 1;
      var init := flat[..n];
      SavedRows(rows, p, init);
      assert forall i :: 0 <= i < n ==> init[i] == flat[i];
      var s := Saved(rows, p, init);
      forall k | k in Saved(rows, p, flat).rows && k != flat[n].1.id && k !in rows
        ensures exists i :: 0 <= i < |flat| && flat[i].1.id == k
      {
        assert k in s.rows;
        var i :| 0 <= i < n && init[i].1.id == k;
        assert flat[i].1.id == k;
      }
      assert flat[n].1.id == flat[n].1.id;
    }
  }

  /** After a successful `update_rates` the program's tariffs are exactly those of the API, and
      a tariff of another program keeps its row unless the API reuses its id. */
  lemma RatesAfterUpdate(rows: map<int, Tariff>, p: Program, detail: seq<ActionDetail>)
    requires Saved(rows, p, Tariffs(detail)).outcome.Ok?
    ensures var s := Saved(rows, p, Tariffs(detail));
            var after := Prune(s.rows, p.id, s.outcome.value);
      && (forall k :: k in after && after[k].programId == p.id <==> k in s.outcome.value)
      && (forall k :: k in rows && rows[k].programId != p.id
                      && (forall i :: 0 <= i < |Tariffs(detail)| ==> Tariffs(detail)[i].1.id != k)
                      ==> k in after && after[k] == rows[k])
  {
    SavedRows(rows, p, Tariffs(detail));
  }

  // ---------------------------------------------------------------- get_stats

  /** One position of an item, its amount as text (`'None'` when unknown). */
  datatype PositionData = PositionData(id: int, tariffId: int, amount: string)

  /** One result of the statistics; `cart` is `None` where the API gives none. */
  datatype AdmitadItem = AdmitadItem(sub: SubId, clickDate: string, actionDate: string, closingDate: string,
                                     status: string, programId: int, currency: string, cart: Option<real>,
                                     payment: real, id: int, websiteName: string, actionId: int,
                                     positions: seq<PositionData>)

  datatype AdmitadAction = AdmitadAction(tracking: Tracking, clickTime: Moment, actionTime: Moment,
                                         closingTime: Option<Moment>, status: string, programId: int,
                                         cart: Option<int>, payment: int, id: int, websiteName: string)

  /** `datetime.fromisoformat`, as a parameter, with `ValueError` for text it refuses. */
  function Time(parseTime: string -> Option<Moment>, t: string): (r: Result<Moment, AdmitadError>)
    ensures r.Ok? <==> parseTime(t).Some?
    ensures r.Ok? ==> parseTime(t) == Some(r.value)
    ensures r.Err? ==> r.error == ValueError(t)
  {
    match parseTime(t)
    case Some(m) => Ok(m)
    case None => Err(ValueError(t))
  }

  /** `action_from_api_item`: the times read, a closing time only where the item has a closing
      date, the cart (if any) and payment converted to kopecks at the action's time, and the
      Google corrections. `kopecks(currency, x, t)` is `round(convert(currency, 'RUB', x, t) * 100)`. */
  function ActionFrom(item: AdmitadItem, parseTime: string -> Option<Moment>, kopecks: (string, real, Moment) -> int)
    : (r: Result<AdmitadAction, AdmitadError>)
    ensures r.Ok? <==> parseTime(item.clickDate).Some? && parseTime(item.actionDate).Some?
                       && (item.closingDate != "" ==> parseTime(item.closingDate).Some?)
    ensures r.Ok? ==> parseTime(item.clickDate) == Some(r.value.clickTime) && parseTime(item.actionDate) == Some(r.value.actionTime)
    ensures r.Ok? ==> (r.value.closingTime.Some? <==> item.closingDate != "")
    ensures r.Ok? && r.value.closingTime.Some? ==> parseTime(item.closingDate) == r.value.closingTime
    ensures r.Ok? ==> r.value.status == item.status && r.value.programId == item.programId && r.value.id == item.id
    ensures r.Ok? ==> (r.value.cart.None? <==> item.cart.None?)
    ensures r.Ok? && item.cart.Some? ==> r.value.cart == Some(kopecks(item.currency, item.cart.value, r.value.actionTime))
    ensures r.Ok? ==> r.value.payment == kopecks(item.currency, item.payment, r.value.actionTime)
    ensures r.Ok? ==> r.value.tracking == Track(item.sub) && r.value.websiteName == item.websiteName
  {
    var clickTime :- Time(parseTime, item.clickDate);
    var actionTime :- Time(parseTime, item.actionDate);
    var closingTime :- if item.closingDate != "" then (var c :- Time(parseTime, item.closingDate); Ok(Some(c))) else Ok(None);
    var cart := if item.cart.Some? then Some(kopecks(item.currency, item.cart.value, actionTime)) else None;
    var payment := kopecks(item.currency, item.payment, actionTime);
    Ok(AdmitadAction(Track(item.sub), clickTime, actionTime, closingTime, item.status, item.programId,
                     cart, payment, item.id, item.websiteName))
  }

  /** One position of `positions_from_api_item`: filed under the item's `action_id`, its
      amount unknown where the text is `'None'` and otherwise converted to kopecks at the
      action's time. */
  function PositionFrom(item: AdmitadItem, p: PositionData, parseTime: string -> Option<Moment>,
                        toFloat: string -> Option<real>, kopecks: (string, real, Moment) -> int): (r: Result<Position, AdmitadError>)
    ensures r.Ok? ==> r.value.id == p.id && r.value.tariffId == Some(p.tariffId) && r.value.actionId == item.actionId
    ensures p.amount == "None" ==> r == Ok(Position(p.id, Some(p.tariffId), None, item.actionId))
    ensures p.amount != "None" ==> (r.Ok? <==> toFloat(p.amount).Some? && parseTime(item.actionDate).Some?)
    ensures p.amount != "None" && r.Ok? ==>
      r.value.amount == Some(kopecks(item.currency, toFloat(p.amount).value, parseTime(item.actionDate).value))
  {
    if p.amount == "None" then Ok(Position(p.id, Some(p.tariffId), None, item.actionId))
    else match toFloat(p.amount)
      case None => Err(ValueError(p.amount))
      case Some(x) =>
        var t :- Time(parseTime, item.actionDate);
        Ok(Position(p.id, Some(p.tariffId), Some(kopecks(item.currency, x, t)), item.actionId))
  }

  /** The positions of an item, in order; the first that cannot be read raises. */
  function PositionsFrom(item: AdmitadItem, parseTime: string -> Option<Moment>,
                         toFloat: string -> Option<real>, kopecks: (string, real, Moment) -> int): Result<seq<Position>, AdmitadError>
  {
    ReadAll(item.positions, p => PositionFrom(item, p, parseTime, toFloat, kopecks))
  }

  /** The first day of statistics asked for: the date `get_stats_date_from` gives, when it
      gives one, or 1 January 2020 otherwise. */
  function StatsStart(saved: Option<int>): (d: int)
    ensures saved.Some? ==> d == saved.value
    ensures saved.None? ==> d == Jan1st2020
  {
    saved.GetOr(Jan1st2020)
  }

  /** What one item adds: its action and positions if its program is known, nothing otherwise. */
  datatype Kept = Kept(actions: seq<AdmitadAction>, positions: seq<Position>)

  function KeepItem(item: AdmitadItem, programIds: set<int>, parseTime: string -> Option<Moment>,
                    toFloat: string -> Option<real>, kopecks: (string, real, Moment) -> int): (r: Result<Kept, AdmitadError>)
    ensures r.Ok? <==> ActionFrom(item, parseTime, kopecks).Ok?
                       && (item.programId in programIds ==> PositionsFrom(item, parseTime, toFloat, kopecks).Ok?)
    ensures ActionFrom(item, parseTime, kopecks).Err? ==> r == Err(ActionFrom(item, parseTime, kopecks).error)
    ensures r.Ok? && item.programId !in programIds ==> r.value == Kept([], [])
    ensures r.Ok? && item.programId in programIds ==>
      r.value == Kept([ActionFrom(item, parseTime, kopecks).value], PositionsFrom(item, parseTime, toFloat, kopecks).value)
  {
    var action :- ActionFrom(item, parseTime, kopecks);
    if action.programId in programIds then
      var positions :- PositionsFrom(item, parseTime, toFloat, kopecks);
      Ok(Kept([action], positions))
    else Ok(Kept([], []))
  }

  /** The actions and positions of a list of items, or what the first item that does not read
      raises. */
  function KeepAll(items: seq<AdmitadItem>, keep: AdmitadItem -> Result<Kept, AdmitadError>): Result<Kept, AdmitadError> {
    if items == [] then Ok(Kept([], []))
    else
      var n := |items| - 1;
      var done :- KeepAll(items[..n], keep);
      var last :- keep(items[n]);
      Ok(Kept(done.actions + last.actions, done.positions + last.positions))
  }

  /** The page's `_meta` block. */
  datatype Meta = Meta(count: int, limit: int, offset: int)
  datatype Page = Page(results: seq<AdmitadItem>, meta: Meta)

  /** Results per page. */
  const PageSize := 500

  /** The page at the `k`-th offset, for the statistics between `dateFrom` and `dateTo`. */
  function Fetch(remote: (int, int, int) -> Page, dateFrom: int, dateTo: int, k: nat): Page {
    remote(PageSize * k, dateFrom, dateTo)
  }

  /** `count < limit + offset`: the page is the last. */
  predicate LastPage(p: Page) {
    p.meta.count < p.meta.limit + p.meta.offset
  }

  /** What the first `n` pages add. */
  function Gathered(remote: (int, int, int) -> Page, dateFrom: int, dateTo: int,
                    keep: AdmitadItem -> Result<Kept, AdmitadError>, n: nat): Result<Kept, AdmitadError>
  {
    if n == 0 then Ok(Kept([], []))
    else
      var done :- Gathered(remote, dateFrom, dateTo, keep, n - 1);
      var page :- KeepAll(Fetch(remote, dateFrom, dateTo, n - 1).results, keep);
      Ok(Kept(done.actions + page.actions, done.positions + page.positions))
  }

  /** The first `n` pages do not end the download: none is the last and all read. */
  ghost predicate AllGoOn(remote: (int, int, int) -> Page, dateFrom: int, dateTo: int,
                          keep: AdmitadItem -> Result<Kept, AdmitadError>, n: int)
  {
    forall k :: 0 <= k < n ==> !LastPage(Fetch(remote, dateFrom, dateTo, k)) && Gathered(remote, dateFrom, dateTo, keep, k + 1).Ok?
  }

  /** `get_stats`: pages of 500 fetched at offsets 0, 500, … from `StatsStart(saved)` to
      yesterday until a page says it is the last, keeping the actions of the known programs
      with their positions. The download ends only if some page is the last; `horizon` is one. */
  method GetStats(today: int, saved: Option<int>, programIds: set<int>, remote: (int, int, int) -> Page,
                  parseTime: string -> Option<Moment>, toFloat: string -> Option<real>,
                  kopecks: (string, real, Moment) -> int, ghost horizon: nat)
    returns (r: Result<Kept, AdmitadError>, pages: nat)
    requires LastPage(Fetch(remote, StatsStart(saved), today - 1, horizon))
    ensures 1 <= pages <= horizon + 1
    ensures var keep := item => KeepItem(item, programIds, parseTime, toFloat, kopecks);
      && AllGoOn(remote, StatsStart(saved), today - 1, keep, pages - 1)
      && (r.Err? ==> Gathered(remote, StatsStart(saved), today - 1, keep, pages) == Err(r.error))
      && (r.Ok? ==> Gathered(remote, StatsStart(saved), today - 1, keep, pages) == r)
      && (r.Ok? ==> LastPage(Fetch(remote, StatsStart(saved), today - 1, pages - 1)))
  {
    var dateTo := today - 1;
    var dateFrom := StatsStart(saved);
    r, pages := Download(remote, dateFrom, dateTo, item => KeepItem(item, programIds, parseTime, toFloat, kopecks), horizon);
  }

  /** The paging loop of `get_stats`, for any item reader. */
  method Download(remote: (int, int, int) -> Page, dateFrom: int, dateTo: int,
                  keep: AdmitadItem -> Result<Kept, AdmitadError>, ghost horizon: nat)
    returns (r: Result<Kept, AdmitadError>, pages: nat)
    requires LastPage(Fetch(remote, dateFrom, dateTo, horizon))
    ensures 1 <= pages <= horizon + 1
    ensures AllGoOn(remote, dateFrom, dateTo, keep, pages - 1)
    ensures r.Err? ==> Gathered(remote, dateFrom, dateTo, keep, pages) == Err(r.error)
    ensures r.Ok? ==> Gathered(remote, dateFrom, dateTo, keep, pages) == r
    ensures r.Ok? ==> LastPage(Fetch(remote, dateFrom, dateTo, pages - 1))
  {
    var actions: seq<AdmitadAction> := [];
    var positions: seq<Position> := [];
    var offset := 0;
    pages := 0;
    while true
      invariant pages <= horizon && offset == PageSize * pages
      invariant Gathered(remote, dateFrom, dateTo, keep, pages) == Ok(Kept(actions, positions))
      invariant AllGoOn(remote, dateFrom, dateTo, keep, pages)
      decreases horizon - pages
    {
      var res := remote(offset, dateFrom, dateTo);
      var got := KeepPage(res.results, keep, actions, positions);
      GatheredStep(remote, dateFrom, dateTo, keep, pages, Kept(actions, positions));
      if got.Err? {
        return got, pages + 1;
      }
      actions, positions := got.value.actions, got.value.positions;
      offset := offset + PageSize;
      pages := pages + 1;
      if res.meta.count < res.meta.limit + res.meta.offset {
        return Ok(Kept(actions, positions)), pages;
      }
      assert pages - 1 != horizon;
      AllGoOnStep(remote, dateFrom, dateTo, keep, pages - 1);
    }
  }

  /** The loop of `get_stats` over one page's results. */
  method KeepPage(items: seq<AdmitadItem>, keep: AdmitadItem -> Result<Kept, AdmitadError>,
                  actions: seq<AdmitadAction>, positions: seq<Position>)
    returns (r: Result<Kept, AdmitadError>)
    ensures r.Ok? <==> KeepAll(items, keep).Ok?
    ensures r.Err? ==> KeepAll(items, keep) == Err(r.error)
    ensures r.Ok? ==> r.value == Kept(actions + KeepAll(items, keep).value.actions, positions + KeepAll(items, keep).value.positions)
  {
    var acts, poss := actions, positions;
    var i := 0;
    while i < |items|
      invariant 0 <= i <= |items|
      invariant KeepAll(items[..i], keep).Ok?
      invariant acts == actions + KeepAll(items[..i], keep).value.actions
      invariant poss == positions + KeepAll(items[..i], keep).value.positions
    {
      assert items[..i + 1][..i] == items[..i];
      var kept := keep(items[i]);
      if kept.Err? {
        KeepAllStops(items, i + 1, keep);
        return Err(kept.error);
      }
      acts := acts + kept.value.actions;
      poss := poss + kept.value.positions;
      i := i + 1;
    }
    assert items[..|items|] == items;
    r := Ok(Kept(acts, poss));
  }

  /** An item that raises decides what the whole page raises. */
  lemma {:induction false} KeepAllStops(items: seq<AdmitadItem>, i: nat, keep: AdmitadItem -> Result<Kept, AdmitadError>)
    requires i <= |items| && KeepAll(items[..i], keep).Err?
    ensures KeepAll(items, keep) == KeepAll(items[..i], keep)
    decreases |items| - i
  {
    if i == |items| {
      assert items[..i] == items;
    } else {
      assert items[..i + 1][..i] == items[..i];
      KeepAllStops(items, i + 1, keep);
    }
  }

  /** A page adds what its items add. */
  lemma GatheredStep(remote: (int, int, int) -> Page, dateFrom: int, dateTo: int,
                     keep: AdmitadItem -> Result<Kept, AdmitadError>, k: nat, before: Kept)
    requires Gathered(remote, dateFrom, dateTo, keep, k) == Ok(before)
    ensures var page := KeepAll(Fetch(remote, dateFrom, dateTo, k).results, keep);
      && (page.Err? ==> Gathered(remote, dateFrom, dateTo, keep, k + 1) == Err(page.error))
      && (page.Ok? ==> Gathered(remote, dateFrom, dateTo, keep, k + 1)
                       == Ok(Kept(before.actions + page.value.actions, before.positions + page.value.positions)))
  {
  }

  lemma AllGoOnStep(remote: (int, int, int) -> Page, dateFrom: int, dateTo: int,
                    keep: AdmitadItem -> Result<Kept, AdmitadError>, n: nat)
    requires AllGoOn(remote, dateFrom, dateTo, keep, n)
    requires !LastPage(Fetch(remote, dateFrom, dateTo, n)) && Gathered(remote, dateFrom, dateTo, keep, n + 1).Ok?
    ensures AllGoOn(remote, dateFrom, dateTo, keep, n + 1)
  {
  }

  /** An item of a program that is not known adds nothing, and one of a known program adds its
      action and all its positions. */
  lemma KeptOnlyKnown(item: AdmitadItem, programIds: set<int>, parseTime: string -> Option<Moment>,
                      toFloat: string -> Option<real>, kopecks: (string, real, Moment) -> int)
    requires KeepItem(item, programIds, parseTime, toFloat, kopecks).Ok?
    ensures var kept := KeepItem(item, programIds, parseTime, toFloat, kopecks).value;
      && (item.programId !in programIds <==> kept.actions == [])
      && (forall a :: a in kept.actions ==> a.programId in programIds)
      && (item.programId in programIds ==> |kept.positions| == |item.positions|)
  {
    if item.programId in programIds {
      ReadAllMeaning(item.positions, p => PositionFrom(item, p, parseTime, toFloat, kopecks));
    }
  }
}
