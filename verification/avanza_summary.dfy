/** The summary reshaper: one summary per account with its positions joined in, and the
    watchlist entries grouped by watchlist name. */
module AvanzaSummary {
  import opened Js
  import opened Avanza

  /** The summary of one position. */
  datatype PositionSummary = PositionSummary(
    date: Field<string>,
    name: string,
    instrumentType: string,
    id: string,
    change: real,
    value: real,
    profit: real,
    performance: real)

  /** The summary of one account; `positions` is filled by the join. */
  datatype AccountSummary = AccountSummary(
    name: string,
    id: string,
    accountType: string,
    capital: real,
    total: Perf,
    ytd: Perf,
    week: Perf,
    month: Perf,
    threeMonths: Perf,
    sixMonths: Perf,
    year: Perf,
    threeYears: Perf,
    positions: seq<PositionSummary>)

  /** One watchlist entry. `change` is Undefined (left out of the object) for an instrument
      type the switch does not know. */
  datatype WatchItem = WatchItem(
    date: Field<string>,
    name: string,
    ticker: string,
    instrumentType: string,
    id: string,
    change: Field<real>)

  /** A position together with the type of the instrument it is listed under. */
  datatype Holding = Holding(instrumentType: string, position: Position)

  // ---------------------------------------------------------------------------------------
  // Accounts

  /** The summary built for one account before any position is attached. */
  function NewAccountSummary(a: Account, o: AccountOverview, round: Round): (s: AccountSummary)
    ensures s.name == a.name && s.id == a.accountId && s.accountType == a.accountType
    ensures s.positions == []
  {
    AccountSummary(
      a.name, a.accountId, a.accountType, round(a.ownCapital, Places(0)),
      Perf(round(a.totalProfitPercent, Places(2)), round(a.totalProfit, Omitted)),
      Perf(round(a.performancePercent, Places(2)), round(a.performance, Omitted)),
      Perf(round(o.performanceSinceOneWeekPercent, Places(2)), round(o.performanceSinceOneWeek, Omitted)),
      Perf(round(o.performanceSinceOneMonthPercent, Places(2)), round(o.performanceSinceOneMonth, Omitted)),
      Perf(round(o.performanceSinceThreeMonthsPercent, Places(2)), round(o.performanceSinceThreeMonths, Omitted)),
      Perf(round(o.performanceSinceSixMonthsPercent, Places(2)), round(o.performanceSinceSixMonths, Omitted)),
      Perf(round(o.performanceSinceOneYearPercent, Places(2)), round(o.performanceSinceOneYear, Omitted)),
      Perf(round(o.performanceSinceThreeYearsPercent, Places(1)), round(o.performanceSinceThreeYears, Omitted)),
      [])
  }

  /** The summary of one position. The price timestamp is copied as it is: an undefined
      timestamp stays undefined rather than becoming null. */
  function NewPositionSummary(h: Holding, round: Round): (s: PositionSummary)
    ensures s.date == h.position.lastPriceUpdated && s.name == h.position.name
    ensures s.instrumentType == h.instrumentType && s.id == h.position.orderbookId
  {
    var p := h.position;
    PositionSummary(
      p.lastPriceUpdated, p.name, h.instrumentType, p.orderbookId,
      round(p.changePercent, Places(2)), round(p.value, Places(0)),
      round(p.profit, Places(0)), round(p.profitPercent, Places(2)))
  }

  function AccountIds(accounts: seq<Account>): seq<string>
  {
    seq(|accounts|, k requires 0 <= k < |accounts| => accounts[k].accountId)
  }

  function SummaryIds(accounts: seq<AccountSummary>): seq<string>
  {
    seq(|accounts|, k requires 0 <= k < |accounts| => accounts[k].id)
  }

  /** The index `accounts.find` stops at: the first one whose id equals `id`, if any. */
  function FirstIndex(ids: seq<string>, id: string): (r: Option<nat>)
    ensures r.None? <==> id !in ids
    ensures r.Some? ==> r.value < |ids| && ids[r.value] == id
    ensures r.Some? ==> forall j :: 0 <= j < r.value ==> ids[j] != id
  {
    if ids == [] then None
    else if ids[0] == id then Some(0)
    else match FirstIndex(ids[1..], id)
      case None => None
      case Some(j) => Some(j + 1)
  }

  /** The holdings of `getPositions().instrumentPositions`, flattened in listing order. */
  function Held(ips: seq<InstrumentPositions>): seq<Holding>
  {
    if ips == [] then []
    else
      var last := ips[|ips| - 1];
      Held(ips[..|ips| - 1]) + Tagged(last.instrumentType, last.positions)
  }

  function Tagged(instrumentType: string, ps: seq<Position>): seq<Holding>
  {
    seq(|ps|, t requires 0 <= t < |ps| => Holding(instrumentType, ps[t]))
  }

  /** The position summaries the join attaches to account number `k` out of the holdings
      `hs`: those whose account id is first found at index `k`, in the order of `hs`. */
  function AttachedTo(ids: seq<string>, hs: seq<Holding>, k: nat, round: Round): seq<PositionSummary>
  {
    if hs == [] then []
    else
      var h := hs[|hs| - 1];
      AttachedTo(ids, hs[..|hs| - 1], k, round)
        + (if FirstIndex(ids, h.position.accountId) == Some(k) then [NewPositionSummary(h, round)] else [])
  }

  /** `accounts.find(element => element.id == id)`, as an index. */
  method FindAccount(accounts: seq<AccountSummary>, id: string) returns (found: Option<nat>)
    ensures found == FirstIndex(SummaryIds(accounts), id)
  {
    ghost var ids := SummaryIds(accounts);
    var t := 0;
    while t < |accounts|
      invariant 0 <= t <= |accounts|
      invariant forall u :: 0 <= u < t ==> ids[u] != id
    {
      if accounts[t].id == id {
        assert ids[t] == id;
        return Some(t);
      }
      t := t + 1;
    }
    return None;
  }

  /** Account number `k` of the overview with the positions of `hs` attached. */
  ghost function Joined(api: Client, round: Round, hs: seq<Holding>, k: nat): AccountSummary
    requires k < |api.overview.accounts|
  {
    var a := api.overview.accounts[k];
    NewAccountSummary(a, api.getAccountOverview(a.accountId), round)
      .(positions := AttachedTo(AccountIds(api.overview.accounts), hs, k, round))
  }

  /** The body of the join for one position: append its summary to the first account whose
      id matches, and leave every account alone when none does. */
  method Attach(accounts: seq<AccountSummary>, h: Holding, round: Round) returns (updated: seq<AccountSummary>)
    ensures |updated| == |accounts|
    ensures forall k :: 0 <= k < |accounts| ==>
      updated[k] == accounts[k].(positions := accounts[k].positions
        + (if FirstIndex(SummaryIds(accounts), h.position.accountId) == Some(k) then [NewPositionSummary(h, round)] else []))
  {
    var found := FindAccount(accounts, h.position.accountId);
    updated := accounts;
    if found.Some? {
      var k := found.value;
      updated := accounts[k := accounts[k].(positions := accounts[k].positions + [NewPositionSummary(h, round)])];
    }
  }

  /** One summary per account of the overview, in overview order, each carrying exactly the
      positions whose account id is first found at that account, in listing order. */
  method FetchAccounts(api: Client, round: Round) returns (accounts: seq<AccountSummary>)
    ensures |accounts| == |api.overview.accounts|
    ensures forall k :: 0 <= k < |accounts| ==>
      var a := api.overview.accounts[k];
      accounts[k] == NewAccountSummary(a, api.getAccountOverview(a.accountId), round)
        .(positions := AttachedTo(AccountIds(api.overview.accounts), Held(api.positions.instrumentPositions), k, round))
  {
    var overview := api.overview;
    var positions := api.positions;

    accounts := [];
    for i := 0 to |overview.accounts|
      invariant |accounts| == i
      invariant forall k :: 0 <= k < i ==> accounts[k] == Joined(api, round, [], k)
    {
      var account := overview.accounts[i];
      var accountOverview := api.getAccountOverview(account.accountId);
      accounts := accounts + [NewAccountSummary(account, accountOverview, round)];
    }

    var ips := positions.instrumentPositions;
    ghost var seen: seq<Holding> := [];
    for i := 0 to |ips|
      invariant |accounts| == |overview.accounts|
      invariant seen == Held(ips[..i])
      invariant forall k :: 0 <= k < |accounts| ==> accounts[k] == Joined(api, round, seen, k)
    {
      var instrument := ips[i];
      for j := 0 to |instrument.positions|
        invariant |accounts| == |overview.accounts|
        invariant seen == Held(ips[..i]) + Tagged(instrument.instrumentType, instrument.positions[..j])
        invariant forall k :: 0 <= k < |accounts| ==> accounts[k] == Joined(api, round, seen, k)
      {
        var position := instrument.positions[j];
        var h := Holding(instrument.instrumentType, position);
        JoinedIds(api, round, seen, accounts);
        accounts := Attach(accounts, h, round);
        JoinedSnoc(api, round, seen, h);
        seen := seen + [h];
        assert instrument.positions[..j + 1] == instrument.positions[..j] + [position];
      }
      assert instrument.positions[..|instrument.positions|] == instrument.positions;
      assert ips[..i + 1][..i] == ips[..i];
    }
    assert ips[..|ips|] == ips;
  }

  lemma JoinedIds(api: Client, round: Round, hs: seq<Holding>, accounts: seq<AccountSummary>)
    requires |accounts| == |api.overview.accounts|
    requires forall k :: 0 <= k < |accounts| ==> accounts[k] == Joined(api, round, hs, k)
    ensures SummaryIds(accounts) == AccountIds(api.overview.accounts)
  {
  }

  lemma JoinedSnoc(api: Client, round: Round, hs: seq<Holding>, h: Holding)
    ensures forall k :: 0 <= k < |api.overview.accounts| ==>
      Joined(api, round, hs + [h], k) == Joined(api, round, hs, k).(positions := Joined(api, round, hs, k).positions
        + (if FirstIndex(AccountIds(api.overview.accounts), h.position.accountId) == Some(k) then [NewPositionSummary(h, round)] else []))
  {
  }

  /** Attaching distributes over concatenation of the holdings: positions keep their order. */
  lemma {:induction false} AttachedConcat(ids: seq<string>, h1: seq<Holding>, h2: seq<Holding>, k: nat, round: Round)
    ensures AttachedTo(ids, h1 + h2, k, round) == AttachedTo(ids, h1, k, round) + AttachedTo(ids, h2, k, round)
    decreases |h2|
  {
    if h2 == [] {
      assert h1 + h2 == h1;
    } else {
      var init := h2[..|h2| - 1];
      assert (h1 + h2)[..|h1 + h2| - 1] == h1 + init;
      AttachedConcat(ids, h1, init, k, round);
    }
  }

  /** A holding whose account id matches no account is dropped: no account gains anything. */
  lemma UnknownAccountDropped(ids: seq<string>, hs: seq<Holding>, h: Holding, k: nat, round: Round)
    requires h.position.accountId !in ids
    ensures AttachedTo(ids, hs + [h], k, round) == AttachedTo(ids, hs, k, round)
  {
  }

  /** A holding is appended to the first account whose id matches, and to no other. */
  lemma AttachedToFirstMatch(ids: seq<string>, hs: seq<Holding>, h: Holding, k: nat, other: nat, round: Round)
    requires k < |ids| && ids[k] == h.position.accountId
    requires forall j :: 0 <= j < k ==> ids[j] != h.position.accountId
    requires other != k
    ensures AttachedTo(ids, hs + [h], k, round) == AttachedTo(ids, hs, k, round) + [NewPositionSummary(h, round)]
    ensures AttachedTo(ids, hs + [h], other, round) == AttachedTo(ids, hs, other, round)
  {
  }

  /** The number of holdings whose account id matches some account. */
  function KnownCount(ids: seq<string>, hs: seq<Holding>): nat
  {
    if hs == [] then 0
    else KnownCount(ids, hs[..|hs| - 1]) + (if hs[|hs| - 1].position.accountId in ids then 1 else 0)
  }

  /** The number of positions attached to the first `m` accounts. */
  function AttachedTotal(ids: seq<string>, hs: seq<Holding>, m: nat, round: Round): nat
  {
    if m == 0 then 0 else AttachedTotal(ids, hs, m - 1, round) + |AttachedTo(ids, hs, m - 1, round)|
  }

  lemma {:induction false} AttachedTotalSnoc(ids: seq<string>, hs: seq<Holding>, h: Holding, m: nat, round: Round)
    ensures var r := FirstIndex(ids, h.position.accountId);
      AttachedTotal(ids, hs + [h], m, round)
        == AttachedTotal(ids, hs, m, round) + (if r.Some? && r.value < m then 1 else 0)
  {
    assert (hs + [h])[..|hs|] == hs;
    if m > 0 {
      AttachedTotalSnoc(ids, hs, h, m - 1, round);
    }
  }

  /** Every position whose account id matches some account is attached exactly once: the
      positions attached over all accounts number the matching positions. */
  lemma {:induction false} AttachedTotalIsKnownCount(ids: seq<string>, hs: seq<Holding>, round: Round)
    ensures AttachedTotal(ids, hs, |ids|, round) == KnownCount(ids, hs)
    decreases |hs|
  {
    if hs == [] {
      AttachedTotalOfNothing(ids, |ids|, round);
    } else {
      var init, h := hs[..|hs| - 1], hs[|hs| - 1];
      assert hs == init + [h];
      AttachedTotalIsKnownCount(ids, init, round);
      AttachedTotalSnoc(ids, init, h, |ids|, round);
    }
  }

  lemma {:induction false} AttachedTotalOfNothing(ids: seq<string>, m: nat, round: Round)
    ensures AttachedTotal(ids, [], m, round) == 0
  {
    if m > 0 {
      AttachedTotalOfNothing(ids, m - 1, round);
    }
  }

  // ---------------------------------------------------------------------------------------
  // Watchlists

  function NullIfUndefined<T>(f: Field<T>): (r: Field<T>)
  {
    if f.LooselyUndefined() then Null else f
  }

  /** The item made from one orderbook and its instrument. */
  function NewWatchItem(ob: Orderbook, inst: Instrument): (item: WatchItem)
    ensures item.date.Null? <==> ob.updated.LooselyUndefined()
    ensures !item.date.Null? ==> item.date == ob.updated
    ensures item.name == ob.name && item.ticker == inst.tickerSymbol && item.id == inst.id
    ensures item.instrumentType == ToLower(ob.instrumentType)
    ensures item.change.Undefined? <==> item.instrumentType !in {"fund", "index", "stock"}
    ensures item.instrumentType == "fund" ==>
      (item.change.Null? <==> inst.changeSinceOneDay.LooselyUndefined())
      && (item.change.Val? ==> item.change == inst.changeSinceOneDay)
    ensures item.instrumentType == "stock" ==>
      (item.change.Null? <==> ob.changePercent.LooselyUndefined())
      && (item.change.Val? ==> item.change == ob.changePercent)
    ensures item.instrumentType == "index" ==>
      (item.change.Null? <==> !TruthyNumber(inst.changePercent))
      && (item.change.Val? ==> item.change == inst.changePercent)
  {
    var kind := ToLower(ob.instrumentType);
    WatchItem(
      NullIfUndefined(ob.updated), ob.name, inst.tickerSymbol, kind, inst.id,
      if kind == "fund" then NullIfUndefined(inst.changeSinceOneDay)
      else if kind == "index" then (if TruthyNumber(inst.changePercent) then inst.changePercent else Null)
      else if kind == "stock" then NullIfUndefined(ob.changePercent)
      else Undefined)
  }

  function Books(api: Client, w: WatchList): seq<Orderbook>
  {
    api.getOrderbooks(w.orderbooks)
  }

  function Items(api: Client, books: seq<Orderbook>): seq<WatchItem>
  {
    seq(|books|, t requires 0 <= t < |books| =>
      NewWatchItem(books[t], api.getInstrument(books[t].instrumentType, books[t].id)))
  }

  /** The items of every watchlist named `n`, watchlist after watchlist. */
  function ItemsUnder(api: Client, wls: seq<WatchList>, n: string): seq<WatchItem>
  {
    if wls == [] then []
    else
      var last := wls[|wls| - 1];
      ItemsUnder(api, wls[..|wls| - 1], n) + (if last.name == n then Items(api, Books(api, last)) else [])
  }

  /** The names of the watchlists that have at least one orderbook. */
  function Named(api: Client, wls: seq<WatchList>): set<string>
  {
    set i | 0 <= i < |wls| && Books(api, wls[i]) != [] :: wls[i].name
  }

  /** The order in which the grouping's keys are created: a watchlist's name enters when its
      first item is pushed and the name is not a key yet. */
  function KeyOrder(api: Client, wls: seq<WatchList>): seq<string>
  {
    if wls == [] then []
    else
      var init, last := wls[..|wls| - 1], wls[|wls| - 1];
      var before := KeyOrder(api, init);
      before + (if Books(api, last) != [] && last.name !in before then [last.name] else [])
  }

  /** The key order after one more watchlist, in terms of the grouping's keys before it. */
  lemma KeyOrderNext(api: Client, wls: seq<WatchList>, i: nat, keys: set<string>)
    requires i < |wls| && keys == Named(api, wls[..i])
    ensures KeyOrder(api, wls[..i + 1]) == KeyOrder(api, wls[..i])
      + (if Books(api, wls[i]) != [] && wls[i].name !in keys then [wls[i].name] else [])
  {
    assert wls[..i + 1][..i] == wls[..i];
    KeyOrderMember(api, wls[..i], wls[i].name);
  }

  lemma {:induction false} KeyOrderMember(api: Client, wls: seq<WatchList>, n: string)
    ensures n in KeyOrder(api, wls) <==> n in Named(api, wls)
    decreases |wls|
  {
    if wls != [] {
      var init, last := wls[..|wls| - 1], wls[|wls| - 1];
      assert wls == init + [last];
      KeyOrderMember(api, init, n);
      NamedSnoc(api, init, last);
    }
  }

  /** The key order lists every key of the grouping, and each only once. */
  lemma {:induction false} KeyOrderListsNamed(api: Client, wls: seq<WatchList>)
    ensures forall n :: n in KeyOrder(api, wls) <==> n in Named(api, wls)
    ensures forall i, j :: 0 <= i < j < |KeyOrder(api, wls)| ==> KeyOrder(api, wls)[i] != KeyOrder(api, wls)[j]
    decreases |wls|
  {
    forall n {
      KeyOrderMember(api, wls, n);
    }
    if wls != [] {
      KeyOrderListsNamed(api, wls[..|wls| - 1]);
    }
  }

  /** Keys are never reordered: the keys present after any number of watchlists are a prefix
      of the final key order, so names appear in the order their first item was pushed. */
  lemma {:induction false} KeyOrderPrefix(api: Client, wls: seq<WatchList>, p: nat)
    requires p <= |wls|
    ensures KeyOrder(api, wls[..p]) <= KeyOrder(api, wls)
    decreases |wls|
  {
    if p < |wls| {
      var init := wls[..|wls| - 1];
      assert init[..p] == wls[..p];
      KeyOrderPrefix(api, init, p);
    } else {
      assert wls[..p] == wls;
    }
  }

  lemma NamedSnoc(api: Client, wls: seq<WatchList>, w: WatchList)
    ensures Named(api, wls + [w]) == Named(api, wls) + (if Books(api, w) != [] then {w.name} else {})
  {
    var all := wls + [w];
    forall n | n in Named(api, all)
      ensures n in Named(api, wls) + (if Books(api, w) != [] then {w.name} else {})
    {
      var i :| 0 <= i < |all| && Books(api, all[i]) != [] && all[i].name == n;
      if i < |wls| {
        assert all[i] == wls[i];
      }
    }
    forall n | n in Named(api, wls)
      ensures n in Named(api, all)
    {
      var i :| 0 <= i < |wls| && Books(api, wls[i]) != [] && wls[i].name == n;
      assert all[i] == wls[i];
    }
    if Books(api, w) != [] {
      assert all[|wls|] == w;
    }
  }

  /** A name is a key of the grouping exactly when some item was pushed under it. */
  lemma {:induction false} NamedIffItems(api: Client, wls: seq<WatchList>, n: string)
    ensures n in Named(api, wls) <==> ItemsUnder(api, wls, n) != []
    decreases |wls|
  {
    if wls != [] {
      var init, last := wls[..|wls| - 1], wls[|wls| - 1];
      assert wls == init + [last];
      NamedIffItems(api, init, n);
      NamedSnoc(api, init, last);
    }
  }

  /** Grouping distributes over concatenation of watchlists: lists with the same name share
      one entry, in watchlist order. */
  lemma {:induction false} ItemsUnderConcat(api: Client, w1: seq<WatchList>, w2: seq<WatchList>, n: string)
    ensures ItemsUnder(api, w1 + w2, n) == ItemsUnder(api, w1, n) + ItemsUnder(api, w2, n)
    decreases |w2|
  {
    if w2 == [] {
      assert w1 + w2 == w1;
    } else {
      var init := w2[..|w2| - 1];
      assert (w1 + w2)[..|w1 + w2| - 1] == w1 + init;
      ItemsUnderConcat(api, w1, init, n);
    }
  }

  /** `if (result[name] == undefined) result[name] = []; result[name].push(item)`. */
  method Push(result: map<string, seq<WatchItem>>, name: string, item: WatchItem) returns (updated: map<string, seq<WatchItem>>)
    ensures updated.Keys == result.Keys + {name}
    ensures updated[name] == (if name in result then result[name] else []) + [item]
    ensures forall n :: n in result && n != name ==> updated[n] == result[n]
  {
    updated := result;
    if name !in updated {
      updated := updated[name := []];
    }
    updated := updated[name := updated[name] + [item]];
  }

  lemma ItemsSnoc(api: Client, books: seq<Orderbook>, j: nat)
    requires j < |books|
    ensures Items(api, books[..j + 1])
      == Items(api, books[..j]) + [NewWatchItem(books[j], api.getInstrument(books[j].instrumentType, books[j].id))]
  {
  }

  /** The inner loop over the orderbooks of one watchlist: every item is pushed under `name`,
      in orderbook order, and the key appears only once an item has been pushed. */
  method GroupBooks(api: Client, result: map<string, seq<WatchItem>>, name: string, orderbooks: seq<Orderbook>)
    returns (updated: map<string, seq<WatchItem>>)
    ensures updated.Keys == result.Keys + (if orderbooks != [] then {name} else {})
    ensures name in updated ==> updated[name] == (if name in result then result[name] else []) + Items(api, orderbooks)
    ensures forall n :: n in result && n != name ==> updated[n] == result[n]
  {
    updated := result;
    for j := 0 to |orderbooks|
      invariant updated.Keys == result.Keys + (if j > 0 then {name} else {})
      invariant name in updated ==> updated[name] == (if name in result then result[name] else []) + Items(api, orderbooks[..j])
      invariant forall n :: n in result && n != name ==> updated[n] == result[n]
    {
      var orderbook := orderbooks[j];
      var instrument := api.getInstrument(orderbook.instrumentType, orderbook.id);
      var item := NewWatchItem(orderbook, instrument);
      ItemsSnoc(api, orderbooks, j);
      updated := Push(updated, name, item);
    }
    assert orderbooks[..|orderbooks|] == orderbooks;
  }

  /** The watchlist entries grouped under their watchlist's name: a key for every name with
      at least one orderbook, holding the items of all watchlists of that name in order. */
  method FetchWatch(api: Client) returns (result: map<string, seq<WatchItem>>, ghost keys: seq<string>)
    ensures result.Keys == Named(api, api.watchlists)
    ensures forall n :: n in result ==> result[n] == ItemsUnder(api, api.watchlists, n)
    ensures keys == KeyOrder(api, api.watchlists)
  {
    result := map[];
    keys := [];
    var watchLists := api.watchlists;
    for i := 0 to |watchLists|
      invariant result.Keys == Named(api, watchLists[..i])
      invariant forall n :: n in result ==> result[n] == ItemsUnder(api, watchLists[..i], n)
      invariant keys == KeyOrder(api, watchLists[..i])
    {
      var watchList := watchLists[i];
      var orderbooks := api.getOrderbooks(watchList.orderbooks);
      NamedIffItems(api, watchLists[..i], watchList.name);
      KeyOrderNext(api, watchLists, i, result.Keys);
      keys := keys + if orderbooks != [] && watchList.name !in result then [watchList.name] else [];
      result := GroupBooks(api, result, watchList.name, orderbooks);
      assert watchLists[..i + 1] == watchLists[..i] + [watchList];
      NamedSnoc(api, watchLists[..i], watchList);
    }
    assert watchLists[..|watchLists|] == watchLists;
  }
}
