/**
 * The open-orders table: the market filter list, the side comparator, the
 * market filter predicate, the keyed rows, and the `cancelId` state around a
 * cancel call.
 */
module OpenOrderTable {
  import opened Wrappers
  import opened JsValues

  /** An open order as the table reads it. */
  datatype OpenOrder = OpenOrder(orderId: string, marketName: string, side: string)

  /** An entry of the market column's filter menu. */
  datatype FilterOption = FilterOption(text: string, value: string)

  /** A table row: the order's fields plus `key`. */
  datatype Row = Row(order: OpenOrder, key: string)

  function OrdersOrEmpty(openOrders: Option<seq<OpenOrder>>): seq<OpenOrder>
  {
    if openOrders.Some? then openOrders.value else []
  }

  // ---------------------------------------------------------------------------
  // marketFilters
  // ---------------------------------------------------------------------------

  /** The position of the first occurrence of `x` in `s`. */
  function FirstIndex(s: seq<string>, x: string): (k: nat)
    requires x in s
    ensures k < |s| && s[k] == x && forall j :: 0 <= j < k ==> s[j] != x
  {
    if s[0] == x then 0 else 1 + FirstIndex(s[1..], x)
  }

  /** Appending an element does not move the first occurrence of an element already present. */
  lemma {:induction false} FirstIndexAppend(s: seq<string>, y: string, x: string)
    requires x in s
    ensures FirstIndex(s + [y], x) == FirstIndex(s, x)
  {
    var k := FirstIndex(s, x);
    var k' := FirstIndex(s + [y], x);
    assert (s + [y])[k] == x;
    assert forall j :: 0 <= j < k ==> (s + [y])[j] != x;
  }

  /**
   * `[...new Set(names)]`: each name once, in the order of first occurrence.
   */
  function Distinct(names: seq<string>): (r: seq<string>)
    ensures forall x :: x in r <==> x in names
    ensures forall i, j :: 0 <= i < j < |r| ==> r[i] != r[j]
    ensures forall i, j :: 0 <= i < j < |r| ==> FirstIndex(names, r[i]) < FirstIndex(names, r[j])
  {
    if names == [] then []
    else
      var init, last := names[..|names| - 1], names[|names| - 1];
      assert names == init + [last];
      var d := Distinct(init);
      assert forall x :: x in init ==> FirstIndex(names, x) == FirstIndex(init, x) by {
        forall x | x in init ensures FirstIndex(names, x) == FirstIndex(init, x) {
          FirstIndexAppend(init, last, x);
        }
      }
      if last in d then d
      else
        assert FirstIndex(names, last) == |init|;
        d + [last]
  }

  /** The market names of the orders, position by position. */
  function MarketNames(orders: seq<OpenOrder>): (names: seq<string>)
    ensures |names| == |orders|
    ensures forall i :: 0 <= i < |orders| ==> names[i] == orders[i].marketName
  {
    seq(|orders|, i requires 0 <= i < |orders| => orders[i].marketName)
  }

  /** `marketFilters`: the i-th entry shows and filters by the i-th distinct market name. */
  function MarketFilters(openOrders: Option<seq<OpenOrder>>): (r: seq<FilterOption>)
    ensures var distinct := Distinct(MarketNames(OrdersOrEmpty(openOrders)));
      && |r| == |distinct|
      && forall i :: 0 <= i < |r| ==> r[i].text == r[i].value == distinct[i]
  {
    var distinct := Distinct(MarketNames(OrdersOrEmpty(openOrders)));
    seq(|distinct|, i requires 0 <= i < |distinct| => FilterOption(distinct[i], distinct[i]))
  }

  /** A market has a filter entry iff some order is in it. */
  lemma MarketFiltersCoverMarkets(openOrders: seq<OpenOrder>, name: string)
    ensures (exists i :: 0 <= i < |openOrders| && openOrders[i].marketName == name) <==>
            FilterOption(name, name) in MarketFilters(Some(openOrders))
  {
    var names := MarketNames(openOrders);
    var filters := MarketFilters(Some(openOrders));
    var distinct := Distinct(names);
    if exists i :: 0 <= i < |openOrders| && openOrders[i].marketName == name {
      var i :| 0 <= i < |openOrders| && openOrders[i].marketName == name;
      assert names[i] == name;
      assert name in names;
      assert name in distinct;
      var k :| 0 <= k < |distinct| && distinct[k] == name;
      assert filters[k] == FilterOption(name, name);
    }
    if FilterOption(name, name) in filters {
      var k :| 0 <= k < |filters| && filters[k] == FilterOption(name, name);
      assert distinct[k] in names;
      var i :| 0 <= i < |names| && names[i] == name;
      assert openOrders[i].marketName == name;
    }
  }

  /** No market has two filter entries, and the entries follow the markets' first appearance among the orders. */
  lemma MarketFiltersOrdered(openOrders: Option<seq<OpenOrder>>)
    ensures var filters := MarketFilters(openOrders);
      forall i, j :: 0 <= i < j < |filters| ==> filters[i].value != filters[j].value
    ensures var filters, names := MarketFilters(openOrders), MarketNames(OrdersOrEmpty(openOrders));
      forall i, j :: 0 <= i < j < |filters| ==>
        filters[i].value in names && filters[j].value in names &&
        FirstIndex(names, filters[i].value) < FirstIndex(names, filters[j].value)
  {
  }

  // ---------------------------------------------------------------------------
  // The side column's comparator and the market filter
  // ---------------------------------------------------------------------------

  /** The side `sorter`: 0 for equal sides, 1 when `a` buys, -1 otherwise. */
  function SideSorter(a: string, b: string): (r: int)
    ensures r == 0 <==> a == b
    ensures a != b ==> (r == 1 <==> a == "buy")
    ensures r in {-1, 0, 1}
  {
    if a == b then 0 else if a == "buy" then 1 else -1
  }

  /** On the sides `buy` and `sell` the comparator is antisymmetric, selling ordered before buying. */
  lemma SideSorterAntisymmetric(a: string, b: string)
    requires a in {"buy", "sell"} && b in {"buy", "sell"}
    ensures SideSorter(a, b) == -SideSorter(b, a)
    ensures SideSorter("sell", "buy") == -1
  {
  }

  /** Outside `buy` and `sell` it is not: two other distinct sides each compare below the other. */
  lemma SideSorterNotAntisymmetricOtherwise()
    ensures SideSorter("bid", "ask") == -1 && SideSorter("ask", "bid") == -1
  {
  }

  /** `sub` occurs in `s` starting at position `k`. */
  predicate OccursAt(s: string, sub: string, k: nat)
  {
    k + |sub| <= |s| && s[k..k + |sub|] == sub
  }

  /** `s.indexOf(sub, from)`: the first position at or after `from` where `sub` occurs, or -1. */
  function IndexFrom(s: string, sub: string, from: nat): (r: int)
    requires from <= |s|
    ensures r == -1 || (from <= r && OccursAt(s, sub, r))
    ensures forall k: nat :: from <= k && (r == -1 || k < r) ==> !OccursAt(s, sub, k)
    decreases |s| - from
  {
    if from + |sub| > |s| then -1
    else if s[from..from + |sub|] == sub then from
    else IndexFrom(s, sub, from + 1)
  }

  /** `onFilter`: the record passes iff the filter value occurs in its market name at position 0. */
  function OnFilter(value: string, record: OpenOrder): (passes: bool)
    ensures passes <==> value <= record.marketName
  {
    IndexFrom(record.marketName, value, 0) == 0
  }

  // ---------------------------------------------------------------------------
  // dataSource
  // ---------------------------------------------------------------------------

  /** `dataSource`: the orders (none for null) in their order, each keyed by its order id. */
  function DataSource(openOrders: Option<seq<OpenOrder>>): (rows: seq<Row>)
    ensures |rows| == |OrdersOrEmpty(openOrders)|
    ensures forall i :: 0 <= i < |rows| ==>
      rows[i].order == OrdersOrEmpty(openOrders)[i] && rows[i].key == rows[i].order.orderId
  {
    var orders := OrdersOrEmpty(openOrders);
    seq(|orders|, i requires 0 <= i < |orders| => Row(orders[i], orders[i].orderId))
  }

  // ---------------------------------------------------------------------------
  // cancel
  // ---------------------------------------------------------------------------

  /** `order?.orderId`: the order's id, or `undefined` when there is no order. */
  function OrderIdOf(order: Option<OpenOrder>): (v: JsValue)
    ensures order.Some? <==> v.Str?
    ensures order.Some? ==> v == Str(order.value.orderId)
  {
    if order.Some? then Str(order.value.orderId) else Undefined
  }

  /**
   * How `cancel` goes on after setting `cancelId`: it returns (no group or no
   * account), fails at once (no order whose market it could read), or awaits
   * `cancelOrderAndSettle`.
   */
  datatype CancelStep = Skipped | FailedAtOnce | Awaiting

  /** The component's `cancelId` state (`null`, `undefined` or an order id), `null` at first. */
  class CancelState {
    var cancelId: JsValue

    constructor ()
      ensures cancelId == Null
    {
      cancelId := Null;
    }

    /** The row's cancel button shows a spinner: the two values give the same text. */
    predicate Loading(order: Option<OpenOrder>)
      reads this
    {
      ToText(cancelId) == ToText(OrderIdOf(order))
    }

    /**
     * `cancel(order)` up to its call: `cancelId` becomes `order?.orderId`; if
     * the group or the account is missing it returns, and if there is no order
     * reading its market throws, which is notified; either way `finally` puts
     * `null` back and `onCancelSuccess` is not called.
     */
    method BeginCancel(order: Option<OpenOrder>, hasGroup: bool, hasAccount: bool)
      returns (step: CancelStep, errorNotified: bool)
      modifies this
      ensures step == (if !hasGroup || !hasAccount then Skipped else if order.None? then FailedAtOnce else Awaiting)
      ensures errorNotified <==> step == FailedAtOnce
      ensures step == Awaiting ==> cancelId == Str(order.value.orderId)
      ensures step != Awaiting ==> cancelId == Null
    {
      cancelId := OrderIdOf(order);
      errorNotified := false;
      if !hasGroup || !hasAccount {
        cancelId := Null;
        return Skipped, errorNotified;
      }
      if order.None? {
        errorNotified := true;
        cancelId := Null;
        return FailedAtOnce, errorNotified;
      }
      step := Awaiting;
    }

    /**
     * The end of the awaited call: `finally` puts `null` back; a failure is
     * notified; `onCancelSuccess` runs only after a success, when it is given.
     */
    method FinishCancel(succeeded: bool, hasCallback: bool) returns (callbackCalled: bool, errorNotified: bool)
      modifies this
      ensures cancelId == Null
      ensures callbackCalled <==> succeeded && hasCallback
      ensures errorNotified <==> !succeeded
    {
      cancelId := Null;
      callbackCalled := succeeded && hasCallback;
      errorNotified := !succeeded;
    }
  }

  /**
   * While `cancelId` holds the awaited order's id, a row spins iff it has that
   * order id; a missing row's `undefined` text matches only the id "undefined".
   */
  lemma LoadingWhileAwaiting(state: CancelState, awaited: OpenOrder, row: Option<OpenOrder>)
    requires state.cancelId == Str(awaited.orderId)
    ensures state.Loading(row) <==>
      (row.Some? && row.value.orderId == awaited.orderId) || (row.None? && awaited.orderId == "undefined")
  {
  }

  /** At rest (`cancelId` is `null`) no row spins unless its order id is the text "null". */
  lemma NoSpinnerAtRest(state: CancelState, row: Option<OpenOrder>)
    requires state.cancelId == Null
    ensures state.Loading(row) <==> row.Some? && row.value.orderId == "null"
  {
  }

  /**
   * A click, then the call's end: the table is back at rest on every path;
   * the row spins during the call iff the call is made; `onCancelSuccess`
   * runs iff group, account and order are there, the call succeeds and the
   * callback is given; an error is notified iff the market read or the call
   * fails.
   */
  method CancelRoundTrip(order: Option<OpenOrder>, hasGroup: bool, hasAccount: bool, succeeded: bool, hasCallback: bool)
    returns (atRest: bool, spunDuringCall: bool, callbackCalled: bool, errorNotified: bool)
    ensures atRest
    ensures spunDuringCall <==> hasGroup && hasAccount && order.Some?
    ensures callbackCalled <==> hasGroup && hasAccount && order.Some? && succeeded && hasCallback
    ensures errorNotified <==> hasGroup && hasAccount && (order.None? || !succeeded)
  {
    var state := new CancelState();
    var step;
    step, errorNotified := state.BeginCancel(order, hasGroup, hasAccount);
    spunDuringCall := step == Awaiting && state.Loading(order);
    callbackCalled := false;
    if step == Awaiting {
      callbackCalled, errorNotified := state.FinishCancel(succeeded, hasCallback);
    }
    atRest := state.cancelId == Null;
  }
}
