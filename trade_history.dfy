/**
 * The trade-history reconciler: the normaliser `formatTradeHistory` (flatten,
 * derive `marketName`, `key` and `liquidity`, sort newest first), and the hook
 * state that holds the bulk-loaded history, the merged list and the loading flag.
 */
module TradeHistory {
  import opened Wrappers
  import opened JsValues
  import MarginAccounts

  datatype Liquidity = Maker | Taker

  /**
   * A fill record, from the REST history or from the live event queue (the
   * two shapes differ, so any text field but the order id may be absent or
   * null). `orderId` is the order id's text, the same for `toString()` and a
   * template literal; `maker` and `eventFlagsMaker` are false when absent;
   * `loadTimestamp` is the time `new Date(...)` parses. `key` and `liquidity`
   * are what the normaliser writes; a raw record's values there are irrelevant.
   */
  datatype Trade = Trade(
    marketName: JsValue,
    baseCurrency: JsValue,
    quoteCurrency: JsValue,
    orderId: string,
    side: JsValue,
    uuid: JsValue,
    maker: bool,
    eventFlagsMaker: bool,
    loadTimestamp: int,
    key: string,
    liquidity: Option<Liquidity>)

  // ---------------------------------------------------------------------------
  // formatTradeHistory
  // ---------------------------------------------------------------------------

  /** `.flat()` on a list of lists. */
  function Flatten(groups: seq<seq<Trade>>): (r: seq<Trade>)
    ensures forall t :: t in r <==> exists i :: 0 <= i < |groups| && t in groups[i]
  {
    if groups == [] then []
    else groups[0] + Flatten(groups[1..])
  }

  /** Flattening a single list gives that list (the merge passes an already flat list). */
  lemma FlattenSingle(s: seq<Trade>)
    ensures Flatten([s]) == s
  {
    assert [s][1..] == [];
  }

  /** Formatting a flat list: normalise, then sort. */
  lemma FormatFlatList(s: seq<Trade>)
    ensures FormatTradeHistory([s]) == SortByTimestamp(MapNormalize(s))
  {
    FlattenSingle(s);
  }

  /**
   * The `map` step: a truthy market name is kept, else the text of
   * `${baseCurrency}/${quoteCurrency}`; the key is the text of
   * `${orderId}${side}${uuid}`, so an absent field shows as "undefined"; the
   * liquidity label is derived from the two maker flags.
   */
  function Normalize(t: Trade): (r: Trade)
    ensures Truthy(r.marketName)
    ensures Truthy(t.marketName) ==> r.marketName == t.marketName
    ensures !Truthy(t.marketName) ==> r.marketName == Str(ToText(t.baseCurrency) + "/" + ToText(t.quoteCurrency))
    ensures r.key == t.orderId + ToText(t.side) + ToText(t.uuid)
    ensures r.liquidity == Some(Maker) <==> t.maker || t.eventFlagsMaker
    ensures r.liquidity.Some?
    ensures r.orderId == t.orderId && r.side == t.side && r.loadTimestamp == t.loadTimestamp
    ensures r.(marketName := t.marketName, key := t.key, liquidity := t.liquidity) == t
  {
    var derivedName := ToText(t.baseCurrency) + "/" + ToText(t.quoteCurrency);
    assert derivedName[|ToText(t.baseCurrency)|] == '/';
    t.(marketName := if Truthy(t.marketName) then t.marketName else Str(derivedName),
       key := t.orderId + ToText(t.side) + ToText(t.uuid),
       liquidity := Some(if t.maker || t.eventFlagsMaker then Maker else Taker))
  }

  /**
   * A live fill without `uuid` and without `marketName` or `baseCurrency`:
   * its key ends in "undefined" and its market name starts with it.
   */
  lemma NormalizeAbsentFields(t: Trade)
    requires t.uuid == Undefined && t.baseCurrency == Undefined && !Truthy(t.marketName)
    requires t.side == Str("buy") && t.quoteCurrency == Str("USDC")
    ensures Normalize(t).key == t.orderId + "buyundefined"
    ensures Normalize(t).marketName == Str("undefined/USDC")
  {
  }

  /** Normalising an already normalised record changes nothing. */
  lemma NormalizeIdempotent(t: Trade)
    ensures Normalize(Normalize(t)) == Normalize(t)
  {
  }

  function MapNormalize(s: seq<Trade>): (r: seq<Trade>)
    ensures |r| == |s| && forall i :: 0 <= i < |s| ==> r[i] == Normalize(s[i])
  {
    seq(|s|, i requires 0 <= i < |s| => Normalize(s[i]))
  }

  /** Newest first: what `sort(byTimestamp)` produces, `byTimestamp(a, b)` being `b - a` on the timestamps. */
  ghost predicate SortedDesc(s: seq<Trade>)
  {
    forall i, j :: 0 <= i < j < |s| ==> s[i].loadTimestamp >= s[j].loadTimestamp
  }

  /** Puts `t` before the first element that is not newer than it, so equal timestamps keep their order. */
  function InsertByTimestamp(t: Trade, s: seq<Trade>): (r: seq<Trade>)
    requires SortedDesc(s)
    ensures SortedDesc(r)
    ensures multiset(r) == multiset(s) + multiset{t}
  {
    if s == [] || t.loadTimestamp >= s[0].loadTimestamp then
      [t] + s
    else
      var rest := InsertByTimestamp(t, s[1..]);
      assert multiset(s) == multiset{s[0]} + multiset(s[1..]) by {
        assert s == [s[0]] + s[1..];
      }
      assert forall x :: x in rest ==> x.loadTimestamp <= s[0].loadTimestamp by {
        forall x | x in rest ensures x.loadTimestamp <= s[0].loadTimestamp {
          assert x in multiset(rest);
          if x != t {
            assert x in multiset(s[1..]);
          }
        }
      }
      [s[0]] + rest
  }

  /** The stable sort `sort(byTimestamp)`: newest first, a permutation of its input. */
  function SortByTimestamp(s: seq<Trade>): (r: seq<Trade>)
    ensures SortedDesc(r)
    ensures multiset(r) == multiset(s)
    ensures |r| == |s|
  {
    if s == [] then []
    else
      assert s == [s[0]] + s[1..];
      InsertByTimestamp(s[0], SortByTimestamp(s[1..]))
  }

  /** Sorting a list that is already newest first changes nothing (the sort is stable). */
  lemma {:induction false} SortSortedIsIdentity(s: seq<Trade>)
    requires SortedDesc(s)
    ensures SortByTimestamp(s) == s
  {
    if s != [] {
      assert SortedDesc(s[1..]) by {
        forall i, j | 0 <= i < j < |s[1..]| ensures s[1..][i].loadTimestamp >= s[1..][j].loadTimestamp {
          assert s[1..][i] == s[i + 1] && s[1..][j] == s[j + 1];
        }
      }
      SortSortedIsIdentity(s[1..]);
      assert s == [s[0]] + s[1..];
    }
  }

  /**
   * `formatTradeHistory`: the normalised records of the flattened input,
   * newest first; its output is a permutation of the normalised input.
   */
  function FormatTradeHistory(groups: seq<seq<Trade>>): (r: seq<Trade>)
    ensures SortedDesc(r)
    ensures multiset(r) == multiset(MapNormalize(Flatten(groups)))
    ensures |r| == |Flatten(groups)|
  {
    SortByTimestamp(MapNormalize(Flatten(groups)))
  }

  /** The formatted records are exactly the normalisations of the input records. */
  lemma FormatMembers(groups: seq<seq<Trade>>)
    ensures forall x :: x in FormatTradeHistory(groups) <==> exists t :: t in Flatten(groups) && x == Normalize(t)
  {
    var flat := Flatten(groups);
    var normalized := MapNormalize(flat);
    var r := FormatTradeHistory(groups);
    forall x ensures x in r <==> x in normalized {
      assert x in r <==> x in multiset(r);
      assert x in normalized <==> x in multiset(normalized);
    }
    forall x | x in normalized ensures exists t :: t in flat && x == Normalize(t) {
      var i :| 0 <= i < |normalized| && normalized[i] == x;
      assert flat[i] in flat;
    }
    forall t | t in flat ensures Normalize(t) in normalized {
      var i :| 0 <= i < |flat| && flat[i] == t;
      assert normalized[i] == Normalize(t);
    }
  }

  // ---------------------------------------------------------------------------
  // Reconciling live fills
  // ---------------------------------------------------------------------------

  /** `tradeHistory.find(t => t.orderId === orderId)` finds something. */
  predicate Known(history: seq<Trade>, orderId: string)
  {
    exists t :: t in history && t.orderId == orderId
  }

  /** The live fills whose order id matches no record of `history`, in their order. */
  function NewFills(live: seq<Trade>, history: seq<Trade>): (r: seq<Trade>)
    ensures forall f :: f in r <==> f in live && !Known(history, f.orderId)
    ensures |r| <= |live|
  {
    if live == [] then []
    else (if Known(history, live[0].orderId) then [] else [live[0]]) + NewFills(live[1..], history)
  }

  /** The filter distributes over concatenation, so it keeps the live fills' order. */
  lemma {:induction false} NewFillsAppend(a: seq<Trade>, b: seq<Trade>, history: seq<Trade>)
    ensures NewFills(a + b, history) == NewFills(a, history) + NewFills(b, history)
  {
    if a == [] {
      assert a + b == b;
    } else {
      assert (a + b)[0] == a[0] && (a + b)[1..] == a[1..] + b;
      NewFillsAppend(a[1..], b, history);
    }
  }

  /** With every live fill's order id known, there is no new fill. */
  lemma {:induction false} NewFillsOfKnown(live: seq<Trade>, history: seq<Trade>)
    requires forall f :: f in live ==> Known(history, f.orderId)
    ensures NewFills(live, history) == []
  {
    if live != [] {
      assert live[0] in live;
      assert forall f :: f in live[1..] ==> f in live;
      NewFillsOfKnown(live[1..], history);
    }
  }

  /** With no live fill's order id known, every live fill is new. */
  lemma {:induction false} NewFillsOfUnknown(live: seq<Trade>, history: seq<Trade>)
    requires forall f :: f in live ==> !Known(history, f.orderId)
    ensures NewFills(live, history) == live
  {
    if live != [] {
      assert live[0] in live;
      assert forall f :: f in live[1..] ==> f in live;
      NewFillsOfUnknown(live[1..], history);
      assert live == [live[0]] + live[1..];
    }
  }

  /** The merge effect writes `allTrades` exactly when this holds. */
  predicate MergeWrites(history: seq<Trade>, allTrades: seq<Trade>, live: Option<seq<Trade>>)
  {
    live.Some? && |live.value| > 0 &&
    var newFills := NewFills(live.value, history);
    |newFills| > 0 && |newFills + history| != |allTrades|
  }

  /**
   * The value of `allTrades` after the live-fill effect: the formatted
   * `newFills ++ tradeHistory` when there are new fills and that candidate's
   * length differs from the current `allTrades` length, else `allTrades`.
   */
  function MergeLiveFills(history: seq<Trade>, allTrades: seq<Trade>, live: Option<seq<Trade>>): (r: seq<Trade>)
    ensures !MergeWrites(history, allTrades, live) ==> r == allTrades
    ensures MergeWrites(history, allTrades, live) ==>
      r == FormatTradeHistory([NewFills(live.value, history) + history])
  {
    if live.Some? && |live.value| > 0 then
      var newFills := NewFills(live.value, history);
      var candidate := newFills + history;
      if |newFills| > 0 && |candidate| != |allTrades| then FormatTradeHistory([candidate]) else allTrades
    else allTrades
  }

  /** Redelivering fills whose order ids are all in the history leaves `allTrades` as it was. */
  lemma RedeliveryIsNoop(history: seq<Trade>, allTrades: seq<Trade>, live: seq<Trade>)
    requires forall f :: f in live ==> Known(history, f.orderId)
    ensures MergeLiveFills(history, allTrades, Some(live)) == allTrades
  {
    NewFillsOfKnown(live, history);
  }

  /** Delivering the same batch twice gives what delivering it once gives. */
  lemma MergeIdempotent(history: seq<Trade>, allTrades: seq<Trade>, live: Option<seq<Trade>>)
    ensures var once := MergeLiveFills(history, allTrades, live);
      MergeLiveFills(history, once, live) == once
  {
    if MergeWrites(history, allTrades, live) {
      FlattenSingle(NewFills(live.value, history) + history);
    }
  }

  /**
   * A merged list does not survive a later batch: with order 1 in the
   * history, fills for orders 2 and 3 give three records; a later batch with
   * only the fill of order 3 writes two, and the merged order 2 is gone.
   */
  lemma LaterBatchDropsMergedFill(t1: Trade, t2: Trade, t3: Trade)
    requires t1.orderId == "1" && t2.orderId == "2" && t3.orderId == "3"
    ensures var history := [Normalize(t1)];
      var once := MergeLiveFills(history, history, Some([t2, t3]));
      var twice := MergeLiveFills(history, once, Some([t3]));
      && |once| == 3 && Normalize(t2) in once
      && |twice| == 2 && Normalize(t2) !in twice
  {
    var history := [Normalize(t1)];
    assert NewFills([t2, t3], history) == [t2, t3] by {
      assert !Known(history, "2") && !Known(history, "3");
      assert [t2, t3][1..] == [t3];
      assert [t3][1..] == [];
    }
    assert NewFills([t3], history) == [t3] by {
      assert !Known(history, "3");
      assert [t3][1..] == [];
    }
    var once := MergeLiveFills(history, history, Some([t2, t3]));
    assert once == FormatTradeHistory([[t2, t3] + history]);
    FlattenSingle([t2, t3] + history);
    FormatMembers([[t2, t3] + history]);
    assert t2 in Flatten([[t2, t3] + history]);
    var twice := MergeLiveFills(history, once, Some([t3]));
    assert twice == FormatTradeHistory([[t3] + history]);
    FlattenSingle([t3] + history);
    FormatMembers([[t3] + history]);
    assert forall t :: t in Flatten([[t3] + history]) ==> t.orderId != "2";
  }

  /**
   * When the merge writes, the new list has one normalised record per new
   * fill and per history record, newest first.
   */
  lemma MergedContents(history: seq<Trade>, allTrades: seq<Trade>, live: seq<Trade>)
    requires MergeWrites(history, allTrades, Some(live))
    ensures var r := MergeLiveFills(history, allTrades, Some(live));
      && |r| == |NewFills(live, history)| + |history|
      && SortedDesc(r)
      && multiset(r) == multiset(MapNormalize(NewFills(live, history) + history))
  {
    FlattenSingle(NewFills(live, history) + history);
  }

  /**
   * The length guard can drop a genuinely new fill: here the history is empty,
   * `allTrades` holds one record, and one new live fill arrives.
   */
  lemma SameLengthNewFillIsDropped(merged: Trade, incoming: Trade)
    ensures MergeLiveFills([], [merged], Some([incoming])) == [merged]
  {
  }

  /** Two records, the second newer: formatting puts the second first. */
  lemma FormatTwoRecords(t1: Trade, t2: Trade)
    requires t1.loadTimestamp < t2.loadTimestamp
    ensures FormatTradeHistory([[t1, t2]]) == [Normalize(t2), Normalize(t1)]
  {
    FlattenSingle([t1, t2]);
    var n1, n2 := Normalize(t1), Normalize(t2);
    assert MapNormalize([t1, t2]) == [n1, n2];
    assert [n1, n2][1..] == [n2];
    assert [n2][1..] == [];
    assert SortByTimestamp([n2]) == [n2];
    assert InsertByTimestamp(n1, [n2]) == [n2, n1];
  }

  /**
   * After a bulk load of order 1 (time 10) and order 2 (time 20), which
   * `FormatTwoRecords` shows to be orders 2, 1, live fills for orders 2 and 3
   * (time 30) give the merged list of orders 3, 2, 1.
   */
  lemma BulkThenLiveScenario(t1: Trade, t2: Trade, t3: Trade)
    requires t1.orderId == "1" && t1.loadTimestamp == 10
    requires t2.orderId == "2" && t2.loadTimestamp == 20
    requires t3.orderId == "3" && t3.loadTimestamp == 30
    ensures var history := [Normalize(t2), Normalize(t1)];
      MergeLiveFills(history, history, Some([t2, t3])) == [Normalize(t3), Normalize(t2), Normalize(t1)]
  {
    var n1, n2, n3 := Normalize(t1), Normalize(t2), Normalize(t3);
    var history := [n2, n1];
    assert NewFills([t2, t3], history) == [t3] by {
      assert Known(history, t2.orderId) by {
        assert n2 in history;
      }
      assert !Known(history, t3.orderId);
      assert [t2, t3][1..] == [t3];
      assert [t3][1..] == [];
    }
    var candidate := [t3] + history;
    assert FormatTradeHistory([candidate]) == [n3, n2, n1] by {
      assert MapNormalize(candidate) == [n3, n2, n1] by {
        NormalizeIdempotent(t1);
        NormalizeIdempotent(t2);
      }
      SortThreeSorted(n3, n2, n1);
      FormatFlatList(candidate);
    }
    assert MergeWrites(history, history, Some([t2, t3]));
  }

  lemma SortThreeSorted(a: Trade, b: Trade, c: Trade)
    requires a.loadTimestamp >= b.loadTimestamp >= c.loadTimestamp
    ensures SortByTimestamp([a, b, c]) == [a, b, c]
  {
    assert SortedDesc([a, b, c]);
    SortSortedIsIdentity([a, b, c]);
  }

  // ---------------------------------------------------------------------------
  // The bulk load
  // ---------------------------------------------------------------------------

  /** A history response body: `data` is absent or null when None. */
  datatype HistoryBody = HistoryBody(data: Option<seq<Trade>>)

  /** `parsedResponse?.data ? parsedResponse.data : []`, the JSON being null when `body` is None. */
  function SubFetchTrades(body: Option<HistoryBody>): (r: seq<Trade>)
    ensures (body.None? || body.value.data.None?) ==> r == []
    ensures body.Some? && body.value.data.Some? ==> r == body.value.data.value
  {
    if body.Some? && body.value.data.Some? then body.value.data.value else []
  }

  /** The addresses of the defined open-orders accounts, in order (`filter(isDefined)` then `map`). */
  function DefinedKeys(accounts: seq<Option<MarginAccounts.PublicKey>>): (r: seq<MarginAccounts.PublicKey>)
    ensures forall k :: k in r <==> Some(k) in accounts
    ensures |r| <= |accounts|
  {
    if accounts == [] then []
    else (if accounts[0].Some? then [accounts[0].value] else []) + DefinedKeys(accounts[1..])
  }

  class TradeHistoryHook {
    var tradeHistory: seq<Trade>
    var allTrades: seq<Trade>
    var loadingHistory: bool

    constructor ()
      ensures tradeHistory == [] && allTrades == [] && !loadingHistory
    {
      tradeHistory, allTrades, loadingHistory := [], [], false;
    }

    /** The effect on a change of the active account: bulk load iff an account exists and the history is empty. */
    method BulkLoadTrigger(account: Option<MarginAccounts.MarginAccount>) returns (load: bool)
      ensures load <==> account.Some? && |tradeHistory| == 0
    {
      load := account.Some? && |tradeHistory| == 0;
    }

    /**
     * `fetchTradeHistory` up to its requests: it returns at once without an
     * account or without open-orders accounts; otherwise loading becomes true
     * and one request goes out per defined open-orders account.
     */
    method BeginFetch(account: Option<MarginAccounts.MarginAccount>) returns (keys: Option<seq<MarginAccounts.PublicKey>>)
      modifies this
      ensures account.None? || |account.value.openOrdersAccounts| == 0 ==>
        keys.None? && unchanged(this)
      ensures account.Some? && |account.value.openOrdersAccounts| > 0 ==>
        keys == Some(DefinedKeys(account.value.openOrdersAccounts)) &&
        loadingHistory && tradeHistory == old(tradeHistory) && allTrades == old(allTrades)
    {
      if account.None? || |account.value.openOrdersAccounts| == 0 {
        return None;
      }
      loadingHistory := true;
      keys := Some(DefinedKeys(account.value.openOrdersAccounts));
    }

    /**
     * The continuation of `Promise.all` over the requests (`bodies` is None
     * when one of them rejected, and then nothing changes, the loading flag
     * included): both lists become the formatted result, and loading ends.
     */
    method CompleteFetch(bodies: Option<seq<Option<HistoryBody>>>)
      modifies this
      ensures bodies.None? ==> unchanged(this)
      ensures bodies.Some? ==>
        var results := seq(|bodies.value|, i requires 0 <= i < |bodies.value| => SubFetchTrades(bodies.value[i]));
        tradeHistory == FormatTradeHistory(results) && allTrades == tradeHistory && !loadingHistory
    {
      if bodies.None? {
        return;
      }
      var results := seq(|bodies.value|, i requires 0 <= i < |bodies.value| => SubFetchTrades(bodies.value[i]));
      tradeHistory := FormatTradeHistory(results);
      allTrades := FormatTradeHistory(results);
      loadingHistory := false;
    }

    /**
     * The merge effect, run on a change of the live fills (None when `useFills`
     * gives none) and on a change of `tradeHistory`, so also right after
     * `CompleteFetch` writes it.
     */
    method OnFillsChanged(live: Option<seq<Trade>>)
      modifies this
      ensures allTrades == MergeLiveFills(old(tradeHistory), old(allTrades), live)
      ensures tradeHistory == old(tradeHistory) && loadingHistory == old(loadingHistory)
    {
      if live.Some? && |live.value| > 0 {
        var newFills := NewFills(live.value, tradeHistory);
        var newTradeHistory := newFills + tradeHistory;
        if |newFills| > 0 && |newTradeHistory| != |allTrades| {
          allTrades := FormatTradeHistory([newTradeHistory]);
        }
      }
    }
  }
}
