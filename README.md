# Margin accounts, trade history and order-table logic of the Mango web client

This project is a Dafny model of the state logic behind the margin-trading pages of the Mango Markets web client. It covers four pieces:

- **The margin-account registry** (`MarginAccounts`, in `margin_accounts.dfy`). This is the hook-held store of the user's margin accounts, updated by a set of handlers:
  - creating an account;
  - listing the candidate accounts of the mango group;
  - choosing the active account by equity;
  - the connect/disconnect effect;
  - the timed refresh of the active account (a one-shot timer, armed again only when the active account or `connected` changes);
  - `getMarginAccount` and its fallbacks;
  - the public-key → account map used by account pickers;
  - the SRM fee-tier information.

  The store is a class with one field per piece of React state. Every asynchronous continuation is split into a `Begin…` method and an `Apply…` method. `Begin…` captures what the JavaScript closure captured (the group, the active account, `connected`) in a request value. `Apply…` takes that request and the collaborator's response.
- **The trade-history reconciler** (`TradeHistory`, in `trade_history.dfy`). It has two parts:
  - The pure normaliser `formatTradeHistory`: flatten, derive `marketName`, `key` and `liquidity`, then sort newest first with a stable sort.
  - A hook class holding `tradeHistory`, `allTrades` and `loadingHistory`. It has methods for the bulk-load trigger, the bulk fetch, and the live-fill merge.
- **The token-account selector of the deposit dialog** (`TokenAccountSelector`, in `token_account_selector.dfy`). It covers the options list, the effect that picks the wallet account with the highest balance, and the change handler.
- **The open-orders table** (`OpenOrderTable`, in `open_order_table.dfy`). It covers:
  - the distinct market filter list;
  - the side comparator;
  - the `onFilter` prefix test;
  - the keyed rows;
  - the `cancelId` state around a cancel call.

`wrappers.dfy` holds the shared `Option` type; `js_values.dfy` holds the JavaScript values (`undefined`, `null`, a string) that the code turns into text or tests for truthiness.

Network and RPC calls are not modelled as calls. Their results are method arguments:
- `Option`/`ListResult`/`FetchResult` values: None or a failure constructor when the promise rejected.
- Equities and balances are integers supplied by the caller.
- The serum fee-tier tables are function parameters.
- Timestamps are integers.

### Behaviour of the code worth knowing

The model follows the code as written, including where it does less than its own comments or names suggest:

- **Account selection** (`SelectHighest`, `SelectedIndex`; marginAccounts.tsx:209-217). The comment says "the margin account with the largest amount", but the loop overwrites `lastEquity` with every equity, so each account is compared with its predecessor only. The choice is the last account whose equity is strictly above its predecessor's (the first is compared with 0), else the first account. Equities 250, 100, 150 choose the third account (`SelectionIsNotMaximum`); 100, 250, 250 choose the second (`SelectionFirstOfTiedMaxima`).
- **The refresh guard uses the tick's own captured values** (marginAccounts.tsx:311-317). The comment says that a change of margin account during the refresh makes it ignore the update, but the guard compares with the account and the `connected` its closure captured:
  - a refresh in flight for one account undoes a later switch to another (`AccountSwitchDuringRefresh`);
  - a response that arrives after a disconnect makes the account active again (`DisconnectDuringRefresh`). This lasts only until the group that the same tick refetches (lines 324-336) arrives, when the configured default group's fetch succeeds: the new group re-runs the connect effect, whose disconnect branch clears the account again.
- **Other responses in flight also survive a disconnect.** A listing started before a disconnect still stores its candidates and selects one (`DisconnectDuringListing`). With no group and no configured default group, the connect effect returns before its disconnect branch (marginAccounts.tsx:266-267), so nothing is cleared.
- **Bulk history load fails as a whole** (useTradeHistory.tsx:48-61). It awaits `Promise.all`, so a single rejected request drops every slice, writes no state, and leaves `loadingHistory` true (`CompleteFetch`).
- **The merge compares lengths, not contents** (useTradeHistory.tsx:76). It writes `allTrades` only if the candidate's length differs from the current `allTrades` length. A genuinely new fill can be dropped (`SameLengthNewFillIsDropped`). Since the candidate is always built from the bulk-loaded `tradeHistory`, a later, smaller batch replaces the merged list and fills merged earlier disappear (`LaterBatchDropsMergedFill`). Delivering the same batch twice is harmless (`MergeIdempotent`).
- **Dedup is by order id only** (useTradeHistory.tsx:72-74), against the bulk-loaded `tradeHistory` only, not against the derived `key` or the accumulated `allTrades`.
- **Missing fields show up as text** (useTradeHistory.tsx:18-19). A record without `uuid` gets a key ending in "undefined", and one without a market name or base currency gets a market name starting "undefined/" (`NormalizeAbsentFields`).
- **No reset on account switch** (useTradeHistory.tsx:64-68). Nothing clears the history when the account changes, and the bulk load runs only when `tradeHistory` is empty (`BulkLoadTrigger`).
- **The create flag is never set.** `maPending.cma` is never written; the lines that would write it are commented out (marginAccounts.tsx:145-148, 170, 175).

## Model

| member | source | states |
|---|---|---|
| MarginAccounts.SelectedIndex | src/utils/marginAccounts.tsx:210-217 | the index the loop holds after n accounts: one below n, 0 or a rise (equity strictly above its predecessor's, the first compared with 0), with no rise after it |
| MarginAccounts.SelectedIndexUnique | src/utils/marginAccounts.tsx:210-217 | the selection is determined by those properties: the last rise, else 0 |
| MarginAccounts.TieNeverReplaces | src/utils/marginAccounts.tsx:215-216 | an account whose equity equals its predecessor's is never the selected one |
| MarginAccounts.SelectionIsNotMaximum | src/utils/marginAccounts.tsx:210-217 | equities 250, 100, 150 select the third account, not the one of largest equity |
| MarginAccounts.SelectionFirstOfTiedMaxima | src/utils/marginAccounts.tsx:210-217 | equities 100, 250, 250 select the second account |
| MarginAccounts.SelectHighest | src/utils/marginAccounts.tsx:210-217 | the `forEach` loop's result is the account at `SelectedIndex` and is a member of the list |
| MarginAccounts.LookupPlan | src/utils/marginAccounts.tsx:231-245 | no call iff there is no group or neither a key nor an active account; otherwise it fetches the key given, else the active account's key, with the active account as fallback |
| MarginAccounts.LookupResult | src/utils/marginAccounts.tsx:239-253 | resolves to the immediate value, the fetched value, or the fallback on a failed fetch |
| MarginAccounts.GetMarginAccountFallsBack | src/utils/marginAccounts.tsx:231-253 | `getMarginAccount` yields the current active account with no group, with neither key nor active account, or on fetch error; otherwise exactly the fetched value |
| MarginAccounts.BuildPubKeyToAccountMapping | src/utils/marginAccounts.tsx:453-461 | the map's keys are the candidates' keys plus `new`; `new` maps to null; each key maps to its last candidate with that key |
| MarginAccounts.MarginAccountStore.constructor | src/utils/marginAccounts.tsx:99-137 | the initial state: no active account, no candidates, no group, flags false, zero SRM amounts |
| MarginAccounts.MarginAccountStore.SetConnected | src/utils/marginAccounts.tsx:121 | only `connected` changes |
| MarginAccounts.MarginAccountStore.BeginCreate | src/utils/marginAccounts.tsx:142-150 | without a group no init call is made and null is returned; otherwise the call captures the group and the active account |
| MarginAccounts.MarginAccountStore.ApplyCreated | src/utils/marginAccounts.tsx:152-176 | when both calls resolve, the fetched account (null included) becomes active and a listing starts with the closure's group and account (`sma` true), the result being that account; after a rejection null is returned and the state is unchanged |
| MarginAccounts.MarginAccountStore.ChooseAccount | src/utils/marginAccounts.tsx:426 | the exported setter makes the given account active and changes nothing else |
| MarginAccounts.MarginAccountStore.BeginListAccounts | src/utils/marginAccounts.tsx:183-193 | `sma` becomes true; without a group it returns without a call, leaving `sma` true |
| MarginAccounts.MarginAccountStore.ApplyListed | src/utils/marginAccounts.tsx:202-228 | `sma` false on success and failure; on success the list becomes the candidate set, and a selection follows iff it is non-empty and the closure had no active account; otherwise nothing else changes |
| MarginAccounts.MarginAccountStore.ApplyPrices | src/utils/marginAccounts.tsx:212-219 | the selected account (at `SelectedIndex`) becomes active, a member of the candidates; nothing else changes |
| MarginAccounts.MarginAccountStore.ApplyGroup | src/utils/marginAccounts.tsx:270-278 | a fetched group replaces the old one; a failed fetch changes nothing |
| MarginAccounts.MarginAccountStore.ConnectEffect | src/utils/marginAccounts.tsx:257-292 | fetches the default group iff none is held and one is configured; returns at once if neither; when disconnected clears the active account and candidates without listing; when connected with no active account starts a listing; otherwise no change |
| MarginAccounts.MarginAccountStore.RefreshTick | src/utils/marginAccounts.tsx:303-309 | the tick does nothing without an active account or while disconnected; otherwise it captures the account, `connected` and the lookup of `getMarginAccount(undefined)` |
| MarginAccounts.MarginAccountStore.ApplyRefresh | src/utils/marginAccounts.tsx:309-337 | the resolved account becomes active iff it is non-null, has the captured active key and the captured `connected` holds; otherwise state unchanged; the default group is refetched iff configured |
| MarginAccounts.MarginAccountStore.BeginSrmFeeInfo | src/utils/marginAccounts.tsx:378-380 | without a group it returns at once; otherwise it reads the group's SRM vault |
| MarginAccounts.MarginAccountStore.ApplySrmVault | src/utils/marginAccounts.tsx:381-387 | a null account info changes nothing; otherwise `totalSrm` is the vault amount and `srmFeeRates` the rates of its tier, nothing else changes |
| MarginAccounts.MarginAccountStore.BeginUserSrmInfo | src/utils/marginAccounts.tsx:394-395 | proceeds iff there is a group and the wallet is connected |
| MarginAccounts.MarginAccountStore.ApplyUserSrmAccounts | src/utils/marginAccounts.tsx:397-408 | the list is stored; when non-empty its first amount becomes `contributedSrm`; nothing else changes |
| MarginAccounts.DisconnectDuringRefresh | src/utils/marginAccounts.tsx:280-336 | create, tick, disconnect, then the refresh response: the account is active again after the disconnect cleared it, and cleared once more when the tick's refetched group re-runs the connect effect |
| MarginAccounts.AccountSwitchDuringRefresh | src/utils/marginAccounts.tsx:309-318 | a refresh in flight for account a, after a switch to account b, makes a active again |
| MarginAccounts.DisconnectDuringListing | src/utils/marginAccounts.tsx:202-285 | a listing in flight across a disconnect still stores its candidates and selects one |
| TradeHistory.Flatten | src/utils/useTradeHistory.tsx:11-12 | a record is in the flat list iff it is in one of the groups |
| TradeHistory.FlattenSingle | src/utils/useTradeHistory.tsx:77 | flattening an already flat list (as the merge passes it) gives that list |
| TradeHistory.FormatFlatList | src/utils/useTradeHistory.tsx:10-24 | formatting a flat list is sorting its normalised records |
| TradeHistory.Normalize | src/utils/useTradeHistory.tsx:13-21 | the market name is truthy: a truthy one is kept, else the text of `${base}/${quote}`; `key` is the text of `${orderId}${side}${uuid}`, absent fields showing as "undefined"; `Maker` iff `maker` or `eventFlags.maker`, else `Taker`; all other fields kept |
| TradeHistory.NormalizeIdempotent | src/utils/useTradeHistory.tsx:13-21 | normalising a normalised record changes nothing |
| TradeHistory.NormalizeAbsentFields | src/utils/useTradeHistory.tsx:16-19 | without `uuid`, market name and base currency, the key ends in "undefined" and the market name is "undefined/<quote>" |
| TradeHistory.InsertByTimestamp | src/utils/useTradeHistory.tsx:6-8 | inserting into a newest-first list keeps it newest first and adds exactly the record |
| TradeHistory.SortByTimestamp | src/utils/useTradeHistory.tsx:23 | `sort(byTimestamp)` gives a newest-first permutation of its input |
| TradeHistory.SortSortedIsIdentity | src/utils/useTradeHistory.tsx:23 | sorting a newest-first list leaves it as it is |
| TradeHistory.SortThreeSorted | src/utils/useTradeHistory.tsx:23 | three records already newest first stay in order |
| TradeHistory.FormatTradeHistory | src/utils/useTradeHistory.tsx:10-24 | the result is newest first, a permutation of the normalised flattened input, of the same length |
| TradeHistory.FormatMembers | src/utils/useTradeHistory.tsx:10-24 | the formatted records are exactly the normalisations of the input records |
| TradeHistory.FormatTwoRecords | src/utils/useTradeHistory.tsx:10-24 | two records, the second newer: the second comes first |
| TradeHistory.NewFills | src/utils/useTradeHistory.tsx:72-74 | a live fill is new iff no history record has its order id; no more new fills than live fills |
| TradeHistory.NewFillsAppend | src/utils/useTradeHistory.tsx:72-74 | the filter distributes over concatenation, so it keeps the live order |
| TradeHistory.NewFillsOfKnown | src/utils/useTradeHistory.tsx:72-74 | if every live order id is in the history there is no new fill |
| TradeHistory.NewFillsOfUnknown | src/utils/useTradeHistory.tsx:72-74 | if no live order id is in the history every live fill is new, in order |
| TradeHistory.MergeLiveFills | src/utils/useTradeHistory.tsx:70-82 | `allTrades` becomes the formatted `newFills ++ tradeHistory` iff there are live fills, at least one new fill, and that candidate's length differs from `allTrades`'s; otherwise it is unchanged |
| TradeHistory.RedeliveryIsNoop | src/utils/useTradeHistory.tsx:70-82 | redelivering fills whose order ids are all known leaves `allTrades` unchanged |
| TradeHistory.MergeIdempotent | src/utils/useTradeHistory.tsx:70-82 | delivering the same batch twice gives what delivering it once gives |
| TradeHistory.LaterBatchDropsMergedFill | src/utils/useTradeHistory.tsx:72-80 | with order 1 in the history, a batch of orders 2 and 3 merges to three records, and a later batch of order 3 alone rewrites the list to two records, order 2 gone |
| TradeHistory.MergedContents | src/utils/useTradeHistory.tsx:75-79 | after a write `allTrades` has `|newFills| + |tradeHistory|` records, newest first, a permutation of the normalised candidate |
| TradeHistory.SameLengthNewFillIsDropped | src/utils/useTradeHistory.tsx:76 | one new fill against an empty history and a one-record `allTrades` is dropped by the length guard |
| TradeHistory.BulkThenLiveScenario | src/utils/useTradeHistory.tsx:70-82 | a history of orders 2, 1 and live fills for orders 2 and 3 merge to orders 3, 2, 1 |
| TradeHistory.SubFetchTrades | src/utils/useTradeHistory.tsx:54-55 | a body without `data` (or a null body) contributes no records; otherwise its data |
| TradeHistory.DefinedKeys | src/utils/useTradeHistory.tsx:46-47 | the requested keys are exactly the defined open-orders accounts' keys |
| TradeHistory.TradeHistoryHook.constructor | src/utils/useTradeHistory.tsx:38-40 | both lists empty, not loading |
| TradeHistory.TradeHistoryHook.BulkLoadTrigger | src/utils/useTradeHistory.tsx:64-68 | the bulk load runs iff there is an active account and `tradeHistory` is empty |
| TradeHistory.TradeHistoryHook.BeginFetch | src/utils/useTradeHistory.tsx:43-47 | returns without change when there is no account or no open-orders account; otherwise loading becomes true and one request per defined open-orders account goes out |
| TradeHistory.TradeHistoryHook.CompleteFetch | src/utils/useTradeHistory.tsx:48-61 | on success both lists become the same formatted result and loading ends; a rejection changes nothing |
| TradeHistory.TradeHistoryHook.OnFillsChanged | src/utils/useTradeHistory.tsx:70-82 | `allTrades` becomes `MergeLiveFills` of the old state; `tradeHistory` and the loading flag unchanged |
| TokenAccountSelector.Options | src/components/mango/Deposit/TokenAccountSelector.tsx:21-42 | one option per account of the currency, keyed by position and valued by its address; with none, exactly one disabled placeholder |
| TokenAccountSelector.HandleChange | src/components/mango/Deposit/TokenAccountSelector.tsx:64-66 | the chosen address's mapping entry's account is set; an unmapped address throws |
| TokenAccountSelector.ChoosingAnOptionSelectsItsAccount | src/components/mango/Deposit/TokenAccountSelector.tsx:21-66 | choosing the option of a mapped account sets that account |
| TokenAccountSelector.SelectHighestBalance | src/components/mango/Deposit/TokenAccountSelector.tsx:44-62 | nothing is set iff the currency has no account; it throws iff the first account is unmapped and a later one is mapped; with the first mapped the choice has the highest balance among mapped accounts, earlier mapped accounts strictly lower |
| OpenOrderTable.Distinct | src/components/UserInfoTable/OpenOrderTable.tsx:67-68 | `[...new Set(names)]`: same members, no repeats, in order of first occurrence |
| OpenOrderTable.MarketFilters | src/components/UserInfoTable/OpenOrderTable.tsx:67-71 | one entry per distinct market name, with text and value both that name |
| OpenOrderTable.MarketFiltersCoverMarkets | src/components/UserInfoTable/OpenOrderTable.tsx:67-71 | a market has a filter entry iff some open order is in it |
| OpenOrderTable.MarketFiltersOrdered | src/components/UserInfoTable/OpenOrderTable.tsx:67-71 | no market has two entries, and entries follow the markets' first appearance |
| OpenOrderTable.SideSorter | src/components/UserInfoTable/OpenOrderTable.tsx:90-98 | 0 iff the sides are equal; otherwise 1 iff `a` is `buy`; always -1, 0 or 1 |
| OpenOrderTable.SideSorterAntisymmetric | src/components/UserInfoTable/OpenOrderTable.tsx:90-98 | antisymmetric on `buy`/`sell`, with `sell` ordered before `buy` |
| OpenOrderTable.SideSorterNotAntisymmetricOtherwise | src/components/UserInfoTable/OpenOrderTable.tsx:90-98 | two other distinct sides each compare below the other |
| OpenOrderTable.IndexFrom | src/components/UserInfoTable/OpenOrderTable.tsx:79 | `indexOf` returns an occurrence at or after the start with none before it, or -1 when there is none |
| OpenOrderTable.OnFilter | src/components/UserInfoTable/OpenOrderTable.tsx:79 | a record passes iff its market name starts with the filter value |
| OpenOrderTable.DataSource | src/components/UserInfoTable/OpenOrderTable.tsx:130-133 | same length and order as the orders (none for null), each row keyed by its order id |
| OpenOrderTable.OrderIdOf | src/components/UserInfoTable/OpenOrderTable.tsx:42 | `order?.orderId`: the id for an order, `undefined` otherwise |
| OpenOrderTable.CancelState.constructor | src/components/UserInfoTable/OpenOrderTable.tsx:39 | `cancelId` starts null |
| OpenOrderTable.CancelState.BeginCancel | src/components/UserInfoTable/OpenOrderTable.tsx:41-63 | without group or account it returns with `cancelId` null again; without an order the market read throws, is notified, and `cancelId` is null again; otherwise `cancelId` is the order's id during the call |
| OpenOrderTable.CancelState.FinishCancel | src/components/UserInfoTable/OpenOrderTable.tsx:54-64 | `cancelId` null again; an error is notified iff the call failed; `onCancelSuccess` runs iff it succeeded and was given |
| OpenOrderTable.LoadingWhileAwaiting | src/components/UserInfoTable/OpenOrderTable.tsx:122 | while `cancelId` holds the awaited order's id, a row's button spins iff the row has that order id; a missing row spins only if that id is the text "undefined" |
| OpenOrderTable.NoSpinnerAtRest | src/components/UserInfoTable/OpenOrderTable.tsx:122 | with `cancelId` null a row's button spins iff its order id is the text "null"; a missing row never spins |
| OpenOrderTable.CancelRoundTrip | src/components/UserInfoTable/OpenOrderTable.tsx:41-64 | after a click and the call's end `cancelId` is null on every path; the row spins during the call iff the call is made; `onCancelSuccess` runs iff group, account and order are there, the call succeeds and the callback is given; an error is notified iff the market read or the call fails |

## Left out

- Network and RPC calls (group, account and listing fetches, `initMarginAccount`, `cancelOrderAndSettle`, `getAccountInfo`, the REST history fetch) are not modelled as calls; their outcomes are method arguments.
- Timer scheduling and cleanup (`setTimeout`/`clearTimeout`) and React's effect re-run rules are not modelled; only the tick body and the effect bodies are.
- `getAllMarginAccountsForAllGroups` is not modelled: it pushes into its result inside `.then` callbacks it does not await, so its contents depend on scheduling.
- `computeValue` (floating-point equity) is not modelled; equities are integer inputs.
- serum's `getFeeTier`/`getFeeRates` tables are abstract function parameters; `nativeToUi` decimal scaling is not modelled (amounts are already in UI units).
- `Date` parsing in `byTimestamp` is not modelled; `loadTimestamp` is the parsed time as an integer.
- The size and price sorters of the open-orders table (floating-point differences) are not modelled.
- `usePrevious` (unused), the context plumbing of `MarginAccountProvider`/`useMarginAccount`, and the state the hook only exposes setters for (`marginAccountWithGroup`, `marginAccountsWithGroups`, `size`, `mango_groups`) are not modelled.
- Rendering (JSX, styled components, antd tables, tags, the `Select` element) is not modelled.
- The rejection of the prices fetch after a listing, of the SRM vault read and of the user SRM account listing is unhandled in the code; the model offers no `Apply…` step for them, which leaves the state unchanged as in the code.
- MarginAccounts.MarginAccountStore.RefreshTick: the lookup reads the group held at the tick, whereas the timer's closure holds the group of the render that scheduled it; the two differ only if the group arrives between scheduling and tick.
- TokenAccountSelector.SelectHighestBalance: the throw and highest-balance properties are stated only for mappings whose every entry is stored under its own account's address; for other mappings only the "nothing set iff no account" case is stated.
- MarginAccounts.BuildPubKeyToAccountMapping: the JavaScript `Map` keeps insertion order (the candidates, then `new` last); the Dafny map is unordered, so that order is not modelled.
- MarginAccounts.MarginAccountStore.BeginListAccounts: the code changes `maPending.sma` in place on the previous object and returns that same object, so React sees no state change and re-renders nothing for it; the model writes `listPending` as an ordinary field (the same holds for `ApplyListed`).
- TradeHistory.NewFills: a live fill without an order id makes `fill.orderId.toString()` throw; the model's order id is always text, so that throw is not modelled.
- TradeHistory.SortByTimestamp: stability of the sort is not stated as a contract; `SortSortedIsIdentity` gives only its consequence that a newest-first list is kept as it is.
- OpenOrderTable.CancelState.BeginCancel: failures of `new PublicKey(IDS[endpointInfo!.name]…)` before the call are not modelled; only the missing-order failure is.
