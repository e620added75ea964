/**
 * The margin-account registry: the hook-held store of the user's margin
 * accounts (the active one, the listed candidates, the mango group, the
 * pending flags and the SRM fee information) and the handlers that update it.
 *
 * Every asynchronous continuation is a separate method: a `Begin...` step
 * captures what the JavaScript closure captured (the render's group, active
 * account and `connected`) in a request value, and an `Apply...` step takes
 * that request together with the collaborator's response.
 */
module MarginAccounts {
  import opened Wrappers

  /** A public key in its base58 text form; the source compares keys through `toString()`/`toBase58()`. */
  type PublicKey = string

  /** A margin account: its address and the addresses of its open-orders accounts (`undefined` entries kept). */
  datatype MarginAccount = MarginAccount(publicKey: PublicKey, openOrdersAccounts: seq<Option<PublicKey>>)

  /** A mango group: its address and the SRM vault whose balance gives the fee tier. */
  datatype MangoGroup = MangoGroup(publicKey: PublicKey, srmVault: PublicKey)

  datatype FeeRates = FeeRates(maker: int, taker: int)

  /** A user's SRM deposit; `amount` is already in UI units. */
  datatype MangoSrmAccount = MangoSrmAccount(amount: int)

  /** Everything the store holds; `createPending`/`listPending` are `maPending.cma`/`maPending.sma`. */
  datatype RegistryState = RegistryState(
    marginAccount: Option<MarginAccount>,
    marginAccounts: seq<MarginAccount>,
    connected: bool,
    mangoGroup: Option<MangoGroup>,
    createPending: bool,
    listPending: bool,
    totalSrm: int,
    srmFeeRates: Option<FeeRates>,
    mangoSrmAccounts: Option<seq<MangoSrmAccount>>,
    contributedSrm: int)

  /** What a listing captured when it started: the group it lists for and the active account then. */
  datatype ListRequest = ListRequest(group: MangoGroup, activeAtStart: Option<MarginAccount>)

  /** The response of `getMarginAccountsForOwner`. */
  datatype ListResult = Listed(accounts: seq<MarginAccount>) | ListFailed

  /** What `createMarginAccount` captured before its `initMarginAccount` call. */
  datatype CreateRequest = CreateRequest(group: MangoGroup, activeAtStart: Option<MarginAccount>)

  /**
   * What `getMarginAccount` does: resolve at once to a value without any call,
   * or fetch `key`, resolving to `fallback` if the fetch fails.
   */
  datatype AccountLookup =
    | Immediate(account: Option<MarginAccount>)
    | Fetch(key: PublicKey, fallback: Option<MarginAccount>)

  /** The response of the single-account fetch. */
  datatype FetchResult = Fetched(account: Option<MarginAccount>) | FetchFailed

  /** What a refresh tick captured: the active account, `connected`, and the lookup it issued. */
  datatype TickRequest = TickRequest(active: MarginAccount, connected: bool, lookup: AccountLookup)

  // ---------------------------------------------------------------------------
  // Selection of the active account among listed candidates
  // ---------------------------------------------------------------------------

  /** The value `equities[i]` is compared with in the selection loop: the previous account's equity, 0 for the first. */
  function PrevEquity(equities: seq<int>, i: nat): int
    requires i < |equities|
  {
    if i == 0 then 0 else equities[i - 1]
  }

  /** Account `i` replaces the current choice: its equity is strictly above its predecessor's. */
  predicate Rises(equities: seq<int>, i: nat)
    requires i < |equities|
  {
    equities[i] > PrevEquity(equities, i)
  }

  /**
   * The index held by `highestMAcc` once the loop has seen the first `n`
   * accounts: the last rise among them, or 0 if there is none.
   */
  function SelectedIndex(equities: seq<int>, n: nat): (k: nat)
    requires n <= |equities|
    ensures n > 0 ==> k < n
    ensures k == 0 || (k < n && Rises(equities, k))
    ensures forall j :: k < j < n ==> !Rises(equities, j)
  {
    if n == 0 then 0
    else if Rises(equities, n - 1) then n - 1
    else SelectedIndex(equities, n - 1)
  }

  /** The two properties of `SelectedIndex` determine it: it is the last rise, else 0. */
  lemma SelectedIndexUnique(equities: seq<int>, k: nat)
    requires 0 < |equities| && k < |equities|
    requires k == 0 || Rises(equities, k)
    requires forall j :: k < j < |equities| ==> !Rises(equities, j)
    requires k == 0 ==> forall j :: 0 < j < |equities| ==> !Rises(equities, j)
    ensures SelectedIndex(equities, |equities|) == k
  {
  }

  /** An account whose equity ties its predecessor's is never the one selected. */
  lemma TieNeverReplaces(equities: seq<int>, i: nat, n: nat)
    requires 0 < i < n <= |equities| && equities[i] == equities[i - 1]
    ensures SelectedIndex(equities, n) != i
  {
  }

  /**
   * The selection is not a running maximum: with equities 250, 100, 150 the
   * third account is chosen although the first has the largest equity.
   */
  lemma SelectionIsNotMaximum()
    ensures SelectedIndex([250, 100, 150], 3) == 2
  {
  }

  /** Equities 100, 250, 250: the second account is chosen. */
  lemma SelectionFirstOfTiedMaxima()
    ensures SelectedIndex([100, 250, 250], 3) == 1
  {
  }

  /**
   * The `forEach` loop inside the `getPrices` continuation: `highestMAcc`
   * starts as the first account and is replaced by each account whose equity
   * exceeds `lastEquity`, which is overwritten with every equity.
   */
  method SelectHighest(accounts: seq<MarginAccount>, equities: seq<int>) returns (highest: MarginAccount)
    requires |accounts| > 0 && |equities| == |accounts|
    ensures highest == accounts[SelectedIndex(equities, |equities|)]
    ensures highest in accounts
  {
    highest := accounts[0];
    ghost var k := 0;
    var lastEquity := 0;
    for i := 0 to |accounts|
      invariant k == SelectedIndex(equities, i)
      invariant k < |accounts| && highest == accounts[k]
      invariant lastEquity == if i == 0 then 0 else equities[i - 1]
    {
      var equity := equities[i];
      if equity > lastEquity {
        highest, k := accounts[i], i;
      }
      lastEquity := equity;
    }
  }

  // ---------------------------------------------------------------------------
  // getMarginAccount
  // ---------------------------------------------------------------------------

  /**
   * What `getMarginAccount(pubKey)` does in state `s`: with no group, or with
   * neither a key nor an active account, it resolves to the active account
   * without a call; otherwise it fetches the given key, else the active one's.
   */
  function LookupPlan(s: RegistryState, pubKey: Option<PublicKey>): (p: AccountLookup)
    ensures p.Immediate? <==> s.mangoGroup.None? || (pubKey.None? && s.marginAccount.None?)
    ensures p.Immediate? ==> p.account == s.marginAccount
    ensures p.Fetch? ==> p.fallback == s.marginAccount
    ensures p.Fetch? && pubKey.Some? ==> p.key == pubKey.value
    ensures p.Fetch? && pubKey.None? ==> s.marginAccount.Some? && p.key == s.marginAccount.value.publicKey
  {
    if s.mangoGroup.None? || (pubKey.None? && s.marginAccount.None?) then Immediate(s.marginAccount)
    else Fetch(if pubKey.Some? then pubKey.value else s.marginAccount.value.publicKey, s.marginAccount)
  }

  /** The value `getMarginAccount` resolves to, given the fetch's response when it made one. */
  function LookupResult(p: AccountLookup, response: FetchResult): (r: Option<MarginAccount>)
    ensures p.Immediate? ==> r == p.account
    ensures p.Fetch? && response.FetchFailed? ==> r == p.fallback
    ensures p.Fetch? && response.Fetched? ==> r == response.account
  {
    match p
    case Immediate(a) => a
    case Fetch(_, fallback) => if response.Fetched? then response.account else fallback
  }

  /**
   * `getMarginAccount` resolves to the current active account when there is no
   * group, when there is neither a key argument nor an active account, and on a
   * failed fetch; otherwise to exactly what the fetch returned.
   */
  lemma GetMarginAccountFallsBack(s: RegistryState, pubKey: Option<PublicKey>, response: FetchResult)
    ensures s.mangoGroup.None? || (pubKey.None? && s.marginAccount.None?) || response.FetchFailed?
      ==> LookupResult(LookupPlan(s, pubKey), response) == s.marginAccount
    ensures s.mangoGroup.Some? && (pubKey.Some? || s.marginAccount.Some?) && response.Fetched?
      ==> LookupResult(LookupPlan(s, pubKey), response) == response.account
  {
  }

  /** The guard of the refresh continuation: a non-null account with the captured active key, while the captured `connected` holds. */
  predicate RefreshApplies(tick: TickRequest, account: Option<MarginAccount>)
  {
    account.Some? && account.value.publicKey == tick.active.publicKey && tick.connected
  }

  // ---------------------------------------------------------------------------
  // The key mapping used by account pickers
  // ---------------------------------------------------------------------------

  /** The reserved key of the "create a new account" entry. */
  const NewAccountKey: PublicKey := "new"

  /**
   * `buildPubKeytoAcountMapping`: every candidate under its key (a later
   * duplicate overwriting an earlier one), then `'new'` mapped to null.
   */
  method BuildPubKeyToAccountMapping(accounts: seq<MarginAccount>) returns (mapping: map<PublicKey, Option<MarginAccount>>)
    ensures NewAccountKey in mapping && mapping[NewAccountKey] == None
    ensures mapping.Keys == {NewAccountKey} + set i | 0 <= i < |accounts| :: accounts[i].publicKey
    ensures forall k :: k in mapping && k != NewAccountKey ==>
      exists i :: 0 <= i < |accounts| && accounts[i].publicKey == k && mapping[k] == Some(accounts[i]) &&
        forall j :: i < j < |accounts| ==> accounts[j].publicKey != k
  {
    mapping := map[];
    for i := 0 to |accounts|
      invariant mapping.Keys == set j | 0 <= j < i :: accounts[j].publicKey
      invariant forall k :: k in mapping ==>
        exists j :: 0 <= j < i && accounts[j].publicKey == k && mapping[k] == Some(accounts[j]) &&
          forall l :: j < l < i ==> accounts[l].publicKey != k
    {
      mapping := mapping[accounts[i].publicKey := Some(accounts[i])];
    }
    mapping := mapping[NewAccountKey := None];
  }

  // ---------------------------------------------------------------------------
  // The store
  // ---------------------------------------------------------------------------

  class MarginAccountStore {
    var marginAccount: Option<MarginAccount>
    var marginAccounts: seq<MarginAccount>
    var connected: bool
    var mangoGroup: Option<MangoGroup>
    var createPending: bool
    var listPending: bool
    var totalSrm: int
    var srmFeeRates: Option<FeeRates>
    var mangoSrmAccounts: Option<seq<MangoSrmAccount>>
    var contributedSrm: int
    /** Whether the endpoint's options name the default `BTC_ETH_USDT` group. */
    const defaultGroupConfigured: bool

    function State(): RegistryState
      reads this
    {
      RegistryState(marginAccount, marginAccounts, connected, mangoGroup, createPending,
                    listPending, totalSrm, srmFeeRates, mangoSrmAccounts, contributedSrm)
    }

    /** The hook's initial state. */
    constructor (connected: bool, defaultGroupConfigured: bool)
      ensures State() == RegistryState(None, [], connected, None, false, false, 0, None, None, 0)
      ensures this.defaultGroupConfigured == defaultGroupConfigured
    {
      marginAccount, marginAccounts := None, [];
      this.connected := connected;
      mangoGroup := None;
      createPending, listPending := false, false;
      totalSrm, srmFeeRates, mangoSrmAccounts, contributedSrm := 0, None, None, 0;
      this.defaultGroupConfigured := defaultGroupConfigured;
    }

    /** The wallet connects or disconnects. */
    method SetConnected(c: bool)
      modifies this
      ensures State() == old(State()).(connected := c)
    {
      connected := c;
    }

    /**
     * `createMarginAccount` up to its `initMarginAccount` call: without a
     * group it resolves to null and issues no call.
     */
    method BeginCreate() returns (req: Option<CreateRequest>)
      ensures req.None? <==> mangoGroup.None?
      ensures req.Some? ==> req.value == CreateRequest(mangoGroup.value, marginAccount)
    {
      if mangoGroup.None? {
        return None;
      }
      req := Some(CreateRequest(mangoGroup.value, marginAccount));
    }

    /**
     * The continuation of `initMarginAccount` and the account fetch
     * (`FetchFailed` when either rejected): the fetched account, null
     * included, becomes active and a listing starts with the closure's group
     * and account; the result is the fetched value, or null after a
     * rejection, which leaves the state unchanged.
     */
    method ApplyCreated(req: CreateRequest, created: FetchResult)
      returns (r: Option<MarginAccount>, listing: Option<ListRequest>)
      modifies this
      ensures created.FetchFailed? ==> r.None? && State() == old(State()) && listing.None?
      ensures created.Fetched? ==> r == created.account
      ensures created.Fetched? ==> State() == old(State()).(marginAccount := created.account, listPending := true)
      ensures created.Fetched? ==> listing == Some(ListRequest(req.group, req.activeAtStart))
    {
      if created.FetchFailed? {
        return None, None;
      }
      marginAccount := created.account;
      listPending := true;
      r, listing := created.account, Some(ListRequest(req.group, req.activeAtStart));
    }

    /** The exported `setMarginAccount`, through which an account picker makes another account active. */
    method ChooseAccount(account: Option<MarginAccount>)
      modifies this
      ensures State() == old(State()).(marginAccount := account)
    {
      marginAccount := account;
    }

    /**
     * `getAllMarginAccountsForGroup` up to its listing call: `sma` becomes
     * true; without a group it returns at once, leaving `sma` true.
     */
    method BeginListAccounts() returns (req: Option<ListRequest>)
      modifies this
      ensures State() == old(State()).(listPending := true)
      ensures req.None? <==> mangoGroup.None?
      ensures req.Some? ==> req.value == ListRequest(mangoGroup.value, marginAccount)
    {
      listPending := true;
      if mangoGroup.None? {
        return None;
      }
      req := Some(ListRequest(mangoGroup.value, marginAccount));
    }

    /**
     * The listing's continuation: `sma` becomes false on success and on
     * failure; on success the list becomes the candidate set, and a selection
     * follows iff the list is non-empty and the closure had no active account.
     */
    method ApplyListed(req: ListRequest, result: ListResult) returns (selectionNeeded: bool)
      modifies this
      ensures result.ListFailed? ==> State() == old(State()).(listPending := false) && !selectionNeeded
      ensures result.Listed? ==> State() == old(State()).(listPending := false, marginAccounts := result.accounts)
      ensures result.Listed? ==> selectionNeeded == (|result.accounts| > 0 && req.activeAtStart.None?)
    {
      listPending := false;
      selectionNeeded := false;
      if result.Listed? {
        marginAccounts := result.accounts;
        selectionNeeded := |result.accounts| > 0 && req.activeAtStart.None?;
      }
    }

    /**
     * The `getPrices` continuation: `equities[i]` is the equity of
     * `accounts[i]` at the fetched prices; the selected account becomes active.
     */
    method ApplyPrices(accounts: seq<MarginAccount>, equities: seq<int>)
      requires |accounts| > 0 && |equities| == |accounts|
      modifies this
      ensures State() == old(State()).(marginAccount := Some(accounts[SelectedIndex(equities, |equities|)]))
      ensures marginAccount.Some? && marginAccount.value in accounts
    {
      var highest := SelectHighest(accounts, equities);
      marginAccount := Some(highest);
    }

    /** The group fetch's continuation: a fetched group replaces the old one; a failure changes nothing. */
    method ApplyGroup(fetched: Option<MangoGroup>)
      modifies this
      ensures fetched.None? ==> State() == old(State())
      ensures fetched.Some? ==> State() == old(State()).(mangoGroup := fetched)
    {
      if fetched.Some? {
        mangoGroup := fetched;
      }
    }

    /**
     * The effect run on changes of `connected` or the group. Without a group
     * it starts the default group's fetch, or returns at once if no default is
     * configured. When disconnected it clears the active account and the
     * candidates and stops; otherwise, with no active account, it starts a
     * listing (an empty candidate array is truthy, so only the account counts).
     */
    method ConnectEffect() returns (groupFetch: bool, listing: Option<ListRequest>)
      modifies this
      ensures groupFetch == (old(mangoGroup).None? && defaultGroupConfigured)
      ensures old(mangoGroup).None? && !defaultGroupConfigured ==> State() == old(State()) && listing.None?
      ensures (old(mangoGroup).Some? || defaultGroupConfigured) && !connected ==>
        State() == old(State()).(marginAccount := None, marginAccounts := []) && listing.None?
      ensures (old(mangoGroup).Some? || defaultGroupConfigured) && connected && old(marginAccount).Some? ==>
        State() == old(State()) && listing.None?
      ensures (old(mangoGroup).Some? || defaultGroupConfigured) && connected && old(marginAccount).None? ==>
        State() == old(State()).(listPending := true) &&
        listing == (if mangoGroup.None? then None else Some(ListRequest(mangoGroup.value, None)))
    {
      groupFetch, listing := false, None;
      if mangoGroup.None? {
        if !defaultGroupConfigured {
          return;
        }
        groupFetch := true;
      }
      if !connected {
        marginAccount := None;
        marginAccounts := [];
        return;
      }
      if marginAccount.None? {
        listing := BeginListAccounts();
      }
    }

    /**
     * The timer callback up to its `getMarginAccount(undefined)` call: nothing
     * happens without an active account or while disconnected.
     */
    method RefreshTick() returns (tick: Option<TickRequest>)
      ensures tick.None? <==> marginAccount.None? || !connected
      ensures tick.Some? ==> tick.value == TickRequest(marginAccount.value, connected, LookupPlan(State(), None))
    {
      if marginAccount.None? || !connected {
        return None;
      }
      tick := Some(TickRequest(marginAccount.value, connected, LookupPlan(State(), None)));
    }

    /**
     * The refresh continuation: the account `getMarginAccount` resolved to
     * becomes active only if it has the captured active key and the captured
     * `connected` holds; then the default group is fetched again if configured.
     */
    method ApplyRefresh(tick: TickRequest, response: FetchResult) returns (groupFetch: bool)
      modifies this
      ensures RefreshApplies(tick, LookupResult(tick.lookup, response)) ==>
        State() == old(State()).(marginAccount := LookupResult(tick.lookup, response))
      ensures !RefreshApplies(tick, LookupResult(tick.lookup, response)) ==> State() == old(State())
      ensures groupFetch == defaultGroupConfigured
    {
      var account := LookupResult(tick.lookup, response);
      if RefreshApplies(tick, account) {
        marginAccount := account;
      }
      groupFetch := defaultGroupConfigured;
    }

    /** `getSrmFeeInfo` up to its vault read: it returns at once without a group. */
    method BeginSrmFeeInfo() returns (vault: Option<PublicKey>)
      ensures vault.None? <==> mangoGroup.None?
      ensures vault.Some? ==> vault.value == mangoGroup.value.srmVault
    {
      if mangoGroup.None? {
        return None;
      }
      vault := Some(mangoGroup.value.srmVault);
    }

    /**
     * The vault read's continuation (`amount` None when the account info is
     * null): the vault balance becomes `totalSrm` and its fee tier's rates
     * become `srmFeeRates`. `feeTier` and `feeRates` are serum's tables.
     */
    method ApplySrmVault(amount: Option<int>, feeTier: (int, int) -> int, feeRates: int -> FeeRates)
      modifies this
      ensures amount.None? ==> State() == old(State())
      ensures amount.Some? ==>
        State() == old(State()).(totalSrm := amount.value, srmFeeRates := Some(feeRates(feeTier(0, amount.value))))
    {
      if amount.Some? {
        totalSrm := amount.value;
        srmFeeRates := Some(feeRates(feeTier(0, amount.value)));
      }
    }

    /** `getUserSrmInfo` returns at once without a group or while disconnected. */
    method BeginUserSrmInfo() returns (proceed: bool)
      ensures proceed <==> mangoGroup.Some? && connected
    {
      proceed := mangoGroup.Some? && connected;
    }

    /**
     * The continuation of the user's SRM account listing: the list is stored
     * and, when non-empty, its first amount becomes `contributedSrm`; the
     * caller then runs the fee-info steps.
     */
    method ApplyUserSrmAccounts(accounts: seq<MangoSrmAccount>)
      modifies this
      ensures |accounts| == 0 ==> State() == old(State()).(mangoSrmAccounts := Some(accounts))
      ensures |accounts| > 0 ==>
        State() == old(State()).(mangoSrmAccounts := Some(accounts), contributedSrm := accounts[0].amount)
    {
      mangoSrmAccounts := Some(accounts);
      if |accounts| > 0 {
        contributedSrm := accounts[0].amount;
      }
    }
  }

  /**
   * A disconnect while a refresh is in flight does not discard the refresh:
   * the response resets the active account the disconnect had cleared. The
   * reactivation lasts until the group the same tick refetches arrives: the
   * new group re-runs the connect effect, which clears the account again.
   */
  method DisconnectDuringRefresh(acc: MarginAccount, group: MangoGroup, refetched: MangoGroup)
    returns (reactivated: Option<MarginAccount>, afterGroupRefetch: Option<MarginAccount>)
    ensures reactivated == Some(acc)
    ensures afterGroupRefetch == None
  {
    var store := new MarginAccountStore(true, true);
    store.ApplyGroup(Some(group));
    var create := store.BeginCreate();
    var _, _ := store.ApplyCreated(create.value, Fetched(Some(acc)));
    var tick := store.RefreshTick();
    store.SetConnected(false);
    var _, _ := store.ConnectEffect();
    assert store.marginAccount == None;
    var groupFetch := store.ApplyRefresh(tick.value, Fetched(Some(acc)));
    reactivated := store.marginAccount;
    if groupFetch {
      store.ApplyGroup(Some(refetched));
      var _, _ := store.ConnectEffect();
    }
    afterGroupRefetch := store.marginAccount;
  }

  /**
   * The refresh guard compares with the account active when the tick
   * started: a refresh in flight for `a` undoes a later switch to `b`.
   */
  method AccountSwitchDuringRefresh(a: MarginAccount, b: MarginAccount, group: MangoGroup)
    returns (switched: Option<MarginAccount>, afterRefresh: Option<MarginAccount>)
    ensures switched == Some(b)
    ensures afterRefresh == Some(a)
  {
    var store := new MarginAccountStore(true, true);
    store.ApplyGroup(Some(group));
    store.ChooseAccount(Some(a));
    var tick := store.RefreshTick();
    store.ChooseAccount(Some(b));
    switched := store.marginAccount;
    var _ := store.ApplyRefresh(tick.value, Fetched(Some(a)));
    afterRefresh := store.marginAccount;
  }

  /**
   * A listing that was in flight when the wallet disconnected still stores its
   * candidates and, if the closure had no active account, selects one.
   */
  method DisconnectDuringListing(acc: MarginAccount, group: MangoGroup) returns (active: Option<MarginAccount>, candidates: seq<MarginAccount>)
    ensures active == Some(acc) && candidates == [acc]
  {
    var store := new MarginAccountStore(true, true);
    store.ApplyGroup(Some(group));
    var _, listing := store.ConnectEffect();
    store.SetConnected(false);
    var _, _ := store.ConnectEffect();
    var select := store.ApplyListed(listing.value, Listed([acc]));
    if select {
      store.ApplyPrices([acc], [0]);
    }
    active, candidates := store.marginAccount, store.marginAccounts;
  }
}
