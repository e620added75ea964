/**
 * The deposit dialog's token-account selector: the options it lists for a
 * currency, the effect that picks the account with the highest balance, and
 * the change handler.
 */
module TokenAccountSelector {

  /** A wallet token account, identified by its address in text form. */
  datatype TokenAccount = TokenAccount(pubkey: string)

  /** An entry of `tokenAccountsMapping.current`: the account's balance and the account. */
  datatype MappingEntry = MappingEntry(balance: int, account: TokenAccount)

  type Mapping = map<string, MappingEntry>

  /** What the selector hands to `setTokenAccount`: nothing, an account, or the `TypeError` an undefined entry raises. */
  datatype Selection = NotSet | Chosen(account: TokenAccount) | Threw

  /** A `Select` option: one per account (keyed by position), or the disabled placeholder. */
  datatype SelectOption =
    | AccountOption(key: nat, value: string)
    | Placeholder(value: string, disabled: bool)

  /** Every entry is stored under its own account's address. */
  ghost predicate WellFormed(mapping: Mapping)
  {
    forall k :: k in mapping ==> mapping[k].account.pubkey == k
  }

  /** The list of accounts for `currency`, empty when the map has none. */
  function AccountsFor(groupTokenAccounts: map<string, seq<TokenAccount>>, currency: string): seq<TokenAccount>
  {
    if currency in groupTokenAccounts then groupTokenAccounts[currency] else []
  }

  /** The placeholder's text. */
  function NoAddressText(currency: string): string
  {
    "No wallet address found for " + currency
  }

  /**
   * `options`: one option per account of the currency, valued by its
   * address; with no account, exactly one disabled placeholder.
   */
  function Options(groupTokenAccounts: map<string, seq<TokenAccount>>, currency: string): (r: seq<SelectOption>)
    ensures var accounts := AccountsFor(groupTokenAccounts, currency);
      && (|accounts| > 0 ==>
            |r| == |accounts| && forall i :: 0 <= i < |r| ==> r[i] == AccountOption(i, accounts[i].pubkey))
      && (|accounts| == 0 ==> r == [Placeholder(NoAddressText(currency), true)])
  {
    var accounts := AccountsFor(groupTokenAccounts, currency);
    if |accounts| > 0 then seq(|accounts|, i requires 0 <= i < |accounts| => AccountOption(i, accounts[i].pubkey))
    else [Placeholder(NoAddressText(currency), true)]
  }

  /** `handleChange`: the mapping's account for the chosen address; an unknown address throws. */
  function HandleChange(mapping: Mapping, value: string): (r: Selection)
    ensures value in mapping ==> r == Chosen(mapping[value].account)
    ensures value !in mapping ==> r == Threw
  {
    if value in mapping then Chosen(mapping[value].account) else Threw
  }

  /** Picking the option of a mapped account makes that account the token account. */
  lemma ChoosingAnOptionSelectsItsAccount(groupTokenAccounts: map<string, seq<TokenAccount>>, currency: string, mapping: Mapping, i: nat)
    requires WellFormed(mapping)
    requires i < |AccountsFor(groupTokenAccounts, currency)|
    requires AccountsFor(groupTokenAccounts, currency)[i].pubkey in mapping
    ensures Options(groupTokenAccounts, currency)[i].AccountOption?
    ensures HandleChange(mapping, Options(groupTokenAccounts, currency)[i].value)
      == Chosen(AccountsFor(groupTokenAccounts, currency)[i])
  {
  }

  /**
   * The effect on a change of the currency's accounts. Starting from the
   * first account, each later account with a mapping entry replaces the
   * current choice iff its balance is strictly greater than the current
   * choice's; reading the current choice's entry throws if it has none.
   * Under a well-formed mapping the result is the first account of highest
   * balance among the mapped ones.
   */
  method SelectHighestBalance(groupTokenAccounts: map<string, seq<TokenAccount>>, currency: string, mapping: Mapping)
    returns (r: Selection, ghost chosen: nat)
    ensures var accounts := AccountsFor(groupTokenAccounts, currency);
      r.NotSet? <==> |accounts| == 0
    ensures var accounts := AccountsFor(groupTokenAccounts, currency);
      WellFormed(mapping) && |accounts| > 0 ==>
        (r.Threw? <==> accounts[0].pubkey !in mapping && exists i :: 0 < i < |accounts| && accounts[i].pubkey in mapping)
    ensures var accounts := AccountsFor(groupTokenAccounts, currency);
      WellFormed(mapping) && |accounts| > 0 && accounts[0].pubkey !in mapping && r.Chosen? ==>
        r == Chosen(accounts[0])
    ensures var accounts := AccountsFor(groupTokenAccounts, currency);
      WellFormed(mapping) && |accounts| > 0 && accounts[0].pubkey in mapping ==>
        && chosen < |accounts|
        && r == Chosen(accounts[chosen])
        && accounts[chosen].pubkey in mapping
        && (forall j :: 0 <= j < |accounts| && accounts[j].pubkey in mapping ==>
              mapping[accounts[j].pubkey].balance <= mapping[accounts[chosen].pubkey].balance)
        && (forall j :: 0 <= j < chosen && accounts[j].pubkey in mapping ==>
              mapping[accounts[j].pubkey].balance < mapping[accounts[chosen].pubkey].balance)
  {
    chosen := 0;
    if currency !in groupTokenAccounts || |groupTokenAccounts[currency]| == 0 {
      return NotSet, chosen;
    }
    var accounts := groupTokenAccounts[currency];
    var hAccount := accounts[0];
    for i := 0 to |accounts|
      invariant chosen < |accounts| && chosen <= i
      invariant chosen == 0 ==> hAccount == accounts[0]
      invariant chosen > 0 ==> accounts[chosen].pubkey in mapping && hAccount == mapping[accounts[chosen].pubkey].account
      invariant WellFormed(mapping) ==> hAccount == accounts[chosen]
      invariant WellFormed(mapping) && accounts[0].pubkey !in mapping ==>
        chosen == 0 && forall j :: 0 < j < i ==> accounts[j].pubkey !in mapping
      invariant WellFormed(mapping) && accounts[0].pubkey in mapping ==>
        && accounts[chosen].pubkey in mapping
        && (forall j :: 0 <= j < i && accounts[j].pubkey in mapping ==>
              mapping[accounts[j].pubkey].balance <= mapping[accounts[chosen].pubkey].balance)
        && (forall j :: 0 <= j < chosen && accounts[j].pubkey in mapping ==>
              mapping[accounts[j].pubkey].balance < mapping[accounts[chosen].pubkey].balance)
    {
      if i != 0 && accounts[i].pubkey in mapping {
        if hAccount.pubkey !in mapping {
          return Threw, chosen;
        }
        if mapping[accounts[i].pubkey].balance > mapping[hAccount.pubkey].balance {
          hAccount, chosen := mapping[accounts[i].pubkey].account, i;
        }
      }
    }
    r := Chosen(hAccount);
  }
}
