/** The account list (src/stores/account.ts): the configured cloud accounts, kept in insertion
    order, and the master password that encrypts them. Persisting the list is I/O and not part of
    this model; the list read from storage is a parameter of `LoadAccountList`. */
module Accounts {
  import opened Wrappers
  import opened Seqs
  import opened Types

  const NotFound := "账户不存在"

  /** The fields a caller supplies for a new account (everything but id and timestamps). */
  datatype AccountDraft = AccountDraft(
    name: string,
    provider: CloudProvider,
    accessKeyId: string,
    accessKeySecret: string,
    region: Option<string>,
    enabled: Option<bool>)

  /** A `Partial<CloudAccount>`: a present field overrides the stored one. Each optional field is
      `None` when the key is absent, `Some(None)` when it is present with the value `undefined`
      (which the spread copies, clearing the field), and `Some(Some(v))` when it holds v. */
  datatype AccountPatch = AccountPatch(
    id: Option<string>,
    name: Option<string>,
    provider: Option<CloudProvider>,
    accessKeyId: Option<string>,
    accessKeySecret: Option<string>,
    region: Option<Option<string>>,
    enabled: Option<Option<bool>>,
    createdAt: Option<int>,
    updatedAt: Option<int>)

  /** The new account of `addAccount`: the draft with `enabled` defaulting to true. */
  function NewAccount(d: AccountDraft, id: string, now: int): (a: Account)
    ensures a.enabled.Some?
    ensures IsEnabled(a) <==> d.enabled != Some(false)
    ensures a.id == id && a.createdAt == now && a.updatedAt == now
    ensures a.name == d.name && a.provider == d.provider && a.region == d.region
    ensures a.accessKeyId == d.accessKeyId && a.accessKeySecret == d.accessKeySecret
  {
    Account(id, d.name, d.provider, d.accessKeyId, d.accessKeySecret, d.region,
            Some(d.enabled.GetOr(true)), now, now)
  }

  /** `{ ...a, ...u, id, updatedAt: now }`: the patch over the stored account, except that the id
      stays the argument's and the update time is now. */
  function Patched(a: Account, u: AccountPatch, id: string, now: int): (r: Account)
    ensures r.id == id && r.updatedAt == now
    ensures r.name == u.name.GetOr(a.name) && r.provider == u.provider.GetOr(a.provider)
    ensures r.accessKeyId == u.accessKeyId.GetOr(a.accessKeyId)
    ensures r.accessKeySecret == u.accessKeySecret.GetOr(a.accessKeySecret)
    ensures r.region == u.region.GetOr(a.region)
    ensures r.createdAt == u.createdAt.GetOr(a.createdAt)
    ensures r.enabled == u.enabled.GetOr(a.enabled)
    ensures u.enabled == Some(None) ==> r.enabled.None? && IsEnabled(r)
    ensures u == AccountPatch(None, None, None, None, None, None, None, None, None) ==> r == a.(id := id, updatedAt := now)
  {
    Account(id,
            u.name.GetOr(a.name),
            u.provider.GetOr(a.provider),
            u.accessKeyId.GetOr(a.accessKeyId),
            u.accessKeySecret.GetOr(a.accessKeySecret),
            u.region.GetOr(a.region),
            u.enabled.GetOr(a.enabled),
            u.createdAt.GetOr(a.createdAt),
            now)
  }

  /** The loaded-account fix-up: an account saved without `enabled` is enabled. */
  function WithEnabledDefault(a: Account): (r: Account)
    ensures r.enabled.Some? && (IsEnabled(r) <==> IsEnabled(a))
    ensures a.enabled.Some? ==> r == a
    ensures r.(enabled := a.enabled) == a
  {
    a.(enabled := Some(a.enabled.GetOr(true)))
  }

  /** The position of the first account with the id. */
  function IndexOfId(accounts: seq<Account>, id: string): Option<nat> {
    FindIndex(accounts, (a: Account) => a.id == id)
  }

  /** The accounts of one provider, in list order. */
  function Group(accounts: seq<Account>, p: CloudProvider): seq<Account> {
    Filter((a: Account) => a.provider == p, accounts)
  }

  class AccountStore {
    var accounts: seq<Account>
    var masterPassword: string
    var isLoading: bool

    /** Every account in the list has an explicit `enabled` flag. Loading and adding establish
        it; an update that passes `enabled: undefined` clears the flag of that account. */
    ghost predicate Valid()
      reads this
    {
      forall i :: 0 <= i < |accounts| ==> accounts[i].enabled.Some?
    }

    constructor ()
      ensures Valid()
      ensures accounts == [] && masterPassword == "" && !isLoading
    {
      accounts := [];
      masterPassword := "";
      isLoading := false;
    }

    /** `setMasterPassword`. */
    method SetMasterPassword(password: string)
      modifies this
      ensures masterPassword == password
      ensures accounts == old(accounts) && isLoading == old(isLoading)
    {
      masterPassword := password;
    }

    /** `addAccount(draft)`: appends exactly one account at the end, with a fresh id (in the
        source `generateId()`, here drawn by the caller). */
    method AddAccount(draft: AccountDraft, id: string, now: int) returns (acc: Account)
      modifies this
      ensures old(Valid()) ==> Valid()
      ensures acc == NewAccount(draft, id, now)
      ensures accounts == old(accounts) + [acc]
      ensures masterPassword == old(masterPassword) && isLoading == old(isLoading)
    {
      acc := NewAccount(draft, id, now);
      if Valid() {
        AppendValid(accounts, acc);
      }
      accounts := accounts + [acc];
    }

    /** `loadAccountList(password)`, with what storage returned as a parameter: on success the
        accounts with `enabled` filled in and the password remembered; on failure the error is
        passed on and nothing but `isLoading` changes. */
    method LoadAccountList(password: string, loaded: Result<seq<Account>, string>) returns (r: Outcome<string>)
      modifies this
      ensures loaded.Success? ==> Valid()
      ensures !isLoading
      ensures loaded.Failure? ==> r == Fail(loaded.error) && accounts == old(accounts) && masterPassword == old(masterPassword)
      ensures loaded.Success? ==> r == Pass && accounts == Map(WithEnabledDefault, loaded.value) && masterPassword == password
    {
      isLoading := true;
      if loaded.Failure? {
        r := Fail(loaded.error);
      } else {
        accounts := Map(WithEnabledDefault, loaded.value);
        masterPassword := password;
        r := Pass;
      }
      isLoading := false;
    }

    /** `updateAccount(id, updates)`: the first account with the id is replaced by the patched
        one, and no other changes; an unknown id is an error. */
    method UpdateAccount(id: string, updates: AccountPatch, now: int) returns (r: Result<Account, string>)
      modifies this
      ensures old(Valid()) && updates.enabled != Some(None) ==> Valid()
      ensures IndexOfId(old(accounts), id).Some? && updates.enabled == Some(None) ==> !Valid()
      ensures masterPassword == old(masterPassword) && isLoading == old(isLoading)
      ensures IndexOfId(old(accounts), id).None? ==> r == Failure(NotFound) && accounts == old(accounts)
      ensures IndexOfId(old(accounts), id).Some? ==>
        var i := IndexOfId(old(accounts), id).value;
        && accounts == old(accounts)[i := Patched(old(accounts)[i], updates, id, now)]
        && r == Success(accounts[i])
        && accounts[i].id == id
    {
      var index := IndexOfId(accounts, id);
      if index.None? {
        return Failure(NotFound);
      }
      var i := index.value;
      accounts := accounts[i := Patched(accounts[i], updates, id, now)];
      r := Success(accounts[i]);
    }

    /** `deleteAccount(id)`: the first account with the id is removed and no other; an unknown id
        is an error. */
    method DeleteAccount(id: string) returns (r: Outcome<string>)
      modifies this
      ensures old(Valid()) ==> Valid()
      ensures masterPassword == old(masterPassword) && isLoading == old(isLoading)
      ensures IndexOfId(old(accounts), id).None? ==> r == Fail(NotFound) && accounts == old(accounts)
      ensures IndexOfId(old(accounts), id).Some? ==>
        var i := IndexOfId(old(accounts), id).value;
        r == Pass && accounts == old(accounts)[..i] + old(accounts)[i + 1..] && |accounts| == |old(accounts)| - 1
    {
      var index := IndexOfId(accounts, id);
      if index.None? {
        return Fail(NotFound);
      }
      var i := index.value;
      accounts := accounts[..i] + accounts[i + 1..];
      r := Pass;
    }

    /** `getAccountById(id)`: the first account with the id, or none. */
    function GetAccountById(id: string): (r: Option<Account>)
      reads this
      ensures r.None? <==> forall j :: 0 <= j < |accounts| ==> accounts[j].id != id
      ensures r.Some? ==> exists i :: 0 <= i < |accounts| && accounts[i] == r.value
                                      && r.value.id == id && forall j :: 0 <= j < i ==> accounts[j].id != id
    {
      match IndexOfId(accounts, id)
      case None => None
      case Some(i) => Some(accounts[i])
    }

    /** `accountsByProvider`: the accounts grouped by provider. Each group holds exactly the
        accounts of its provider in list order, no group is empty, and every account's provider has
        a group, so every account lies in exactly one group. */
    method AccountsByProvider() returns (grouped: map<CloudProvider, seq<Account>>)
      ensures forall p :: p in grouped ==> grouped[p] == Group(accounts, p) && grouped[p] != []
      ensures forall i :: 0 <= i < |accounts| ==> accounts[i].provider in grouped
    {
      grouped := map[];
      var i := 0;
      while i < |accounts|
        invariant 0 <= i <= |accounts|
        invariant forall p :: p in grouped ==> grouped[p] == Group(accounts[..i], p) && grouped[p] != []
        invariant forall p :: p !in grouped ==> Group(accounts[..i], p) == []
        invariant forall j :: 0 <= j < i ==> accounts[j].provider in grouped
      {
        var a := accounts[i];
        assert accounts[..i + 1] == accounts[..i] + [a];
        forall p ensures Group(accounts[..i + 1], p) == Group(accounts[..i], p) + (if a.provider == p then [a] else []) {
          FilterAppend((b: Account) => b.provider == p, accounts[..i], a);
        }
        if a.provider !in grouped {
          grouped := grouped[a.provider := []];
        }
        grouped := grouped[a.provider := grouped[a.provider] + [a]];
        i := i + 1;
      }
      assert accounts[..i] == accounts;
    }

    /** `clearAccounts`: the list and the password are emptied. */
    method ClearAccounts()
      modifies this
      ensures Valid()
      ensures accounts == [] && masterPassword == "" && isLoading == old(isLoading)
    {
      accounts := [];
      masterPassword := "";
    }
  }

  lemma AppendValid(accounts: seq<Account>, a: Account)
    requires forall i :: 0 <= i < |accounts| ==> accounts[i].enabled.Some?
    requires a.enabled.Some?
    ensures forall i :: 0 <= i < |accounts + [a]| ==> (accounts + [a])[i].enabled.Some?
  {
  }

  /** Loading keeps every account the storage returned, in order and with all fields but
      `enabled`, and enables exactly the accounts that were not explicitly disabled. */
  lemma LoadedAccounts(loaded: seq<Account>, i: nat)
    requires i < |loaded|
    ensures Map(WithEnabledDefault, loaded)[i].(enabled := loaded[i].enabled) == loaded[i]
    ensures IsEnabled(Map(WithEnabledDefault, loaded)[i]) <==> loaded[i].enabled != Some(false)
  {
  }
}
