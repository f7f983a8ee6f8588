/** The find-or-create account registry of containers/oidc/support/account.js: accounts
    live in two process-wide maps, `store` (by account id) and `logins` (by login name),
    and a fresh account id comes from a UUID generator, here an argument. */
module Accounts {
  import opened Options

  /** A version-4 UUID in its 36-character textual form. */
  type Uuid = s: string | |s| == 36 witness "00000000-0000-4000-8000-000000000000"

  datatype Address = Address(country: string, formatted: string, locality: string,
                             postalCode: string, region: string, streetAddress: string)

  /** The claim set `claims` returns. Only `sub` depends on the account. */
  datatype ClaimSet = ClaimSet(
    sub: string,
    address: Address,
    birthdate: string,
    email: string,
    emailVerified: bool,
    familyName: string,
    gender: string,
    givenName: string,
    locale: string,
    middleName: string,
    name: string,
    nickname: string,
    phoneNumber: string,
    phoneNumberVerified: bool,
    picture: string,
    preferredUsername: string,
    profile: string,
    updatedAt: int,
    website: string,
    zoneinfo: string)

  /** Where the claims are to be put: the ID token or the userinfo response. */
  datatype ClaimsUse = IdToken | UserInfo

  class Account {
    const accountId: string

    /** `new Account(id)`: a truthy id is kept, any other gets a generated one. */
    constructor (id: Option<string>, generated: Uuid)
      ensures Truthy(id) ==> accountId == id.value
      ensures !Truthy(id) ==> accountId == generated
    {
      accountId := if Truthy(id) then id.value else generated;
    }

    /** The claims of this account for any use and scope; `sub` is always the account id. */
    function Claims(use: ClaimsUse, scope: string): (c: ClaimSet)
      ensures c.sub == accountId
    {
      ClaimSet(
        accountId,
        Address("000", "000", "000", "000", "000", "000"),
        "1987-10-16", "johndoe@example.com", false, "Doe", "male", "John", "en-US",
        "Middle", "John Doe", "Johnny", "+49 000 000000", false,
        "http://lorempixel.com/160/160/", "Jdawg", "https://john.example.com",
        1454704946, "http://example.com", "Europe/Berlin")
    }
  }

  /** Neither the use nor the scope changes the claims. */
  lemma ClaimsIgnoreUseAndScope(a: Account, u1: ClaimsUse, s1: string, u2: ClaimsUse, s2: string)
    ensures a.Claims(u1, s1) == a.Claims(u2, s2)
  {
  }

  /** Two accounts' claims differ in `sub` only. */
  lemma ClaimsDifferOnlyInSub(a: Account, b: Account, use: ClaimsUse, scope: string)
    ensures a.Claims(use, scope).(sub := b.accountId) == b.Claims(use, scope)
  {
  }

  /** `map.get(key)` of a JavaScript Map whose keys are all strings. */
  function Get(m: map<string, Account>, key: Option<string>): (r: Option<Account>)
    ensures r.Some? <==> key.Some? && key.value in m
    ensures r.Some? ==> r.value == m[key.value]
  {
    if key.Some? && key.value in m then Some(m[key.value]) else None
  }

  /** The two module-level maps. */
  class Registry {
    var store: map<string, Account>
    var logins: map<string, Account>

    /** Every account in `store` sits under its own id, and no id is empty. */
    ghost predicate Valid()
      reads this
    {
      forall k :: k in store ==> k != "" && store[k].accountId == k
    }

    constructor ()
      ensures Valid() && store == map[] && logins == map[]
    {
      store := map[];
      logins := map[];
    }

    /** `Account.findByLogin(login)`: the account already recorded for `login`, or a new one
        with a generated id, recorded first. `store` is not involved. */
    method FindByLogin(login: string, generated: Uuid) returns (a: Account)
      requires Valid()
      modifies this
      ensures Valid() && store == old(store)
      ensures login in old(logins) ==> a == old(logins)[login] && logins == old(logins)
      ensures login !in old(logins) ==>
        fresh(a) && a.accountId == generated && logins == old(logins)[login := a]
      ensures login in logins && logins[login] == a
    {
      if login !in logins {
        var acct := new Account(None, generated);
        logins := logins[login := acct];
      }
      a := logins[login];
    }

    /** `Account.findById(ctx, id, token)`: when `store` has no account under `id`, a new
        account is built from `id` and recorded under ITS OWN id; the result is then the
        lookup of `id` itself. For a falsy id the new account sits under its generated id
        and the result is absent. */
    method FindById(id: Option<string>, generated: Uuid) returns (a: Option<Account>)
      requires Valid()
      modifies this
      ensures Valid() && logins == old(logins)
      ensures Get(old(store), id).Some? ==> store == old(store) && a == Get(old(store), id)
      ensures Get(old(store), id).None? ==>
        var key := if Truthy(id) then id.value else generated;
        && key in store && fresh(store[key]) && store[key].accountId == key
        && store == old(store)[key := store[key]]
      ensures a == Get(store, id)
      ensures Truthy(id) ==> a.Some? && a.value.accountId == id.value
      ensures !Truthy(id) ==> a == None
    {
      if Get(store, id).None? {
        var acct := new Account(id, generated);
        store := store[acct.accountId := acct];
      }
      a := Get(store, id);
    }
  }

  /** Asking twice for the same login yields the same account and records nothing more. */
  method FindByLoginTwice(r: Registry, login: string, g1: Uuid, g2: Uuid) returns (a1: Account, a2: Account)
    requires r.Valid()
    modifies r
    ensures a1 == a2 && r.Valid()
    ensures r.logins.Keys == old(r.logins.Keys) + {login} && r.store == old(r.store)
  {
    a1 := r.FindByLogin(login, g1);
    a2 := r.FindByLogin(login, g2);
  }

  /** Asking twice for the same truthy id yields the same account, and the second call
      leaves `store` as the first left it. */
  method FindByIdTwice(r: Registry, id: string, g1: Uuid, g2: Uuid) returns (a1: Option<Account>, a2: Option<Account>)
    requires r.Valid() && id != ""
    modifies r
    ensures a1.Some? && a1 == a2 && a1.value.accountId == id
    ensures r.store.Keys == old(r.store.Keys) + {id} && r.logins == old(r.logins)
  {
    a1 := r.FindById(Some(id), g1);
    ghost var between := r.store;
    a2 := r.FindById(Some(id), g2);
    assert r.store == between;
  }

  /** Every call with a falsy id records one more account (under a new generated id) and
      still returns nothing. */
  method FindByFalsyId(r: Registry, id: Option<string>, generated: Uuid) returns (a: Option<Account>)
    requires r.Valid() && !Truthy(id) && generated !in r.store
    modifies r
    ensures a == None
    ensures r.store.Keys == old(r.store.Keys) + {generated} && |r.store| == |old(r.store)| + 1
  {
    a := r.FindById(id, generated);
  }
}
