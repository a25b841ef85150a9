/**
 * The contract registry (`contractMapping`), the lazily filled cache of
 * Contract entities (`getContractEntity`), and the bounded retry around the
 * `tokenURI` chain call (`retry`, `getTokenURI`).
 */
module Contracts {

  import opened Wrappers
  import opened Strings
  import opened Entities
  import opened EntityStore

  // Addresses of the seeded collections, lower-cased as the helper modules do.
  const AstarDegensAddress := "0xd59fc6bfd9732ab19b03664a45dc29b8421bda9a"
  const AstarCatsAddress := "0x8b5d62f396ca3c6cf19803234685e693733f9779"

  /**
   * `contractMapping`: exactly two collections, each keyed by its own
   * address, with an empty list of minted tokens.
   */
  function ContractMapping(): (m: map<string, Contract>)
    ensures m.Keys == {AstarDegensAddress, AstarCatsAddress}
    ensures forall a :: a in m ==> m[a].Contract? && m[a].id == a && m[a].mintedTokens == []
    ensures m[AstarDegensAddress].name == "AstarDegens" && m[AstarDegensAddress].symbol == "DEGEN"
    ensures m[AstarDegensAddress].totalSupply == 10000
    ensures m[AstarCatsAddress].name == "AstarCats" && m[AstarCatsAddress].symbol == "CAT"
    ensures m[AstarCatsAddress].totalSupply == 7777
  {
    map[
      AstarDegensAddress := Contract(AstarDegensAddress, "AstarDegens", "DEGEN", 10000, []),
      AstarCatsAddress := Contract(AstarCatsAddress, "AstarCats", "CAT", 7777, [])
    ]
  }

  /** `contractMapping.get(address)?.contractModel.symbol || ""`. */
  function Symbol(address: string): (s: string)
    ensures address in ContractMapping() ==> s == ContractMapping()[address].symbol
    ensures address !in ContractMapping() ==> s == ""
    ensures NoDash(s)
  {
    var m := ContractMapping();
    if address in m then m[address].symbol else ""
  }

  /** `createContractEntity`: the registry's model, or a blank entity for an unknown address. */
  function CreateContractEntity(address: string): (c: Contract)
    ensures address in ContractMapping() ==> c == ContractMapping()[address] && c.id == address
    ensures address !in ContractMapping() ==> c == Blank
  {
    var m := ContractMapping();
    if address in m then m[address] else Blank
  }

  /** What `getContractEntity` returns, and the cache and store it leaves behind. */
  datatype Lookup = Lookup(entity: Option<Contract>, cache: map<string, Contract>, store: StoreState)

  /**
   * `getContractEntity(store, address)`. The cache answers when it holds the
   * address. Otherwise the store is asked; only when the store does not have
   * the contract either is it created, inserted and cached. When the store
   * has it but the cache does not, the function returns `undefined` and the
   * cache stays unfilled.
   */
  function GetContractEntitySpec(cache: map<string, Contract>, store: StoreState, address: string): (r: Lookup)
    ensures address in cache ==> r == Lookup(Some(cache[address]), cache, store)
    ensures address !in cache && address in store.contracts ==> r == Lookup(None, cache, store)
    ensures address !in cache && address !in store.contracts ==>
      && r.entity == Some(CreateContractEntity(address))
      && r.cache == cache[address := CreateContractEntity(address)]
      && r.store == PutContract(store, address, CreateContractEntity(address))
    ensures r.entity.Some? <==> address in r.cache
    ensures r.entity.Some? ==> r.entity.value == r.cache[address]
    ensures cache.Keys <= r.cache.Keys && forall a :: a in cache ==> r.cache[a] == cache[a]
    ensures r.store.owners == store.owners && r.store.tokens == store.tokens
    ensures r.store.transfers == store.transfers && r.store.activities == store.activities
  {
    if address in cache then Lookup(Some(cache[address]), cache, store)
    else if address in store.contracts then Lookup(None, cache, store)
    else
      var entity := CreateContractEntity(address);
      Lookup(Some(entity), cache[address := entity], PutContract(store, address, entity))
  }

  /** A second lookup of an address the first lookup returned is answered by the cache alone. */
  lemma LookupTwiceHitsCache(cache: map<string, Contract>, store: StoreState, address: string)
    ensures var first := GetContractEntitySpec(cache, store, address);
      first.entity.Some? ==>
        GetContractEntitySpec(first.cache, first.store, address) == Lookup(first.entity, first.cache, first.store)
  {
  }

  /** The module-level `contractAddresstoModel` cache. */
  class ContractRegistry {
    var cache: map<string, Contract>

    constructor ()
      ensures cache == map[]
    {
      cache := map[];
    }

    method GetContractEntity(store: Store, address: string) returns (r: Option<Contract>)
      modifies this, store
      ensures Lookup(r, cache, store.View()) == GetContractEntitySpec(old(cache), old(store.View()), address)
    {
      if address !in cache {
        var stored := store.GetContract(address);
        if stored.None? {
          var entity := CreateContractEntity(address);
          store.InsertContract(address, entity);
          cache := cache[address := entity];
        }
      }
      r := if address in cache then Some(cache[address]) else None;
    }
  }

  /** `retry`'s default number of attempts. */
  const DefaultAttempts: nat := 3

  function RetryMessage(attempts: nat): string {
    "Error after " + Decimal(attempts) + " attempts"
  }

  /**
   * The outcome of `retry` from attempt `i` on: the first attempt that
   * succeeds, or the error once all `attempts` have failed.
   */
  function RetryFrom<T>(attempt: nat -> Option<T>, i: nat, attempts: nat): Result<T, string>
    decreases attempts - i
  {
    if i >= attempts then Err(RetryMessage(attempts))
    else if attempt(i).Some? then Ok(attempt(i).value)
    else RetryFrom(attempt, i + 1, attempts)
  }

  /**
   * From attempt `i` on, `retry` succeeds exactly when some remaining
   * attempt does, and then with the value of the first one that does; it
   * fails with the message naming the number of attempts.
   */
  lemma {:induction false} RetryFromOutcome<T>(attempt: nat -> Option<T>, i: nat, attempts: nat)
    ensures var r := RetryFrom(attempt, i, attempts);
      && (r.Ok? <==> exists k :: i <= k < attempts && attempt(k).Some?)
      && (r.Ok? ==> exists k :: i <= k < attempts && attempt(k) == Some(r.value) &&
                               (forall j :: i <= j < k ==> attempt(j).None?))
      && (r.Err? ==> r.error == RetryMessage(attempts))
    decreases attempts - i
  {
    if i < attempts && attempt(i).None? {
      RetryFromOutcome(attempt, i + 1, attempts);
    }
  }

  function RetrySpec<T>(attempt: nat -> Option<T>, attempts: nat): Result<T, string> {
    RetryFrom(attempt, 0, attempts)
  }

  /**
   * `retry(promiseFn, attempts)`: `attempt(i)` is the outcome of the i-th
   * call of `promiseFn`, `None` when it throws (or times out). `calls` counts
   * the calls made.
   */
  method Retry<T>(attempt: nat -> Option<T>, attempts: nat) returns (r: Result<T, string>, ghost calls: nat)
    ensures r == RetrySpec(attempt, attempts)
    ensures calls <= attempts
    ensures r.Ok? ==> 1 <= calls && attempt(calls - 1) == Some(r.value)
    ensures forall j :: 0 <= j < calls - 1 ==> attempt(j).None?
    ensures r.Err? ==> calls == attempts && forall j :: 0 <= j < attempts ==> attempt(j).None?
  {
    var i := 0;
    calls := 0;
    while i < attempts
      invariant i <= attempts && calls == i
      invariant forall j :: 0 <= j < i ==> attempt(j).None?
      invariant RetrySpec(attempt, attempts) == RetryFrom(attempt, i, attempts)
    {
      var outcome := attempt(i);
      calls := calls + 1;
      if outcome.Some? {
        r := Ok(outcome.value);
        return;
      }
      // the error is logged and the next attempt is made
      i := i + 1;
    }
    r := Err(RetryMessage(attempts));
  }

  /**
   * The attempts `getTokenURI` makes: `answer(i)` is the chain's reply to
   * the i-th `tokenURI` call (`None` on an error or a timeout). When the
   * registry has no ethers contract for `address`, the optional chain yields
   * `undefined` and every attempt fails.
   */
  function TokenUriAttempt(address: string, answer: nat -> Option<string>): nat -> Option<string> {
    (i: nat) => if address in ContractMapping() then answer(i) else None
  }

  function GetTokenURISpec(address: string, answer: nat -> Option<string>): Result<string, string> {
    RetrySpec(TokenUriAttempt(address, answer), DefaultAttempts)
  }

  /**
   * `getTokenURI` fails with "Error after 3 attempts" for an address the
   * registry lacks; otherwise it succeeds exactly when one of the three
   * answers is a uri, and then returns one of them.
   */
  lemma GetTokenURIOutcome(address: string, answer: nat -> Option<string>)
    ensures var r := GetTokenURISpec(address, answer);
      && (address !in ContractMapping() ==> r == Err(RetryMessage(DefaultAttempts)))
      && (r.Ok? ==> exists i :: 0 <= i < DefaultAttempts && answer(i) == Some(r.value))
      && (r.Ok? <==> address in ContractMapping() && exists i :: 0 <= i < DefaultAttempts && answer(i).Some?)
  {
    RetryFromOutcome(TokenUriAttempt(address, answer), 0, DefaultAttempts);
  }

  /** `getTokenURI(tokenId, address)`: `retry` around the (time-limited) `tokenURI` call. */
  method GetTokenURI(address: string, answer: nat -> Option<string>) returns (r: Result<string, string>)
    ensures r == GetTokenURISpec(address, answer)
  {
    ghost var calls;
    r, calls := Retry(TokenUriAttempt(address, answer), DefaultAttempts);
  }
}
