/**
 * The persisted entities: Owner, Token, Contract, Transfer and Activity.
 * References between entities (a Token's owner, a Transfer's from/to/token,
 * an Activity's token) are kept as the referenced entity's id, which is what
 * the store persists for them.
 */
module Entities {

  import opened Wrappers

  /** An account, keyed by its address. */
  datatype Owner = Owner(id: string, balance: int)

  /**
   * A collection contract. `Blank` is what `new Contract(undefined)` builds
   * for an address the registry does not know: an entity with no field set.
   */
  datatype Contract =
    | Contract(id: string, name: string, symbol: string, totalSupply: nat, mintedTokens: seq<string>)
    | Blank

  /** An NFT, keyed by `{symbol}-{tokenId}`. */
  datatype Token = Token(
    id: string,
    tokenId: nat,
    owner: Option<string>,
    isListed: bool,
    uri: Option<string>,
    imageUri: Option<string>,
    contract: Option<Contract>)

  /** One Transfer log, keyed by the log's id. */
  datatype Transfer = Transfer(
    id: string,
    block: nat,
    timestamp: nat,
    transactionHash: string,
    from: string,
    to: string,
    token: string)

  datatype ActivityType = MINT | TRANSFER | LISTING | SOLD

  /** A history record, keyed by `{contract}-{tx}-{tokenId}-{TYPE}`. */
  datatype Activity = Activity(
    id: string,
    kind: ActivityType,
    block: nat,
    from: Option<string>,
    to: Option<string>,
    price: Option<nat>,
    timestamp: nat,
    token: Option<string>,
    transactionHash: string)
}
