/**
 * The decoded event records the batch loop queues. Chain integers (token
 * ids, prices, timestamps) are natural numbers; where the source keeps the
 * decimal string of a token id, the model writes `Decimal(tokenId)`.
 */
module Types {

  import opened Wrappers

  datatype TransferData = TransferData(
    id: string,
    from: string,
    to: string,
    token: nat,
    timestamp: nat,
    block: nat,
    transactionHash: string,
    contractAddress: string)

  datatype SellData = SellData(
    id: string,
    from: string,
    tokenId: nat,
    price: nat,
    nftContractAddress: string,
    timestamp: nat,
    block: nat,
    transactionHash: string,
    contractAddress: string)

  datatype BuyData = BuyData(
    id: string,
    from: string,
    to: string,
    tokenId: nat,
    price: nat,
    buyTime: nat,
    nftContractAddress: string,
    timestamp: nat,
    block: nat,
    transactionHash: string,
    contractAddress: string)

  datatype TicketMintData = TicketMintData(id: string, to: string, startTokenID: nat, quantity: nat, value: nat)

  datatype DevTicketMintData = DevTicketMintData(id: string, startTokenID: nat, to: string, quantity: nat)

  /** The JSON a token URI serves; an absent field is `None`. */
  datatype TokenMetadata = TokenMetadata(image: Option<string>, image_alt: Option<string>)
}
