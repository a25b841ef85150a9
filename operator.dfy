/**
 * `handleActivity`: builds the Activity record for a Transfer, Sell or Buy,
 * keyed by the natural key `{contract}-{tx}-{tokenId}-{TYPE}`.
 */
module Operator {

  import opened Wrappers
  import opened Strings
  import opened Entities
  import opened Types

  /** The union `TransferData | BuyData | SellData` that `handleActivity` receives. */
  datatype EventData = OfTransfer(transfer: TransferData) | OfSell(sell: SellData) | OfBuy(buy: BuyData)

  /** The string value of each `ActivityType` member. */
  function TypeName(kind: ActivityType): (s: string)
    ensures |s| > 0 && NoDash(s)
  {
    match kind
    case MINT => "MINT"
    case TRANSFER => "TRANSFER"
    case LISTING => "LISTING"
    case SOLD => "SOLD"
  }

  function KindNamed(name: string): (r: Option<ActivityType>)
    ensures r.Some? ==> TypeName(r.value) == name
    ensures forall k :: name == TypeName(k) ==> r == Some(k)
  {
    if name == "MINT" then Some(MINT)
    else if name == "TRANSFER" then Some(TRANSFER)
    else if name == "LISTING" then Some(LISTING)
    else if name == "SOLD" then Some(SOLD)
    else None
  }

  /** The natural key of an activity. */
  function ActivityKey(contract: string, tx: string, tokenId: string, kind: ActivityType): string {
    contract + "-" + tx + "-" + tokenId + "-" + TypeName(kind)
  }

  /** The four parts a natural key is made of. */
  datatype KeyParts = KeyParts(contract: string, tx: string, tokenId: string, kind: ActivityType)

  /** Reads a natural key back into its parts, splitting at the first three dashes. */
  function ParseActivityKey(id: string): Option<KeyParts> {
    match SplitAtDash(id)
    case None => None
    case Some(p1) =>
      match SplitAtDash(p1.1)
      case None => None
      case Some(p2) =>
        match SplitAtDash(p2.1)
        case None => None
        case Some(p3) =>
          match KindNamed(p3.1)
          case None => None
          case Some(kind) => Some(KeyParts(p1.0, p2.0, p3.0, kind))
  }

  /**
   * When the address, the transaction hash and the token id hold no dash
   * (hex strings and decimal digits do not), the key reads back as exactly
   * the parts it was built from.
   */
  lemma {:induction false} ActivityKeyParses(contract: string, tx: string, tokenId: string, kind: ActivityType)
    requires NoDash(contract) && NoDash(tx) && NoDash(tokenId)
    ensures ParseActivityKey(ActivityKey(contract, tx, tokenId, kind)) == Some(KeyParts(contract, tx, tokenId, kind))
  {
    var name := TypeName(kind);
    var rest2 := tokenId + "-" + name;
    var rest1 := tx + "-" + rest2;
    assert ActivityKey(contract, tx, tokenId, kind) == contract + "-" + rest1;
    SplitJoin(contract, rest1);
    SplitJoin(tx, rest2);
    SplitJoin(tokenId, name);
  }

  /** On dash-free parts, two activities share a key only when all four parts agree. */
  lemma ActivityKeyInjective(a: KeyParts, b: KeyParts)
    requires NoDash(a.contract) && NoDash(a.tx) && NoDash(a.tokenId)
    requires NoDash(b.contract) && NoDash(b.tx) && NoDash(b.tokenId)
    ensures ActivityKey(a.contract, a.tx, a.tokenId, a.kind) == ActivityKey(b.contract, b.tx, b.tokenId, b.kind) <==> a == b
  {
    ActivityKeyParses(a.contract, a.tx, a.tokenId, a.kind);
    ActivityKeyParses(b.contract, b.tx, b.tokenId, b.kind);
  }

  /** The activity type `handleActivity` picks: by the shape of the data, not by its `type` argument. */
  function KindOf(data: EventData): ActivityType {
    match data
    case OfBuy(_) => SOLD
    case OfSell(_) => LISTING
    case OfTransfer(_) => MINT
  }

  /** The key parts of the activity built from `data`. */
  function PartsOf(data: EventData): KeyParts {
    match data
    case OfBuy(b) => KeyParts(b.nftContractAddress, b.transactionHash, Decimal(b.tokenId), SOLD)
    case OfSell(s) => KeyParts(s.nftContractAddress, s.transactionHash, Decimal(s.tokenId), LISTING)
    case OfTransfer(t) => KeyParts(t.contractAddress, t.transactionHash, Decimal(t.token), MINT)
  }

  /** `handleActivity(type, data, token, from, to)`. */
  function HandleActivity(kind: ActivityType, data: EventData, token: Option<string>, from: Option<string>, to: Option<string>): Activity
  {
    match data
    case OfBuy(b) =>
      var id := b.nftContractAddress + "-" + b.transactionHash + "-" + Decimal(b.tokenId) + "-" + TypeName(SOLD);
      Activity(id, SOLD, b.block, from, to, Some(b.price), b.timestamp, token, b.transactionHash)
    case OfSell(s) =>
      var id := s.nftContractAddress + "-" + s.transactionHash + "-" + Decimal(s.tokenId) + "-" + TypeName(LISTING);
      Activity(id, LISTING, s.block, from, None, Some(s.price), s.timestamp, token, s.transactionHash)
    case OfTransfer(t) =>
      var id := t.contractAddress + "-" + t.transactionHash + "-" + Decimal(t.token) + "-" + TypeName(MINT);
      Activity(id, MINT, t.block, from, to, None, t.timestamp, token, t.transactionHash)
  }

  /**
   * `handleActivity` builds a SOLD activity for a Buy, a LISTING activity
   * (no `to`) for a Sell and a MINT activity (no price) for a Transfer,
   * whatever its `type` argument says; its id is the natural key of the
   * event, whose last part is the type.
   */
  lemma HandleActivityFields(kind: ActivityType, data: EventData, token: Option<string>, from: Option<string>, to: Option<string>)
    ensures var a := HandleActivity(kind, data, token, from, to);
      && (a.kind == KindOf(data))
      && (var p := PartsOf(data); a.id == ActivityKey(p.contract, p.tx, p.tokenId, a.kind))
      && (|a.id| > |TypeName(a.kind)| && a.id[|a.id| - |TypeName(a.kind)|..] == TypeName(a.kind))
      && (a.token == token && a.from == from && a.transactionHash == PartsOf(data).tx)
      && (a.to == (if data.OfSell? then None else to))
      && (data.OfTransfer? <==> a.price.None?)
      && (data.OfSell? ==> a.price == Some(data.sell.price) && a.block == data.sell.block && a.timestamp == data.sell.timestamp)
      && (data.OfBuy? ==> a.price == Some(data.buy.price) && a.block == data.buy.block && a.timestamp == data.buy.timestamp)
      && (data.OfTransfer? ==> a.block == data.transfer.block && a.timestamp == data.transfer.timestamp)
  {
  }

  /**
   * The id of the activity built from an event reads back as the event's
   * contract, transaction, token id and type: equal ids mean the same
   * (contract, transaction, token, type), which is what makes the existence
   * check on the id a replay guard.
   */
  lemma ActivityIdIdentifiesEvent(kind: ActivityType, data: EventData, token: Option<string>, from: Option<string>, to: Option<string>)
    requires NoDash(PartsOf(data).contract) && NoDash(PartsOf(data).tx)
    ensures ParseActivityKey(HandleActivity(kind, data, token, from, to).id) == Some(PartsOf(data))
  {
    var p := PartsOf(data);
    DigitsHaveNoDash(p.tokenId);
    ActivityKeyParses(p.contract, p.tx, p.tokenId, p.kind);
  }
}
