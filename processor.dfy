/**
 * The batch handler of `processor.run`: every EVM log of the batch is
 * decoded into a record and queued by kind (transfers, sells, buys, ticket
 * mints, dev mints); marketplace and ticket events drain some queues early,
 * and the end of the batch drains all five. Each drain is a call of one of
 * the `saveX` materialisers, so the handler is a state machine over the
 * batch's events whose output is the trace of those calls.
 */
module Processor {

  import opened Wrappers
  import opened Strings
  import opened Entities
  import opened Types
  import opened EntityStore
  import opened Contracts
  import opened Materializer

  // The two contract addresses the handler compares logs against, lower-cased as the helper modules do.
  const MarketplaceAddress := "0x5361ea4ac16458d83579e197de1649e31f8529ed"
  const TicketPassAddress := "0x4d5eaaee9bd97d93d18c393a18c1ce26e52391ff"

  /** The block header fields the records copy. */
  datatype Header = Header(height: nat, timestamp: nat)

  /** An EVM log's first topic together with the arguments decoded under it. */
  datatype Decoded =
    | SellEvent(seller: string, tokenId: nat, price: nat, nftAddress: string)
    | BuyEvent(nftAddress: string, buyer: string, tokenId: nat, seller: string, buyTime: nat, price: nat)
    | TransferEvent(from: string, to: string, tokenId: nat)
    | MintEvent(startTokenID: nat, quantity: nat, to: string, value: nat)
    | DevMintEvent(startTokenID: nat, to: string, quantity: nat)
    | OtherTopic

  /** A batch item: an `EVM.Log` event, or an item of any other name. */
  datatype Item = EvmLog(id: string, address: string, txHash: string, event: Decoded) | OtherItem

  datatype Block = Block(header: Header, items: seq<Item>)

  /** One item of the batch with the header of its block. */
  datatype Event = Event(header: Header, item: Item)

  /** `handleTransfer`: the log of a ticket-pass Transfer as a TransferData record. */
  function HandleTransfer(h: Header, log: Item): (t: TransferData)
    requires log.EvmLog? && log.event.TransferEvent?
  {
    TransferData(log.id, log.event.from, log.event.to, log.event.tokenId, h.timestamp, h.height, log.txHash, log.address)
  }

  /** `handleSell`: the NFT address is lower-cased, the seller becomes `from`. */
  function HandleSell(h: Header, log: Item): (s: SellData)
    requires log.EvmLog? && log.event.SellEvent?
  {
    var e := log.event;
    SellData(log.id, e.seller, e.tokenId, e.price, ToLower(e.nftAddress), h.timestamp, h.height, log.txHash, log.address)
  }

  /** `handleBuy`: the NFT address is lower-cased, the seller becomes `from` and the buyer `to`. */
  function HandleBuy(h: Header, log: Item): (b: BuyData)
    requires log.EvmLog? && log.event.BuyEvent?
  {
    var e := log.event;
    BuyData(log.id, e.seller, e.buyer, e.tokenId, e.price, e.buyTime, ToLower(e.nftAddress), h.timestamp, h.height, log.txHash, log.address)
  }

  function HandleTicketPassMint(log: Item): (m: TicketMintData)
    requires log.EvmLog? && log.event.MintEvent?
  {
    TicketMintData(log.id, log.event.to, log.event.startTokenID, log.event.quantity, log.event.value)
  }

  function HandleTicketPassDevMint(log: Item): (m: DevTicketMintData)
    requires log.EvmLog? && log.event.DevMintEvent?
  {
    DevTicketMintData(log.id, log.event.startTokenID, log.event.to, log.event.quantity)
  }

  /** The five pending arrays. */
  datatype Queues = Queues(
    transfers: seq<TransferData>,
    sells: seq<SellData>,
    buys: seq<BuyData>,
    mints: seq<TicketMintData>,
    devMints: seq<DevTicketMintData>)

  const NoQueues := Queues([], [], [], [], [])

  /** The queues of `a` followed, kind by kind, by those of `b`. */
  function Plus(a: Queues, b: Queues): Queues {
    Queues(a.transfers + b.transfers, a.sells + b.sells, a.buys + b.buys, a.mints + b.mints, a.devMints + b.devMints)
  }

  /** One call of a materialiser, with the array it is handed. */
  datatype Call =
    | SaveTransfersCall(transfers: seq<TransferData>)
    | SaveSellCall(sells: seq<SellData>)
    | SaveBuyCall(buys: seq<BuyData>)
    | SaveTicketPassCall(mints: seq<TicketMintData>)
    | SaveDevTicketPassCall(devMints: seq<DevTicketMintData>)

  /** The handler's state between items: what is pending and the calls made so far. */
  datatype Intake = Intake(pending: Queues, trace: seq<Call>)

  const Start := Intake(NoQueues, [])

  /** `if (transfersData.length !== 0) { saveTransfers(...); pop all }`. */
  function FlushTransfers(s: Intake): Intake {
    if |s.pending.transfers| != 0 then Intake(s.pending.(transfers := []), s.trace + [SaveTransfersCall(s.pending.transfers)])
    else s
  }

  function FlushSells(s: Intake): Intake {
    if |s.pending.sells| != 0 then Intake(s.pending.(sells := []), s.trace + [SaveSellCall(s.pending.sells)])
    else s
  }

  function FlushBuys(s: Intake): Intake {
    if |s.pending.buys| != 0 then Intake(s.pending.(buys := []), s.trace + [SaveBuyCall(s.pending.buys)])
    else s
  }

  /** What a marketplace log pushes: a Sell onto the sells, a Buy onto the buys. */
  function MarketQueued(q: Queues, h: Header, log: Item): Queues
    requires log.EvmLog?
  {
    match log.event
    case SellEvent(_, _, _, _) => q.(sells := q.sells + [HandleSell(h, log)])
    case BuyEvent(_, _, _, _, _, _) => q.(buys := q.buys + [HandleBuy(h, log)])
    case _ => q
  }

  /** A marketplace log: a Sell or a Buy is queued, then pending transfers are saved. */
  function MarketLog(s: Intake, h: Header, log: Item): Intake
    requires log.EvmLog?
  {
    FlushTransfers(Intake(MarketQueued(s.pending, h, log), s.trace))
  }

  /** What a ticket-pass log pushes: a Transfer, a Mint or a DevMint onto its array. */
  function TicketQueued(q: Queues, h: Header, log: Item): Queues
    requires log.EvmLog?
  {
    match log.event
    case TransferEvent(_, _, _) => q.(transfers := q.transfers + [HandleTransfer(h, log)])
    case MintEvent(_, _, _, _) => q.(mints := q.mints + [HandleTicketPassMint(log)])
    case DevMintEvent(_, _, _) => q.(devMints := q.devMints + [HandleTicketPassDevMint(log)])
    case _ => q
  }

  /** A ticket-pass log is queued; after a Mint or a DevMint pending transfers are saved. */
  function TicketFirst(s: Intake, h: Header, log: Item): Intake
    requires log.EvmLog?
  {
    var s0 := Intake(TicketQueued(s.pending, h, log), s.trace);
    if log.event.MintEvent? || log.event.DevMintEvent? then FlushTransfers(s0) else s0
  }

  /** A ticket-pass log: queued as above, then, whatever the topic, pending sells and then pending buys are saved. */
  function TicketLog(s: Intake, h: Header, log: Item): Intake
    requires log.EvmLog?
  {
    FlushBuys(FlushSells(TicketFirst(s, h, log)))
  }

  /** The body of the inner loop of `processor.run` for one item. */
  function Dispatch(s: Intake, e: Event): Intake {
    match e.item
    case OtherItem => s
    case EvmLog(_, address, _, _) =>
      var s1 := if address == MarketplaceAddress then MarketLog(s, e.header, e.item) else s;
      if address == TicketPassAddress then TicketLog(s1, e.header, e.item) else s1
  }

  /** The handler's state after the events `es`. */
  function Drive(s: Intake, es: seq<Event>): Intake {
    if es == [] then s else Dispatch(Drive(s, es[..|es| - 1]), es[|es| - 1])
  }

  /** The last round: every materialiser is called once, in a fixed order, with whatever is pending. */
  function FinalFlush(s: Intake): seq<Call> {
    var q := s.pending;
    s.trace + [SaveTransfersCall(q.transfers), SaveSellCall(q.sells), SaveBuyCall(q.buys),
               SaveTicketPassCall(q.mints), SaveDevTicketPassCall(q.devMints)]
  }

  /** The items of one block, in order, with the block's header. */
  function Locate(b: Block): (es: seq<Event>)
    ensures |es| == |b.items|
    ensures forall i :: 0 <= i < |es| ==> es[i] == Event(b.header, b.items[i])
  {
    seq(|b.items|, i requires 0 <= i < |b.items| => Event(b.header, b.items[i]))
  }

  /** The items of a batch, block by block. */
  function Events(blocks: seq<Block>): seq<Event> {
    if blocks == [] then [] else Events(blocks[..|blocks| - 1]) + Locate(blocks[|blocks| - 1])
  }

  /** The calls one batch handler makes. */
  function BatchTrace(blocks: seq<Block>): seq<Call> {
    FinalFlush(Drive(Start, Events(blocks)))
  }

  // ----- What arrives and what is handed on -----

  /** What one event adds to the queues: a reference definition independent of the dispatch rules. */
  function Queued(e: Event): Queues {
    match e.item
    case OtherItem => NoQueues
    case EvmLog(_, address, _, ev) =>
      if address == MarketplaceAddress && ev.SellEvent? then NoQueues.(sells := [HandleSell(e.header, e.item)])
      else if address == MarketplaceAddress && ev.BuyEvent? then NoQueues.(buys := [HandleBuy(e.header, e.item)])
      else if address == TicketPassAddress && ev.TransferEvent? then NoQueues.(transfers := [HandleTransfer(e.header, e.item)])
      else if address == TicketPassAddress && ev.MintEvent? then NoQueues.(mints := [HandleTicketPassMint(e.item)])
      else if address == TicketPassAddress && ev.DevMintEvent? then NoQueues.(devMints := [HandleTicketPassDevMint(e.item)])
      else NoQueues
  }

  /** Everything the events `es` queue, in arrival order. */
  function Arrived(es: seq<Event>): Queues {
    if es == [] then NoQueues else Plus(Arrived(es[..|es| - 1]), Queued(es[|es| - 1]))
  }

  function Handed(c: Call): Queues {
    match c
    case SaveTransfersCall(ts) => NoQueues.(transfers := ts)
    case SaveSellCall(ss) => NoQueues.(sells := ss)
    case SaveBuyCall(bs) => NoQueues.(buys := bs)
    case SaveTicketPassCall(ms) => NoQueues.(mints := ms)
    case SaveDevTicketPassCall(ds) => NoQueues.(devMints := ds)
  }

  /** Everything the calls `trace` hand to the materialisers, in call order. */
  function Flushed(trace: seq<Call>): Queues {
    if trace == [] then NoQueues else Plus(Flushed(trace[..|trace| - 1]), Handed(trace[|trace| - 1]))
  }

  /** A call made before the last round: a save of a non-empty array of transfers, sells or buys. */
  predicate Drained(c: Call) {
    || (c.SaveTransfersCall? && c.transfers != [])
    || (c.SaveSellCall? && c.sells != [])
    || (c.SaveBuyCall? && c.buys != [])
  }

  lemma PlusAssociates(x: Queues, y: Queues, z: Queues)
    ensures Plus(Plus(x, y), z) == Plus(x, Plus(y, z))
  {
    assert (x.transfers + y.transfers) + z.transfers == x.transfers + (y.transfers + z.transfers);
    assert (x.sells + y.sells) + z.sells == x.sells + (y.sells + z.sells);
    assert (x.buys + y.buys) + z.buys == x.buys + (y.buys + z.buys);
    assert (x.mints + y.mints) + z.mints == x.mints + (y.mints + z.mints);
    assert (x.devMints + y.devMints) + z.devMints == x.devMints + (y.devMints + z.devMints);
  }

  lemma PlusNone(x: Queues)
    ensures Plus(x, NoQueues) == x && Plus(NoQueues, x) == x
  {
    assert x.transfers + [] == x.transfers && x.sells + [] == x.sells && x.buys + [] == x.buys;
    assert x.mints + [] == x.mints && x.devMints + [] == x.devMints;
  }

  lemma FlushedSnoc(t: seq<Call>, c: Call)
    ensures Flushed(t + [c]) == Plus(Flushed(t), Handed(c))
  {
    assert (t + [c])[..|t|] == t;
  }

  lemma {:induction false} FlushedAppend(a: seq<Call>, b: seq<Call>)
    ensures Flushed(a + b) == Plus(Flushed(a), Flushed(b))
    decreases |b|
  {
    if b == [] {
      assert a + b == a;
      PlusNone(Flushed(a));
    } else {
      var b' := b[..|b| - 1];
      var last := b[|b| - 1];
      assert a + b == (a + b') + [last];
      assert b == b' + [last];
      FlushedAppend(a, b');
      calc {
        Flushed(a + b);
        { FlushedSnoc(a + b', last); }
        Plus(Flushed(a + b'), Handed(last));
        Plus(Plus(Flushed(a), Flushed(b')), Handed(last));
        { PlusAssociates(Flushed(a), Flushed(b'), Handed(last)); }
        Plus(Flushed(a), Plus(Flushed(b'), Handed(last)));
        { FlushedSnoc(b', last); }
        Plus(Flushed(a), Flushed(b));
      }
    }
  }

  /** Saving a pending array moves it, unchanged, from the queues to the end of the trace. */
  lemma FlushMoves(s: Intake, r: Intake)
    requires r == FlushTransfers(s) || r == FlushSells(s) || r == FlushBuys(s)
    ensures s.trace <= r.trace
    ensures Plus(Flushed(r.trace), r.pending) == Plus(Flushed(s.trace), s.pending)
    ensures forall i :: |s.trace| <= i < |r.trace| ==> Drained(r.trace[i])
  {
    if r.trace != s.trace {
      var c := r.trace[|r.trace| - 1];
      assert r.trace == s.trace + [c];
      FlushedSnoc(s.trace, c);
      PlusAssociates(Flushed(s.trace), Handed(c), r.pending);
      assert Plus(Handed(c), r.pending) == s.pending;
    }
  }

  lemma AddressesDiffer()
    ensures MarketplaceAddress != TicketPassAddress
  {
    assert MarketplaceAddress[2] != TicketPassAddress[2];
  }

  /** The per-kind pushes of the two address branches add exactly what `Queued` says. */
  lemma PushesQueue(q: Queues, e: Event)
    requires e.item.EvmLog?
    ensures e.item.address == MarketplaceAddress ==> MarketQueued(q, e.header, e.item) == Plus(q, Queued(e))
    ensures e.item.address == TicketPassAddress ==> TicketQueued(q, e.header, e.item) == Plus(q, Queued(e))
  {
    AddressesDiffer();
    PlusNone(q);
  }

  /** The first part of a ticket-pass log accounts for what it queues. */
  lemma TicketFirstConserves(s: Intake, e: Event)
    requires e.item.EvmLog? && e.item.address == TicketPassAddress
    ensures var f := TicketFirst(s, e.header, e.item);
      && s.trace <= f.trace
      && Plus(Flushed(f.trace), f.pending) == Plus(Flushed(s.trace), Plus(s.pending, Queued(e)))
      && forall i :: |s.trace| <= i < |f.trace| ==> Drained(f.trace[i])
  {
    var s0 := Intake(TicketQueued(s.pending, e.header, e.item), s.trace);
    PushesQueue(s.pending, e);
    if TicketFirst(s, e.header, e.item) != s0 {
      FlushMoves(s0, TicketFirst(s, e.header, e.item));
    }
  }

  /** The calls a ticket-pass log adds, and what it leaves pending, account for all it queues. */
  lemma TicketConserves(s: Intake, e: Event)
    requires e.item.EvmLog? && e.item.address == TicketPassAddress
    ensures var r := TicketLog(s, e.header, e.item);
      && s.trace <= r.trace
      && Plus(Flushed(r.trace), r.pending) == Plus(Flushed(s.trace), Plus(s.pending, Queued(e)))
      && forall i :: |s.trace| <= i < |r.trace| ==> Drained(r.trace[i])
  {
    var s1 := TicketFirst(s, e.header, e.item);
    var s2 := FlushSells(s1);
    TicketFirstConserves(s, e);
    FlushMoves(s1, s2);
    FlushMoves(s2, FlushBuys(s2));
  }

  /** One item only extends the trace; what it hands on and leaves pending is what was pending plus what it queues. */
  lemma DispatchConserves(s: Intake, e: Event)
    ensures var r := Dispatch(s, e);
      && s.trace <= r.trace
      && Plus(Flushed(r.trace), r.pending) == Plus(Plus(Flushed(s.trace), s.pending), Queued(e))
      && forall i :: |s.trace| <= i < |r.trace| ==> Drained(r.trace[i])
  {
    var r := Dispatch(s, e);
    PlusAssociates(Flushed(s.trace), s.pending, Queued(e));
    if e.item.OtherItem? {
      PlusNone(s.pending);
    } else if e.item.address == MarketplaceAddress {
      AddressesDiffer();
      PushesQueue(s.pending, e);
      FlushMoves(Intake(MarketQueued(s.pending, e.header, e.item), s.trace), r);
    } else if e.item.address == TicketPassAddress {
      TicketConserves(s, e);
    } else {
      PlusNone(s.pending);
    }
  }

  /** No event is dropped or duplicated: what was handed on, followed by what is pending, is what arrived. */
  lemma {:induction false} DriveConserves(s: Intake, es: seq<Event>)
    ensures var r := Drive(s, es);
      && s.trace <= r.trace
      && Plus(Flushed(r.trace), r.pending) == Plus(Plus(Flushed(s.trace), s.pending), Arrived(es))
      && forall i :: |s.trace| <= i < |r.trace| ==> Drained(r.trace[i])
    decreases |es|
  {
    if es == [] {
      PlusNone(Plus(Flushed(s.trace), s.pending));
    } else {
      var prefix := es[..|es| - 1];
      var e := es[|es| - 1];
      var m := Drive(s, prefix);
      DriveConserves(s, prefix);
      DispatchConserves(m, e);
      PlusAssociates(Plus(Flushed(s.trace), s.pending), Arrived(prefix), Queued(e));
    }
  }

  /** Handing on the five arrays of `q` one after the other hands on `q`. */
  lemma HandedInTurn(x: Queues, q: Queues)
    ensures Plus(Plus(Plus(Plus(Plus(x, Handed(SaveTransfersCall(q.transfers))), Handed(SaveSellCall(q.sells))),
                               Handed(SaveBuyCall(q.buys))), Handed(SaveTicketPassCall(q.mints))),
                 Handed(SaveDevTicketPassCall(q.devMints)))
            == Plus(x, q)
  {
    assert x.transfers + q.transfers + [] + [] + [] + [] == x.transfers + q.transfers;
    assert x.sells + [] + q.sells + [] + [] + [] == x.sells + q.sells;
    assert x.buys + [] + [] + q.buys + [] + [] == x.buys + q.buys;
    assert x.mints + [] + [] + [] + q.mints + [] == x.mints + q.mints;
    assert x.devMints + [] + [] + [] + [] + q.devMints == x.devMints + q.devMints;
  }

  /** The last round hands on everything still pending. */
  lemma LastRoundHandsOn(s: Intake)
    ensures Flushed(FinalFlush(s)) == Plus(Flushed(s.trace), s.pending)
  {
    var q := s.pending;
    var t1 := s.trace + [SaveTransfersCall(q.transfers)];
    var t2 := t1 + [SaveSellCall(q.sells)];
    var t3 := t2 + [SaveBuyCall(q.buys)];
    var t4 := t3 + [SaveTicketPassCall(q.mints)];
    var t5 := t4 + [SaveDevTicketPassCall(q.devMints)];
    assert FinalFlush(s) == t5;
    FlushedSnoc(s.trace, SaveTransfersCall(q.transfers));
    FlushedSnoc(t1, SaveSellCall(q.sells));
    FlushedSnoc(t2, SaveBuyCall(q.buys));
    FlushedSnoc(t3, SaveTicketPassCall(q.mints));
    FlushedSnoc(t4, SaveDevTicketPassCall(q.devMints));
    HandedInTurn(Flushed(s.trace), q);
  }

  /**
   * The batch hands every queued record to its materialiser exactly once,
   * each kind in arrival order.
   */
  lemma BatchConserves(blocks: seq<Block>)
    ensures Flushed(BatchTrace(blocks)) == Arrived(Events(blocks))
  {
    var r := Drive(Start, Events(blocks));
    DriveConserves(Start, Events(blocks));
    LastRoundHandsOn(r);
    PlusNone(NoQueues);
    PlusNone(Arrived(Events(blocks)));
  }

  // ----- The drain rules, one event at a time -----

  lemma DispatchMarket(s: Intake, e: Event)
    requires e.item.EvmLog? && e.item.address == MarketplaceAddress
    ensures Dispatch(s, e) == MarketLog(s, e.header, e.item)
  {
    AddressesDiffer();
  }

  lemma DispatchTicket(s: Intake, e: Event)
    requires e.item.EvmLog? && e.item.address == TicketPassAddress
    ensures Dispatch(s, e) == TicketLog(s, e.header, e.item)
  {
    AddressesDiffer();
  }

  /** An event from the marketplace saves every pending transfer with its one call and leaves none pending. */
  lemma MarketEventFlushesTransfers(s: Intake, h: Header, log: Item)
    requires log.EvmLog?
    ensures var r := MarketLog(s, h, log);
      && r.pending.transfers == []
      && (s.pending.transfers != [] ==> r.trace == s.trace + [SaveTransfersCall(s.pending.transfers)])
      && (s.pending.transfers == [] ==> r.trace == s.trace)
      && r.pending.sells == s.pending.sells + (if log.event.SellEvent? then [HandleSell(h, log)] else [])
      && r.pending.buys == s.pending.buys + (if log.event.BuyEvent? then [HandleBuy(h, log)] else [])
  {
  }

  /** What the first part of a ticket-pass log does: it never touches sells or buys, and saves transfers only after a Mint or DevMint. */
  lemma TicketFirstShape(s: Intake, h: Header, log: Item)
    requires log.EvmLog?
    ensures var f := TicketFirst(s, h, log);
      && f.pending.sells == s.pending.sells && f.pending.buys == s.pending.buys
      && (f.trace == s.trace || (f.trace == s.trace + [SaveTransfersCall(s.pending.transfers)] && s.pending.transfers != []))
      && (log.event.MintEvent? || log.event.DevMintEvent? ==>
            && f.pending.transfers == []
            && (s.pending.transfers != [] <==> f.trace == s.trace + [SaveTransfersCall(s.pending.transfers)]))
      && (!log.event.MintEvent? && !log.event.DevMintEvent? ==> f.trace == s.trace)
      && (log.event.TransferEvent? ==> f.pending.transfers == s.pending.transfers + [HandleTransfer(h, log)])
  {
  }

  /** The sells save, when sells are pending, then the buys save, when buys are pending. */
  lemma MarketFlushShape(f: Intake)
    ensures var r := FlushBuys(FlushSells(f));
      && r.trace == f.trace + (if f.pending.sells != [] then [SaveSellCall(f.pending.sells)] else [])
                            + (if f.pending.buys != [] then [SaveBuyCall(f.pending.buys)] else [])
      && r.pending == f.pending.(sells := [], buys := [])
  {
  }

  /**
   * A ticket-pass Mint or DevMint saves every pending transfer with its
   * first call and leaves none pending; a ticket-pass Transfer is queued
   * and saves none.
   */
  lemma TicketMintFlushesTransfers(s: Intake, h: Header, log: Item)
    requires log.EvmLog?
    ensures var r := TicketLog(s, h, log);
      && (log.event.MintEvent? || log.event.DevMintEvent? ==>
            && r.pending.transfers == []
            && (s.pending.transfers != [] <==> |r.trace| > |s.trace| && r.trace[|s.trace|] == SaveTransfersCall(s.pending.transfers)))
      && (log.event.TransferEvent? ==>
            r.pending.transfers == s.pending.transfers + [HandleTransfer(h, log)]
            && forall i :: |s.trace| <= i < |r.trace| ==> !r.trace[i].SaveTransfersCall?)
  {
    var f := TicketFirst(s, h, log);
    TicketFirstShape(s, h, log);
    MarketFlushShape(f);
  }

  /**
   * Any ticket-pass event saves every pending sell and then every pending
   * buy, and leaves neither pending: the sells call, when there is one,
   * comes before the buys call, and a transfers call only before both.
   */
  lemma TicketEventFlushesMarket(s: Intake, h: Header, log: Item)
    requires log.EvmLog?
    ensures var r := TicketLog(s, h, log);
      var calls := r.trace[|s.trace|..];
      && s.trace <= r.trace
      && r.pending.sells == [] && r.pending.buys == []
      && (SaveSellCall(s.pending.sells) in calls <==> s.pending.sells != [])
      && (SaveBuyCall(s.pending.buys) in calls <==> s.pending.buys != [])
      && (forall i, j :: 0 <= i < j < |calls| && calls[i].SaveBuyCall? ==> !calls[j].SaveSellCall?)
      && (forall i, j :: 0 <= i < j < |calls| && calls[j].SaveTransfersCall? ==> !calls[i].SaveSellCall? && !calls[i].SaveBuyCall?)
  {
    var f := TicketFirst(s, h, log);
    TicketFirstShape(s, h, log);
    MarketFlushShape(f);
    var c1 := f.trace[|s.trace|..];
    assert f.trace == s.trace + c1;
    assert |c1| <= 1 && forall i :: 0 <= i < |c1| ==> c1[i].SaveTransfersCall?;
    AddedCallsOrder(s.trace, c1, s.pending.sells, s.pending.buys, TicketLog(s, h, log).trace);
  }

  /** The order facts of three groups of calls: transfers saves, then the sells save when sells are given, then the buys save when buys are. */
  lemma AddedCallsOrder(t: seq<Call>, c1: seq<Call>, sells: seq<SellData>, buys: seq<BuyData>, r: seq<Call>)
    requires forall i :: 0 <= i < |c1| ==> c1[i].SaveTransfersCall?
    requires r == t + c1 + (if sells != [] then [SaveSellCall(sells)] else []) + (if buys != [] then [SaveBuyCall(buys)] else [])
    ensures var calls := r[|t|..];
      && t <= r
      && (SaveSellCall(sells) in calls <==> sells != [])
      && (SaveBuyCall(buys) in calls <==> buys != [])
      && (forall i, j :: 0 <= i < j < |calls| && calls[i].SaveBuyCall? ==> !calls[j].SaveSellCall?)
      && (forall i, j :: 0 <= i < j < |calls| && calls[j].SaveTransfersCall? ==> !calls[i].SaveSellCall? && !calls[i].SaveBuyCall?)
  {
    var c2 := if sells != [] then [SaveSellCall(sells)] else [];
    var c3 := if buys != [] then [SaveBuyCall(buys)] else [];
    var calls := r[|t|..];
    assert calls == c1 + c2 + c3;
    assert forall k :: 0 <= k < |calls| && calls[k].SaveSellCall? ==> k == |c1| && c2 != [];
    assert forall k :: 0 <= k < |calls| && calls[k].SaveBuyCall? ==> k == |c1| + |c2| && c3 != [];
    if sells != [] {
      assert calls[|c1|] == SaveSellCall(sells);
    }
    if buys != [] {
      assert calls[|c1| + |c2|] == SaveBuyCall(buys);
    }
  }

  /** Before the last round only transfers, sells and buys are saved, and never an empty array. */
  lemma DriveCallsDrained(es: seq<Event>)
    ensures forall c :: c in Drive(Start, es).trace ==> Drained(c)
  {
    DriveConserves(Start, es);
  }

  /**
   * The batch ends with one call of each materialiser, in the order
   * transfers, sells, buys, ticket mints, dev mints, and the ticket
   * materialisers are called nowhere else.
   */
  lemma LastRound(blocks: seq<Block>)
    ensures var t := BatchTrace(blocks);
      var q := Drive(Start, Events(blocks)).pending;
      && |t| >= 5
      && t[|t| - 5..] == [SaveTransfersCall(q.transfers), SaveSellCall(q.sells), SaveBuyCall(q.buys),
                          SaveTicketPassCall(q.mints), SaveDevTicketPassCall(q.devMints)]
      && (forall i :: 0 <= i < |t| - 5 ==> !t[i].SaveTicketPassCall? && !t[i].SaveDevTicketPassCall?)
  {
    var r := Drive(Start, Events(blocks));
    DriveCallsDrained(Events(blocks));
    var t := BatchTrace(blocks);
    assert t[..|t| - 5] == r.trace;
    forall i | 0 <= i < |t| - 5
      ensures !t[i].SaveTicketPassCall? && !t[i].SaveDevTicketPassCall?
    {
      assert t[i] == r.trace[i];
      assert t[i] in r.trace;
    }
  }

  // ----- Sells before buys -----

  /** A marketplace Sell or Buy, in the order the batch delivers them. */
  datatype Trade = Listed(sell: SellData) | Bought(buy: BuyData)

  function TradeOf(e: Event): seq<Trade> {
    var q := Queued(e);
    if q.sells != [] then [Listed(q.sells[0])]
    else if q.buys != [] then [Bought(q.buys[0])]
    else []
  }

  function Trades(es: seq<Event>): seq<Trade> {
    if es == [] then [] else Trades(es[..|es| - 1]) + TradeOf(es[|es| - 1])
  }

  function SellsIn(ts: seq<Trade>): seq<SellData> {
    if ts == [] then []
    else SellsIn(ts[..|ts| - 1]) + (if ts[|ts| - 1].Listed? then [ts[|ts| - 1].sell] else [])
  }

  function BuysIn(ts: seq<Trade>): seq<BuyData> {
    if ts == [] then []
    else BuysIn(ts[..|ts| - 1]) + (if ts[|ts| - 1].Bought? then [ts[|ts| - 1].buy] else [])
  }

  lemma {:induction false} TradesAppend(a: seq<Trade>, b: seq<Trade>)
    ensures SellsIn(a + b) == SellsIn(a) + SellsIn(b)
    ensures BuysIn(a + b) == BuysIn(a) + BuysIn(b)
    decreases |b|
  {
    if b == [] {
      assert a + b == a;
    } else {
      var b' := b[..|b| - 1];
      assert (a + b)[..|a + b| - 1] == a + b';
      assert (a + b)[|a + b| - 1] == b[|b| - 1];
      TradesAppend(a, b');
    }
  }

  /** The sells and buys one event queues are those of its trade. */
  lemma TradeOfQueued(e: Event)
    ensures SellsIn(TradeOf(e)) == Queued(e).sells && BuysIn(TradeOf(e)) == Queued(e).buys
  {
    var t := TradeOf(e);
    if t != [] {
      assert t[..0] == [];
    }
  }

  /** The sells and buys that arrive are those of the trades, in the same order. */
  lemma {:induction false} TradesArrived(es: seq<Event>)
    ensures Arrived(es).sells == SellsIn(Trades(es))
    ensures Arrived(es).buys == BuysIn(Trades(es))
    decreases |es|
  {
    if es != [] {
      var prefix := es[..|es| - 1];
      TradesArrived(prefix);
      TradesAppend(Trades(prefix), TradeOf(es[|es| - 1]));
      TradeOfQueued(es[|es| - 1]);
    }
  }

  /**
   * Every buys call is a cut of the trade order: there is a point `p` in the
   * trades such that the sells handed on before the call are exactly the
   * sells before `p`, and the buys handed on up to and including the call are
   * exactly the buys before `p`.
   */
  predicate CutAt(trace: seq<Call>, trades: seq<Trade>, j: nat)
    requires j < |trace|
  {
    exists p :: 0 <= p <= |trades| && SellsBefore(trades, p) == SellsHanded(trace, j)
                                   && BuysBefore(trades, p) == BuysHanded(trace, j + 1)
  }

  /** The sells among the first `p` trades. */
  function SellsBefore(trades: seq<Trade>, p: nat): seq<SellData>
    requires p <= |trades|
  {
    SellsIn(trades[..p])
  }

  /** The buys among the first `p` trades. */
  function BuysBefore(trades: seq<Trade>, p: nat): seq<BuyData>
    requires p <= |trades|
  {
    BuysIn(trades[..p])
  }

  /** The sells the first `j` calls handed on. */
  function SellsHanded(trace: seq<Call>, j: nat): seq<SellData>
    requires j <= |trace|
  {
    Flushed(trace[..j]).sells
  }

  /** The buys the first `j` calls handed on. */
  function BuysHanded(trace: seq<Call>, j: nat): seq<BuyData>
    requires j <= |trace|
  {
    Flushed(trace[..j]).buys
  }

  predicate CutAtBuys(trace: seq<Call>, trades: seq<Trade>) {
    forall j :: 0 <= j < |trace| && trace[j].SaveBuyCall? ==> CutAt(trace, trades, j)
  }

  /** More trades, and more calls after the old ones, leave the old cuts valid. */
  lemma CutPersists(trace: seq<Call>, calls: seq<Call>, trades: seq<Trade>, more: seq<Trade>, j: nat)
    requires j < |trace| && CutAt(trace, trades, j)
    ensures CutAt(trace + calls, trades + more, j)
  {
    var p :| 0 <= p <= |trades| && SellsBefore(trades, p) == SellsHanded(trace, j)
                                && BuysBefore(trades, p) == BuysHanded(trace, j + 1);
    assert (trades + more)[..p] == trades[..p];
    assert (trace + calls)[..j] == trace[..j];
    assert (trace + calls)[..j + 1] == trace[..j + 1];
    assert SellsBefore(trades + more, p) == SellsHanded(trace + calls, j);
    assert BuysBefore(trades + more, p) == BuysHanded(trace + calls, j + 1);
  }

  /** A cut at call `j` shown by the position `p` in the trade order. */
  lemma CutShownBy(trace: seq<Call>, trades: seq<Trade>, j: nat, p: nat)
    requires j < |trace| && p <= |trades|
    requires SellsIn(trades[..p]) == Flushed(trace[..j]).sells
    requires BuysIn(trades[..p]) == Flushed(trace[..j + 1]).buys
    ensures CutAt(trace, trades, j)
  {
    assert SellsBefore(trades, p) == SellsHanded(trace, j) && BuysBefore(trades, p) == BuysHanded(trace, j + 1);
  }

  /** What a buys call appended at the end has handed on, before it and with it. */
  lemma BuysCallAtEnd(trace: seq<Call>, buys: seq<BuyData>)
    ensures var t := trace + [SaveBuyCall(buys)];
      && Flushed(t[..|trace|]) == Flushed(trace)
      && Flushed(t[..|trace| + 1]).buys == Flushed(trace).buys + buys
  {
    var t := trace + [SaveBuyCall(buys)];
    assert t[..|trace|] == trace;
    assert t[..|trace| + 1] == t;
    FlushedSnoc(trace, SaveBuyCall(buys));
  }

  /** A buys call appended when every arrived sell has been handed on, and every other buy, is a cut at the end. */
  lemma CutAtEnd(trace: seq<Call>, buys: seq<BuyData>, trades: seq<Trade>)
    requires Flushed(trace).sells == SellsIn(trades)
    requires Flushed(trace).buys + buys == BuysIn(trades)
    ensures CutAt(trace + [SaveBuyCall(buys)], trades, |trace|)
  {
    BuysCallAtEnd(trace, buys);
    assert trades[..|trades|] == trades;
    CutShownBy(trace + [SaveBuyCall(buys)], trades, |trace|, |trades|);
  }

  /** Sells and buys handed on so far, together with those pending, are the trades that arrived. */
  predicate MarketBalanced(s: Intake, trades: seq<Trade>) {
    && Flushed(s.trace).sells + s.pending.sells == SellsIn(trades)
    && Flushed(s.trace).buys + s.pending.buys == BuysIn(trades)
  }

  /** One event keeps every buys call a cut of the trade order. */
  lemma DispatchKeepsCut(s: Intake, e: Event, trades: seq<Trade>)
    requires CutAtBuys(s.trace, trades)
    requires MarketBalanced(s, trades)
    ensures CutAtBuys(Dispatch(s, e).trace, trades + TradeOf(e))
    ensures MarketBalanced(Dispatch(s, e), trades + TradeOf(e))
  {
    var r := Dispatch(s, e);
    DispatchConserves(s, e);
    TradesAppend(trades, TradeOf(e));
    TradeOfQueued(e);
    assert MarketBalanced(r, trades + TradeOf(e)) by {
      var lhs := Plus(Flushed(r.trace), r.pending);
      var rhs := Plus(Plus(Flushed(s.trace), s.pending), Queued(e));
      assert lhs.sells == rhs.sells && lhs.buys == rhs.buys;
    }
    DispatchKeepsCuts(s, e, trades);
  }

  /** The buys calls before an event stay cuts, and the one it adds is a cut. */
  lemma DispatchKeepsCuts(s: Intake, e: Event, trades: seq<Trade>)
    requires CutAtBuys(s.trace, trades)
    requires MarketBalanced(s, trades)
    ensures CutAtBuys(Dispatch(s, e).trace, trades + TradeOf(e))
  {
    DispatchExtends(s, e);
    OldCutsKept(s.trace, Dispatch(s, e).trace, trades, TradeOf(e));
    NewCutsAreCuts(s, e, trades);
  }

  /** One event only appends to the trace. */
  lemma DispatchExtends(s: Intake, e: Event)
    ensures s.trace <= Dispatch(s, e).trace
  {
    DispatchConserves(s, e);
  }

  /** Calls and trades added after the old ones leave every old buys call a cut. */
  lemma OldCutsKept(trace: seq<Call>, t: seq<Call>, trades: seq<Trade>, more: seq<Trade>)
    requires CutAtBuys(trace, trades)
    requires trace <= t
    ensures forall j :: 0 <= j < |trace| && t[j].SaveBuyCall? ==> CutAt(t, trades + more, j)
  {
    var calls := t[|trace|..];
    assert t == trace + calls;
    forall j | 0 <= j < |trace| && t[j].SaveBuyCall?
      ensures CutAt(t, trades + more, j)
    {
      assert trace[j] == t[j];
      CutPersists(trace, calls, trades, more, j);
    }
  }

  /** Every buys call one event adds is a cut of the trades including the event's. */
  lemma NewCutsAreCuts(s: Intake, e: Event, trades: seq<Trade>)
    requires MarketBalanced(s, trades)
    ensures var t := Dispatch(s, e).trace;
      forall j :: |s.trace| <= j < |t| && t[j].SaveBuyCall? ==> CutAt(t, trades + TradeOf(e), j)
  {
    var t := Dispatch(s, e).trace;
    var all := trades + TradeOf(e);
    TradesAppend(trades, TradeOf(e));
    TradeOfQueued(e);
    assert Flushed(s.trace).sells + s.pending.sells + Queued(e).sells == SellsIn(all);
    assert Flushed(s.trace).buys + s.pending.buys + Queued(e).buys == BuysIn(all);
    forall j | |s.trace| <= j < |t| && t[j].SaveBuyCall?
      ensures CutAt(t, all, j)
    {
      TicketCut(s, e, all, j);
    }
  }

  /**
   * With buys pending, a ticket-pass log ends with the buys call, and the
   * calls before it have handed on every pending sell and no buy.
   */
  lemma TicketBuysLast(s: Intake, h: Header, log: Item)
    requires log.EvmLog?
    requires s.pending.buys != []
    ensures var r := TicketLog(s, h, log);
      && |s.trace| < |r.trace| && r.trace[|r.trace| - 1] == SaveBuyCall(s.pending.buys)
      && (forall i :: |s.trace| <= i < |r.trace| - 1 ==> !r.trace[i].SaveBuyCall?)
      && Flushed(r.trace[..|r.trace| - 1]).sells == Flushed(s.trace).sells + s.pending.sells
      && Flushed(r.trace[..|r.trace| - 1]).buys == Flushed(s.trace).buys
  {
    TicketFirstShape(s, h, log);
    MarketFlushBuysLast(s, TicketFirst(s, h, log));
  }

  /** The sells and buys flush after a possible transfers flush ends with the buys call, when buys are pending. */
  lemma MarketFlushBuysLast(s: Intake, f: Intake)
    requires s.pending.buys != []
    requires f.pending.sells == s.pending.sells && f.pending.buys == s.pending.buys
    requires f.trace == s.trace || f.trace == s.trace + [SaveTransfersCall(s.pending.transfers)]
    ensures var r := FlushBuys(FlushSells(f));
      && |s.trace| < |r.trace| && r.trace[|r.trace| - 1] == SaveBuyCall(s.pending.buys)
      && (forall i :: |s.trace| <= i < |r.trace| - 1 ==> !r.trace[i].SaveBuyCall?)
      && Flushed(r.trace[..|r.trace| - 1]).sells == Flushed(s.trace).sells + s.pending.sells
      && Flushed(r.trace[..|r.trace| - 1]).buys == Flushed(s.trace).buys
  {
    var r := FlushBuys(FlushSells(f));
    MarketFlushShape(f);
    var c2 := if s.pending.sells != [] then [SaveSellCall(s.pending.sells)] else [];
    var before := f.trace + c2;
    assert r.trace == before + [SaveBuyCall(s.pending.buys)];
    assert r.trace[..|r.trace| - 1] == before;
    SellsFlushedBefore(s, f.trace, c2);
    assert forall i :: |s.trace| <= i < |before| ==> before[i].SaveTransfersCall? || before[i].SaveSellCall?;
  }

  /** A possible transfers call, then a possible sells call, hand on the pending sells and no buy. */
  lemma SellsFlushedBefore(s: Intake, t: seq<Call>, c2: seq<Call>)
    requires t == s.trace || t == s.trace + [SaveTransfersCall(s.pending.transfers)]
    requires c2 == if s.pending.sells != [] then [SaveSellCall(s.pending.sells)] else []
    ensures Flushed(t + c2).sells == Flushed(s.trace).sells + s.pending.sells
    ensures Flushed(t + c2).buys == Flushed(s.trace).buys
  {
    assert Flushed(t).sells == Flushed(s.trace).sells && Flushed(t).buys == Flushed(s.trace).buys by {
      if t != s.trace {
        FlushedSnoc(s.trace, SaveTransfersCall(s.pending.transfers));
      }
    }
    if c2 != [] {
      FlushedSnoc(t, SaveSellCall(s.pending.sells));
    } else {
      assert t + c2 == t;
    }
  }

  /** Only a ticket-pass log with buys pending adds a buys call. */
  lemma BuysCallNeedsTicket(s: Intake, e: Event)
    ensures var r := Dispatch(s, e);
      (exists i :: |s.trace| <= i < |r.trace| && r.trace[i].SaveBuyCall?) ==>
        e.item.EvmLog? && e.item.address == TicketPassAddress && s.pending.buys != []
  {
    if e.item.EvmLog? && e.item.address == MarketplaceAddress {
      DispatchMarket(s, e);
      MarketEventFlushesTransfers(s, e.header, e.item);
    } else if e.item.EvmLog? && e.item.address == TicketPassAddress {
      DispatchTicket(s, e);
      var f := TicketFirst(s, e.header, e.item);
      TicketFirstShape(s, e.header, e.item);
      MarketFlushShape(f);
    }
  }

  /** A buys call a single item adds comes from a ticket-pass log, after all pending sells were handed on. */
  lemma TicketCut(s: Intake, e: Event, all: seq<Trade>, j: nat)
    requires Flushed(s.trace).sells + s.pending.sells + Queued(e).sells == SellsIn(all)
    requires Flushed(s.trace).buys + s.pending.buys + Queued(e).buys == BuysIn(all)
    requires |s.trace| <= j < |Dispatch(s, e).trace| && Dispatch(s, e).trace[j].SaveBuyCall?
    ensures CutAt(Dispatch(s, e).trace, all, j)
  {
    BuysCallNeedsTicket(s, e);
    DispatchTicket(s, e);
    AddressesDiffer();
    assert Queued(e).sells == [] && Queued(e).buys == [];
    TicketBuysLast(s, e.header, e.item);
    LastBuyIsCut(s, Dispatch(s, e).trace, all, j);
  }

  /** A buys call that ends the new calls, after all pending sells and no buy were handed on, is a cut. */
  lemma LastBuyIsCut(s: Intake, t: seq<Call>, all: seq<Trade>, j: nat)
    requires Flushed(s.trace).sells + s.pending.sells == SellsIn(all)
    requires Flushed(s.trace).buys + s.pending.buys == BuysIn(all)
    requires |s.trace| <= j < |t| && t[j].SaveBuyCall?
    requires t[|t| - 1] == SaveBuyCall(s.pending.buys)
    requires forall i :: |s.trace| <= i < |t| - 1 ==> !t[i].SaveBuyCall?
    requires Flushed(t[..|t| - 1]).sells == Flushed(s.trace).sells + s.pending.sells
    requires Flushed(t[..|t| - 1]).buys == Flushed(s.trace).buys
    ensures CutAt(t, all, j)
  {
    var before := t[..|t| - 1];
    assert t == before + [SaveBuyCall(s.pending.buys)];
    CutAtEnd(before, s.pending.buys, all);
  }

  /** Driving from the start keeps every buys call a cut of the trades so far. */
  lemma {:induction false} DriveKeepsCut(es: seq<Event>)
    ensures CutAtBuys(Drive(Start, es).trace, Trades(es))
    ensures MarketBalanced(Drive(Start, es), Trades(es))
    decreases |es|
  {
    if es != [] {
      var prefix := es[..|es| - 1];
      DriveKeepsCut(prefix);
      DispatchKeepsCut(Drive(Start, prefix), es[|es| - 1], Trades(prefix));
    }
  }

  /** The first three calls of the last round end in a buys call that is a cut. */
  lemma LastRoundMarketCut(r: Intake, trades: seq<Trade>)
    requires MarketBalanced(r, trades)
    ensures var head := r.trace + [SaveTransfersCall(r.pending.transfers)] + [SaveSellCall(r.pending.sells)];
      CutAt(head + [SaveBuyCall(r.pending.buys)], trades, |r.trace| + 2)
  {
    var q := r.pending;
    var t1 := r.trace + [SaveTransfersCall(q.transfers)];
    FlushedSnoc(r.trace, SaveTransfersCall(q.transfers));
    FlushedSnoc(t1, SaveSellCall(q.sells));
    CutAtEnd(t1 + [SaveSellCall(q.sells)], q.buys, trades);
  }

  /** The buys call of the last round is a cut at the end of the trades. */
  lemma LastRoundCut(r: Intake, trades: seq<Trade>)
    requires MarketBalanced(r, trades)
    ensures |FinalFlush(r)| == |r.trace| + 5 && CutAt(FinalFlush(r), trades, |r.trace| + 2)
  {
    var q := r.pending;
    var market := r.trace + [SaveTransfersCall(q.transfers)] + [SaveSellCall(q.sells)] + [SaveBuyCall(q.buys)];
    var tail := [SaveTicketPassCall(q.mints), SaveDevTicketPassCall(q.devMints)];
    LastRoundMarketCut(r, trades);
    assert FinalFlush(r) == market + tail;
    CutPersists(market, tail, trades, [], |r.trace| + 2);
    assert trades + [] == trades;
  }

  /** Every buys call of a whole batch, the last round's included, is a cut of the trade order. */
  lemma BatchCut(blocks: seq<Block>)
    ensures CutAtBuys(BatchTrace(blocks), Trades(Events(blocks)))
  {
    var es := Events(blocks);
    var r := Drive(Start, es);
    var trades := Trades(es);
    DriveKeepsCut(es);
    LastRoundCut(r, trades);
    var t := BatchTrace(blocks);
    var last := t[|r.trace|..];
    assert t == r.trace + last;
    assert trades + [] == trades;
    forall j | 0 <= j < |t| && t[j].SaveBuyCall?
      ensures CutAt(t, trades, j)
    {
      if j < |r.trace| {
        assert r.trace[j] == t[j];
        CutPersists(r.trace, last, trades, [], j);
      } else {
        assert j == |r.trace| + 2;
      }
    }
  }

  lemma {:induction false} BuysInGrows(trades: seq<Trade>, p: nat, b: nat)
    requires p <= b < |trades| && trades[b].Bought?
    ensures |BuysIn(trades[..p])| < |BuysIn(trades[..b + 1])|
  {
    var tail := trades[p..b + 1];
    assert trades[..b + 1] == trades[..p] + tail;
    TradesAppend(trades[..p], tail);
    assert tail == tail[..|tail| - 1] + [trades[b]];
    TradesAppend(tail[..|tail| - 1], [trades[b]]);
    assert BuysIn([trades[b]]) == [trades[b].buy] by {
      assert [trades[b]][..0] == [];
    }
  }

  /**
   * A Buy is never materialised before a Sell that arrived ahead of it: when
   * a buys call of the batch has handed on the Buy at position `b` of the
   * trade order (and those before it), every Sell before position `b` was
   * handed on by an earlier call.
   */
  lemma SellMaterialisedBeforeLaterBuy(blocks: seq<Block>, j: nat, b: nat)
    requires j < |BatchTrace(blocks)| && BatchTrace(blocks)[j].SaveBuyCall?
    requires b < |Trades(Events(blocks))| && Trades(Events(blocks))[b].Bought?
    requires BuysIn(Trades(Events(blocks))[..b + 1]) <= Flushed(BatchTrace(blocks)[..j + 1]).buys
    ensures SellsIn(Trades(Events(blocks))[..b]) <= Flushed(BatchTrace(blocks)[..j]).sells
  {
    var t := BatchTrace(blocks);
    var trades := Trades(Events(blocks));
    BatchCut(blocks);
    assert CutAt(t, trades, j);
    var p :| 0 <= p <= |trades| && SellsBefore(trades, p) == SellsHanded(t, j)
                                && BuysBefore(trades, p) == BuysHanded(t, j + 1);
    if p <= b {
      BuysInGrows(trades, p, b);
      assert false;
    }
    assert trades[..p] == trades[..b] + trades[b..p];
    TradesAppend(trades[..b], trades[b..p]);
  }

  // ----- Effects on the store -----

  /** What one call does to the store and the contract cache. */
  function Effect(c: World, call: Call, env: Env): World {
    match call
    case SaveTransfersCall(ts) => SaveTransfersSpec(c, ts, env)
    case SaveSellCall(ss) => World(SaveSellSpec(c.store, ss), c.cache)
    case SaveBuyCall(bs) => World(SaveBuySpec(c.store, bs), c.cache)
    case SaveTicketPassCall(_) => c
    case SaveDevTicketPassCall(_) => c
  }

  /** The store and the cache after the calls `trace`, in order. */
  function Apply(c: World, trace: seq<Call>, env: Env): World {
    if trace == [] then c else Effect(Apply(c, trace[..|trace| - 1], env), trace[|trace| - 1], env)
  }

  /** The calls `trace` and then `call` have the effect of `trace` followed by the effect of `call`. */
  lemma ApplySnoc(c: World, trace: seq<Call>, call: Call, env: Env)
    ensures Apply(c, trace + [call], env) == Effect(Apply(c, trace, env), call, env)
  {
    assert (trace + [call])[..|trace|] == trace;
  }

  lemma SellEffect(c: World, ss: seq<SellData>, env: Env)
    ensures Effect(c, SaveSellCall(ss), env) == World(SaveSellSpec(c.store, ss), c.cache)
  {
  }

  lemma BuyEffect(c: World, bs: seq<BuyData>, env: Env)
    ensures Effect(c, SaveBuyCall(bs), env) == World(SaveBuySpec(c.store, bs), c.cache)
  {
  }

  // ----- The handler -----

  /** `while (xs.length) xs.pop()`: empties the array one element at a time. */
  method PopAll<T>(xs: seq<T>) returns (r: seq<T>)
    ensures r == []
  {
    r := xs;
    while |r| != 0
      decreases |r|
    {
      r := r[..|r| - 1];
    }
  }

  /** `saveTransfers(ctx, transfersData)` (when the array is not empty) followed by the `pop` loop. */
  method DrainTransfers(store: Store, registry: ContractRegistry, q: Queues, trace: seq<Call>, env: Env, ghost c0: World)
    returns (q': Queues, trace': seq<Call>)
    requires World(store.View(), registry.cache) == Apply(c0, trace, env)
    modifies store, registry
    ensures Intake(q', trace') == FlushTransfers(Intake(q, trace))
    ensures World(store.View(), registry.cache) == Apply(c0, trace', env)
  {
    q', trace' := q, trace;
    if |q.transfers| != 0 {
      ApplySnoc(c0, trace, SaveTransfersCall(q.transfers), env);
      SaveTransfers(store, registry, q.transfers, env);
      trace' := trace + [SaveTransfersCall(q.transfers)];
      var pending := PopAll(q.transfers);
      q' := q.(transfers := pending);
    }
  }

  method DrainSells(store: Store, q: Queues, trace: seq<Call>, env: Env, ghost c0: World, ghost cache: map<string, Contract>)
    returns (q': Queues, trace': seq<Call>)
    requires World(store.View(), cache) == Apply(c0, trace, env)
    modifies store
    ensures Intake(q', trace') == FlushSells(Intake(q, trace))
    ensures World(store.View(), cache) == Apply(c0, trace', env)
  {
    q', trace' := q, trace;
    if |q.sells| != 0 {
      ApplySnoc(c0, trace, SaveSellCall(q.sells), env);
      SellEffect(Apply(c0, trace, env), q.sells, env);
      SaveSell(store, q.sells);
      trace' := trace + [SaveSellCall(q.sells)];
      var pending := PopAll(q.sells);
      q' := q.(sells := pending);
    }
  }

  method DrainBuys(store: Store, q: Queues, trace: seq<Call>, env: Env, ghost c0: World, ghost cache: map<string, Contract>)
    returns (q': Queues, trace': seq<Call>)
    requires World(store.View(), cache) == Apply(c0, trace, env)
    modifies store
    ensures Intake(q', trace') == FlushBuys(Intake(q, trace))
    ensures World(store.View(), cache) == Apply(c0, trace', env)
  {
    q', trace' := q, trace;
    if |q.buys| != 0 {
      ApplySnoc(c0, trace, SaveBuyCall(q.buys), env);
      BuyEffect(Apply(c0, trace, env), q.buys, env);
      SaveBuy(store, q.buys);
      trace' := trace + [SaveBuyCall(q.buys)];
      var pending := PopAll(q.buys);
      q' := q.(buys := pending);
    }
  }

  /** The body of the inner loop for one item. */
  method HandleItem(store: Store, registry: ContractRegistry, q: Queues, trace: seq<Call>, e: Event, env: Env, ghost c0: World)
    returns (q': Queues, trace': seq<Call>)
    requires World(store.View(), registry.cache) == Apply(c0, trace, env)
    modifies store, registry
    ensures Intake(q', trace') == Dispatch(Intake(q, trace), e)
    ensures World(store.View(), registry.cache) == Apply(c0, trace', env)
  {
    q', trace' := q, trace;
    var item := e.item;
    if item.EvmLog? {
      if item.address == MarketplaceAddress {
        q', trace' := HandleMarketLog(store, registry, q', trace', e.header, item, env, c0);
      }
      if item.address == TicketPassAddress {
        q', trace' := HandleTicketLog(store, registry, q', trace', e.header, item, env, c0);
      }
    }
  }

  /** A log of the marketplace: a Sell or a Buy is queued, then pending transfers are saved. */
  method HandleMarketLog(store: Store, registry: ContractRegistry, q: Queues, trace: seq<Call>, h: Header, item: Item, env: Env, ghost c0: World)
    returns (q': Queues, trace': seq<Call>)
    requires item.EvmLog?
    requires World(store.View(), registry.cache) == Apply(c0, trace, env)
    modifies store, registry
    ensures Intake(q', trace') == MarketLog(Intake(q, trace), h, item)
    ensures World(store.View(), registry.cache) == Apply(c0, trace', env)
  {
    q' := q;
    if item.event.SellEvent? {
      q' := q'.(sells := q'.sells + [HandleSell(h, item)]);
    } else if item.event.BuyEvent? {
      q' := q'.(buys := q'.buys + [HandleBuy(h, item)]);
    }
    q', trace' := DrainTransfers(store, registry, q', trace, env, c0);
  }

  /**
   * A log of the ticket-pass contract: a transfer, mint or dev mint is
   * queued (a mint or dev mint saves pending transfers first), then pending
   * sells and buys are saved.
   */
  method HandleTicketLog(store: Store, registry: ContractRegistry, q: Queues, trace: seq<Call>, h: Header, item: Item, env: Env, ghost c0: World)
    returns (q': Queues, trace': seq<Call>)
    requires item.EvmLog?
    requires World(store.View(), registry.cache) == Apply(c0, trace, env)
    modifies store, registry
    ensures Intake(q', trace') == TicketLog(Intake(q, trace), h, item)
    ensures World(store.View(), registry.cache) == Apply(c0, trace', env)
  {
    q', trace' := q, trace;
    if item.event.TransferEvent? {
      q' := q'.(transfers := q'.transfers + [HandleTransfer(h, item)]);
    }
    if item.event.MintEvent? {
      q' := q'.(mints := q'.mints + [HandleTicketPassMint(item)]);
      q', trace' := DrainTransfers(store, registry, q', trace', env, c0);
    }
    if item.event.DevMintEvent? {
      q' := q'.(devMints := q'.devMints + [HandleTicketPassDevMint(item)]);
      q', trace' := DrainTransfers(store, registry, q', trace', env, c0);
    }
    assert Intake(q', trace') == TicketFirst(Intake(q, trace), h, item);
    q', trace' := DrainSells(store, q', trace', env, c0, registry.cache);
    q', trace' := DrainBuys(store, q', trace', env, c0, registry.cache);
  }

  /** The inner loop of `processor.run`: the items of one block, in order. */
  method HandleBlock(store: Store, registry: ContractRegistry, q: Queues, trace: seq<Call>, block: Block, env: Env, ghost c0: World)
    returns (q': Queues, trace': seq<Call>)
    requires World(store.View(), registry.cache) == Apply(c0, trace, env)
    modifies store, registry
    ensures Intake(q', trace') == Drive(Intake(q, trace), Locate(block))
    ensures World(store.View(), registry.cache) == Apply(c0, trace', env)
  {
    q', trace' := q, trace;
    ghost var es := Locate(block);
    for i := 0 to |block.items|
      invariant Intake(q', trace') == Drive(Intake(q, trace), es[..i])
      invariant World(store.View(), registry.cache) == Apply(c0, trace', env)
    {
      assert es[..i + 1][..i] == es[..i];
      q', trace' := HandleItem(store, registry, q', trace', Event(block.header, block.items[i]), env, c0);
    }
    assert es[..|block.items|] == es;
  }

  lemma {:induction false} DriveAppend(s: Intake, a: seq<Event>, b: seq<Event>)
    ensures Drive(s, a + b) == Drive(Drive(s, a), b)
    decreases |b|
  {
    if b == [] {
      assert a + b == a;
    } else {
      assert (a + b)[..|a + b| - 1] == a + b[..|b| - 1];
      assert (a + b)[|a + b| - 1] == b[|b| - 1];
      DriveAppend(s, a, b[..|b| - 1]);
    }
  }

  /**
   * `processor.run`'s batch handler: the items of every block in order,
   * then the last round. It returns the calls it made, and leaves the store
   * and the contract cache as those calls, in that order, do.
   */
  method Run(store: Store, registry: ContractRegistry, blocks: seq<Block>, env: Env) returns (trace: seq<Call>)
    modifies store, registry
    ensures trace == BatchTrace(blocks)
    ensures World(store.View(), registry.cache) == Apply(World(old(store.View()), old(registry.cache)), trace, env)
  {
    ghost var c0 := World(store.View(), registry.cache);
    var q := NoQueues;
    trace := [];
    for b := 0 to |blocks|
      invariant Intake(q, trace) == Drive(Start, Events(blocks[..b]))
      invariant World(store.View(), registry.cache) == Apply(c0, trace, env)
    {
      assert blocks[..b + 1][..b] == blocks[..b];
      DriveAppend(Start, Events(blocks[..b]), Locate(blocks[b]));
      q, trace := HandleBlock(store, registry, q, trace, blocks[b], env, c0);
    }
    assert blocks[..|blocks|] == blocks;
    LastRoundEffects(store, registry, q, trace, env, c0);
    trace := FinalFlush(Intake(q, trace));
  }

  /** Makes one save call on the store. */
  method Perform(store: Store, registry: ContractRegistry, call: Call, env: Env)
    modifies store, registry
    ensures World(store.View(), registry.cache) == Effect(World(old(store.View()), old(registry.cache)), call, env)
  {
    match call
    case SaveTransfersCall(ts) => SaveTransfers(store, registry, ts, env);
    case SaveSellCall(ss) => SaveSell(store, ss);
    case SaveBuyCall(bs) => SaveBuy(store, bs);
    case SaveTicketPassCall(mints) => var visited := SaveTicketPass(mints);
    case SaveDevTicketPassCall(mints) => var visited := SaveDevTicketPass(mints);
  }

  /** The last round: the five saves, whatever is left in each array. */
  method LastRoundEffects(store: Store, registry: ContractRegistry, q: Queues, trace: seq<Call>, env: Env, ghost c0: World)
    requires World(store.View(), registry.cache) == Apply(c0, trace, env)
    modifies store, registry
    ensures World(store.View(), registry.cache) == Apply(c0, FinalFlush(Intake(q, trace)), env)
  {
    LastRoundMarket(store, registry, q, trace, env, c0);
    ghost var t3 := trace + [SaveTransfersCall(q.transfers), SaveSellCall(q.sells), SaveBuyCall(q.buys)];
    ghost var t4 := t3 + [SaveTicketPassCall(q.mints)];
    ApplySnoc(c0, t3, SaveTicketPassCall(q.mints), env);
    Perform(store, registry, SaveTicketPassCall(q.mints), env);
    ApplySnoc(c0, t4, SaveDevTicketPassCall(q.devMints), env);
    Perform(store, registry, SaveDevTicketPassCall(q.devMints), env);
    assert t4 + [SaveDevTicketPassCall(q.devMints)] == FinalFlush(Intake(q, trace));
  }

  /** The first three saves of the last round: transfers, sells, buys. */
  method LastRoundMarket(store: Store, registry: ContractRegistry, q: Queues, trace: seq<Call>, env: Env, ghost c0: World)
    requires World(store.View(), registry.cache) == Apply(c0, trace, env)
    modifies store, registry
    ensures World(store.View(), registry.cache) == Apply(c0, trace + [SaveTransfersCall(q.transfers), SaveSellCall(q.sells), SaveBuyCall(q.buys)], env)
  {
    ghost var t1 := trace + [SaveTransfersCall(q.transfers)];
    ghost var t2 := t1 + [SaveSellCall(q.sells)];
    ApplySnoc(c0, trace, SaveTransfersCall(q.transfers), env);
    Perform(store, registry, SaveTransfersCall(q.transfers), env);
    ApplySnoc(c0, t1, SaveSellCall(q.sells), env);
    Perform(store, registry, SaveSellCall(q.sells), env);
    ApplySnoc(c0, t2, SaveBuyCall(q.buys), env);
    Perform(store, registry, SaveBuyCall(q.buys), env);
    assert t2 + [SaveBuyCall(q.buys)] == trace + [SaveTransfersCall(q.transfers), SaveSellCall(q.sells), SaveBuyCall(q.buys)];
  }

}
