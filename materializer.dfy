/**
 * The state materialisers of the processor: `saveTransfers`, `saveSell`,
 * `saveBuy`, `saveTicketPass` and `saveDevTicketPass`. Each flush preloads
 * the Owners and Tokens it refers to, works through its events in order
 * over those working maps, and then writes Owners, Tokens, Transfers and
 * Activities to the store, in that order.
 *
 * Each flush is specified by a function over values (`TransferStep`,
 * `SaveTransfersSpec`, ...); the methods that do the work in place are
 * proved to end in the state those functions give.
 */
module Materializer {

  import opened Wrappers
  import opened Strings
  import opened Entities
  import opened Types
  import opened EntityStore
  import opened Contracts
  import opened Operator

  /** `collectionTokenId(address, tokenId)`: the registry symbol, a dash, the token id. */
  function CollectionTokenId(address: string, tokenId: string): string {
    Symbol(address) + "-" + tokenId
  }

  /** The key reads back as the symbol and the token id, since no registry symbol holds a dash. */
  lemma CollectionTokenIdSplits(address: string, tokenId: string)
    ensures SplitAtDash(CollectionTokenId(address, tokenId)) == Some((Symbol(address), tokenId))
  {
    SplitJoin(Symbol(address), tokenId);
  }

  /** Two token keys are equal exactly when the symbols and the token ids are. */
  lemma CollectionTokenIdInjective(a1: string, t1: string, a2: string, t2: string)
    ensures CollectionTokenId(a1, t1) == CollectionTokenId(a2, t2) <==> Symbol(a1) == Symbol(a2) && t1 == t2
  {
    CollectionTokenIdSplits(a1, t1);
    CollectionTokenIdSplits(a2, t2);
  }

  /** Every address outside the registry has the empty symbol, so equal token ids of two such contracts share one key. */
  lemma UnknownContractsShareKeys(a1: string, a2: string, tokenId: string)
    requires a1 !in ContractMapping() && a2 !in ContractMapping()
    ensures CollectionTokenId(a1, tokenId) == CollectionTokenId(a2, tokenId) == "-" + tokenId
  {
  }

  function TokenKey(t: TransferData): string {
    CollectionTokenId(t.contractAddress, Decimal(t.token))
  }

  function SellKey(s: SellData): string {
    CollectionTokenId(s.nftContractAddress, Decimal(s.tokenId))
  }

  function BuyKey(b: BuyData): string {
    CollectionTokenId(b.nftContractAddress, Decimal(b.tokenId))
  }

  function MintKey(t: TransferData): string {
    ActivityKey(t.contractAddress, t.transactionHash, Decimal(t.token), MINT)
  }

  function TransferKey(t: TransferData): string {
    ActivityKey(t.contractAddress, t.transactionHash, Decimal(t.token), TRANSFER)
  }

  /** `parseInt(transferData.token)`: the numeric id of a new Token, read back from its decimal string. */
  function ParsedTokenId(t: TransferData): (n: nat)
    ensures n == t.token
  {
    ParseDecimal(t.token);
    ParseDigits(Decimal(t.token))
  }

  /** Looks up the Owner `id`, creating it with balance 0 when the working map lacks it. */
  function EnsureOwner(owners: map<string, Owner>, id: string): (r: map<string, Owner>)
    ensures r.Keys == owners.Keys + {id}
    ensures forall k :: k in owners ==> r[k] == owners[k]
    ensures id !in owners ==> r[id] == Owner(id, 0)
  {
    if id in owners then owners else owners[id := Owner(id, 0)]
  }

  /** JavaScript truthiness of an optional string: present and not empty. */
  predicate Truthy(o: Option<string>) {
    o.Some? && o.value != ""
  }

  const HttpsScheme := "https://"

  /**
   * The image a metadata document yields: `image_alt` is taken first and
   * `image` then overrides it, so `image` wins whenever both are present.
   */
  function SelectImage(data: TokenMetadata): (r: Option<string>)
    ensures Truthy(data.image) ==> r == data.image
    ensures !Truthy(data.image) && Truthy(data.image_alt) ==> r == data.image_alt
    ensures !Truthy(data.image) && !Truthy(data.image_alt) ==> r == None
    ensures r.Some? ==> Truthy(r)
  {
    var fromAlt: Option<string> := if Truthy(data.image_alt) then data.image_alt else None;
    if Truthy(data.image) then data.image else fromAlt
  }

  /** Which of the two `getTokenURI` calls of a transfer an answer belongs to. */
  datatype Site = AtCreate | AtRepair

  /**
   * The outside world a flush talks to. `tokenUri(event, site, i)` is the
   * chain's answer to the i-th `tokenURI` attempt made for transfer `event`
   * at `site` (`None` on an error or a timeout); `metadata(event, site, uri)`
   * is the JSON the HTTP GET of `uri` returns (`None` when the request fails
   * or the body is empty).
   */
  datatype Env = Env(
    tokenUri: (string, Site, nat) -> Option<string>,
    metadata: (string, Site, string) -> Option<TokenMetadata>)

  function UriAnswers(env: Env, t: TransferData, site: Site): nat -> Option<string> {
    (i: nat) => env.tokenUri(t.id, site, i)
  }

  function UriAt(env: Env, t: TransferData, site: Site): Result<string, string> {
    GetTokenURISpec(t.contractAddress, UriAnswers(env, t, site))
  }

  datatype Enriched = Enriched(uri: Option<string>, imageUri: Option<string>)

  /**
   * The uri and image a new Token is created with: nothing when
   * `getTokenURI` fails; the uri alone when it holds "https://" (no fetch is
   * made) or the fetch fails; otherwise the uri and the selected image.
   */
  function EnrichAtCreate(t: TransferData, env: Env): (r: Enriched)
    ensures UriAt(env, t, AtCreate).Err? ==> r == Enriched(None, None)
    ensures UriAt(env, t, AtCreate).Ok? ==> r.uri == Some(UriAt(env, t, AtCreate).value)
    ensures r.uri.Some? && Contains(r.uri.value, HttpsScheme) ==> r.imageUri == None
    ensures r.imageUri.Some? ==>
      && Truthy(r.imageUri)
      && r.uri.Some?
      && env.metadata(t.id, AtCreate, r.uri.value).Some?
      && r.imageUri == SelectImage(env.metadata(t.id, AtCreate, r.uri.value).value)
    ensures r.uri.Some? && !Contains(r.uri.value, HttpsScheme) ==>
      r.imageUri == (match env.metadata(t.id, AtCreate, r.uri.value)
                     case None => None
                     case Some(doc) => SelectImage(doc))
  {
    match UriAt(env, t, AtCreate)
    case Err(_) => Enriched(None, None)
    case Ok(uri) =>
      if Contains(uri, HttpsScheme) then Enriched(Some(uri), None)
      else
        match env.metadata(t.id, AtCreate, uri)
        case None => Enriched(Some(uri), None)
        case Some(data) => Enriched(Some(uri), SelectImage(data))
  }

  /**
   * The repair of a Token whose uri or image is missing: a fresh
   * `getTokenURI`; when it succeeds with a uri that does not hold
   * "https://", that uri is stored and, when the fetch returns a document,
   * the selected image replaces the old one (even by nothing).
   */
  function Repair(token: Token, t: TransferData, env: Env): (r: Token)
    ensures r.(uri := token.uri, imageUri := token.imageUri) == token
    ensures Truthy(token.uri) && Truthy(token.imageUri) ==> r == token
    ensures UriAt(env, t, AtRepair).Err? ==> r == token
    ensures r != token ==> r.uri.Some? && UriAt(env, t, AtRepair) == Ok(r.uri.value) && !Contains(r.uri.value, HttpsScheme)
    ensures UriAt(env, t, AtRepair).Ok? && Contains(UriAt(env, t, AtRepair).value, HttpsScheme) ==> r == token
    ensures var answer := UriAt(env, t, AtRepair);
      !(Truthy(token.uri) && Truthy(token.imageUri)) && answer.Ok? && !Contains(answer.value, HttpsScheme) ==>
        && r.uri == Some(answer.value)
        && r.imageUri == (match env.metadata(t.id, AtRepair, answer.value)
                          case None => token.imageUri
                          case Some(doc) => SelectImage(doc))
  {
    if Truthy(token.uri) && Truthy(token.imageUri) then token
    else
      match UriAt(env, t, AtRepair)
      case Err(_) => token
      case Ok(uri) =>
        if Contains(uri, HttpsScheme) then token
        else
          var withUri := token.(uri := Some(uri));
          match env.metadata(t.id, AtRepair, uri)
          case None => withUri
          case Some(data) => withUri.(imageUri := SelectImage(data))
  }

  function MakeTransfer(t: TransferData, tokenId: string): Transfer {
    Transfer(t.id, t.block, t.timestamp, t.transactionHash, t.from, t.to, tokenId)
  }

  /** The TRANSFER activity `saveTransfers` builds itself (not through `handleActivity`). */
  function TransferActivity(t: TransferData, tokenId: string): Activity {
    Activity(TransferKey(t), TRANSFER, t.block, Some(t.from), Some(t.to), None, t.timestamp, Some(tokenId), t.transactionHash)
  }

  function MintActivity(t: TransferData, tokenId: string): Activity {
    HandleActivity(MINT, OfTransfer(t), Some(tokenId), Some(t.from), Some(t.to))
  }

  /** The working maps and the records a flush has accumulated so far. */
  datatype Work = Work(
    owners: map<string, Owner>,
    tokens: map<string, Token>,
    transfers: seq<Transfer>,
    activities: seq<Activity>)

  /** The store and the contract cache, which a transfer flush can change while it runs. */
  datatype World = World(store: StoreState, cache: map<string, Contract>)

  datatype Step = Step(work: Work, world: World)

  /**
   * The activities one transfer adds: for a Token new to the flush, its
   * MINT activity unless one is stored under the MINT key; for a Token
   * already there, a TRANSFER activity unless one is stored under the
   * TRANSFER key. A new Token never gets a TRANSFER activity.
   */
  function AddedByTransfer(w: Work, c: World, t: TransferData): (r: seq<Activity>)
    ensures |r| <= 1
    ensures TokenKey(t) !in w.tokens ==> (r == [] <==> MintKey(t) in c.store.activities)
    ensures TokenKey(t) in w.tokens ==> (r == [] <==> TransferKey(t) in c.store.activities)
    ensures forall a :: a in r ==>
      && a.id !in c.store.activities
      && a.id == (if TokenKey(t) in w.tokens then TransferKey(t) else MintKey(t))
      && a.kind == (if TokenKey(t) in w.tokens then TRANSFER else MINT)
      && a.token == Some(TokenKey(t)) && a.from == Some(t.from) && a.to == Some(t.to)
      && a.price == None && a.block == t.block && a.timestamp == t.timestamp
  {
    var key := TokenKey(t);
    if key !in w.tokens then
      if MintKey(t) in c.store.activities then [] else [MintActivity(t, key)]
    else
      if TransferKey(t) in c.store.activities then [] else [TransferActivity(t, key)]
  }

  /** The world after one transfer: only a new token's contract lookup changes it. */
  function WorldAfterTransfer(w: Work, c: World, t: TransferData): (r: World)
    ensures r.store.owners == c.store.owners && r.store.tokens == c.store.tokens
    ensures r.store.transfers == c.store.transfers && r.store.activities == c.store.activities
    ensures c.store.contracts.Keys <= r.store.contracts.Keys
    ensures r.store.journal == c.store.journal || r.store.journal == c.store.journal + [ContractInserted(t.contractAddress, CreateContractEntity(t.contractAddress))]
    ensures c.cache.Keys <= r.cache.Keys && forall a :: a in c.cache ==> r.cache[a] == c.cache[a]
    ensures TokenKey(t) in w.tokens ==> r == c
  {
    if TokenKey(t) in w.tokens then c
    else
      var lookup := GetContractEntitySpec(c.cache, c.store, t.contractAddress);
      World(lookup.store, lookup.cache)
  }

  /** The Token a transfer creates: its composite key, the parsed id, the enriched uri and image, the looked-up contract. */
  function NewToken(c: World, t: TransferData, env: Env): (tok: Token)
    ensures tok.id == TokenKey(t) && tok.tokenId == t.token
    ensures tok.owner == None && !tok.isListed
    ensures tok.contract == GetContractEntitySpec(c.cache, c.store, t.contractAddress).entity
    ensures tok.uri == EnrichAtCreate(t, env).uri && tok.imageUri == EnrichAtCreate(t, env).imageUri
  {
    var e := EnrichAtCreate(t, env);
    var lookup := GetContractEntitySpec(c.cache, c.store, t.contractAddress);
    Token(TokenKey(t), ParsedTokenId(t), None, false, e.uri, e.imageUri, lookup.entity)
  }

  /** A Token after a transfer to `t.to`: unlisted, owned by `to`, its uri and image repaired when missing. */
  function Transferred(tok: Token, t: TransferData, env: Env): (r: Token)
    ensures r.owner == Some(t.to) && !r.isListed
    ensures r.id == tok.id && r.tokenId == tok.tokenId && r.contract == tok.contract
    ensures Truthy(tok.uri) && Truthy(tok.imageUri) ==> r.uri == tok.uri && r.imageUri == tok.imageUri
  {
    Repair(tok.(isListed := false, owner := Some(t.to)), t, env)
  }

  /** The Token a transfer leaves under its key: the one the flush holds, or a new one. */
  function TokenAfterTransfer(w: Work, c: World, t: TransferData, env: Env): (r: Token)
    ensures r.owner == Some(t.to) && !r.isListed
    ensures TokenKey(t) in w.tokens ==> r.id == w.tokens[TokenKey(t)].id && r.tokenId == w.tokens[TokenKey(t)].tokenId
    ensures TokenKey(t) !in w.tokens ==> r.id == TokenKey(t) && r.tokenId == t.token
  {
    var key := TokenKey(t);
    Transferred(if key in w.tokens then w.tokens[key] else NewToken(c, t, env), t, env)
  }

  /**
   * One iteration of the `saveTransfers` loop. The from and to Owners exist
   * afterwards (created with balance 0 when missing); the Token exists, is
   * owned by `to` and is not listed; a missing Token is created under its
   * composite key. Exactly one Transfer record is added, and the activities
   * of `AddedByTransfer`.
   */
  function TransferStep(w: Work, c: World, t: TransferData, env: Env): (r: Step)
    ensures r.work.tokens == w.tokens[TokenKey(t) := TokenAfterTransfer(w, c, t, env)]
    ensures r.work.owners == EnsureOwner(EnsureOwner(w.owners, t.from), t.to)
    ensures r.work.transfers == w.transfers + [MakeTransfer(t, TokenKey(t))]
    ensures r.work.activities == w.activities + AddedByTransfer(w, c, t)
    ensures r.world == WorldAfterTransfer(w, c, t)
  {
    var key := TokenKey(t);
    var owners := EnsureOwner(EnsureOwner(w.owners, t.from), t.to);
    var tokens := w.tokens[key := TokenAfterTransfer(w, c, t, env)];
    Step(Work(owners, tokens, w.transfers + [MakeTransfer(t, key)], w.activities + AddedByTransfer(w, c, t)), WorldAfterTransfer(w, c, t))
  }

  /** The `saveTransfers` loop over `ts`, from working state `w` and world `c`. */
  function TransferLoop(w: Work, c: World, ts: seq<TransferData>, env: Env): Step
    decreases |ts|
  {
    if ts == [] then Step(w, c)
    else
      var s := TransferLoop(w, c, ts[..|ts| - 1], env);
      TransferStep(s.work, s.world, ts[|ts| - 1], env)
  }

  /** The token keys a batch of transfers refers to (`tokensIds`). */
  function TokenIds(ts: seq<TransferData>): set<string> {
    if ts == [] then {} else TokenIds(ts[..|ts| - 1]) + {TokenKey(ts[|ts| - 1])}
  }

  /** The owner addresses a batch of transfers refers to (`ownersIds`). */
  function OwnerIds(ts: seq<TransferData>): set<string> {
    if ts == [] then {} else OwnerIds(ts[..|ts| - 1]) + {ts[|ts| - 1].from, ts[|ts| - 1].to}
  }

  function TransferStart(s: StoreState, ts: seq<TransferData>): Work {
    Work(Restrict(s.owners, OwnerIds(ts)), Restrict(s.tokens, TokenIds(ts)), [], [])
  }

  /** Owners, then Tokens, then Transfers, then Activities. */
  function CommitTransfers(s: StoreState, w: Work): StoreState {
    PutActivities(PutTransfers(PutTokens(PutOwners(s, w.owners), w.tokens), w.transfers), w.activities)
  }

  /** `saveTransfers(ctx, ts)`: preload, the loop, then the four writes. */
  function SaveTransfersSpec(c: World, ts: seq<TransferData>, env: Env): World {
    var s := TransferLoop(TransferStart(c.store, ts), c, ts, env);
    World(CommitTransfers(s.world.store, s.work), s.world.cache)
  }

  /** Every write from index `n` on is a contract insert. */
  predicate InsertsFrom(ws: seq<Write>, n: nat) {
    forall i :: n <= i < |ws| ==> ws[i].ContractInserted?
  }

  /** The world a transfer loop ends in: the same tables, possibly more contracts, a grown cache. */
  lemma {:induction false} TransferLoopWorld(w: Work, c: World, ts: seq<TransferData>, env: Env)
    ensures var d := TransferLoop(w, c, ts, env).world;
      && d.store.owners == c.store.owners
      && d.store.tokens == c.store.tokens
      && d.store.transfers == c.store.transfers
      && d.store.activities == c.store.activities
      && c.store.contracts.Keys <= d.store.contracts.Keys
      && c.cache.Keys <= d.cache.Keys
      && (forall a :: a in c.cache ==> d.cache[a] == c.cache[a])
    decreases |ts|
  {
    if ts != [] {
      TransferLoopWorld(w, c, ts[..|ts| - 1], env);
    }
  }

  /** `j` keeps the writes of `base` and adds contract inserts only. */
  predicate ExtendsByInserts(base: seq<Write>, j: seq<Write>) {
    && |base| <= |j|
    && (forall i :: 0 <= i < |base| ==> j[i] == base[i])
    && InsertsFrom(j, |base|)
  }

  /** One more contract insert, or none, keeps a journal an extension by inserts. */
  lemma InsertsGrow(base: seq<Write>, j: seq<Write>, next: seq<Write>, address: string, contract: Contract)
    requires ExtendsByInserts(base, j)
    requires next == j || next == j + [ContractInserted(address, contract)]
    ensures ExtendsByInserts(base, next)
  {
  }

  /** While a transfer loop runs, the only writes made on the store are contract inserts. */
  lemma {:induction false} TransferLoopJournal(w: Work, c: World, ts: seq<TransferData>, env: Env)
    ensures ExtendsByInserts(c.store.journal, TransferLoop(w, c, ts, env).world.store.journal)
    decreases |ts|
  {
    if ts != [] {
      var prefix := ts[..|ts| - 1];
      var t := ts[|ts| - 1];
      TransferLoopJournal(w, c, prefix, env);
      var s := TransferLoop(w, c, prefix, env);
      InsertsGrow(c.store.journal, s.world.store.journal, WorldAfterTransfer(s.work, s.world, t).store.journal,
                  t.contractAddress, CreateContractEntity(t.contractAddress));
    }
  }

  /** The Transfer records a batch produces, one per event, in order. */
  function TransfersOf(ts: seq<TransferData>): (r: seq<Transfer>)
    ensures |r| == |ts|
    ensures forall i :: 0 <= i < |ts| ==> r[i] == MakeTransfer(ts[i], TokenKey(ts[i]))
  {
    if ts == [] then []
    else
      var prefix := ts[..|ts| - 1];
      assert forall i :: 0 <= i < |prefix| ==> prefix[i] == ts[i];
      TransfersOf(prefix) + [MakeTransfer(ts[|ts| - 1], TokenKey(ts[|ts| - 1]))]
  }

  /** A transfer loop adds exactly the batch's Transfer records, in event order. */
  lemma {:induction false} TransferLoopTransfers(w: Work, c: World, ts: seq<TransferData>, env: Env)
    ensures TransferLoop(w, c, ts, env).work.transfers == w.transfers + TransfersOf(ts)
    decreases |ts|
  {
    if ts != [] {
      TransferLoopTransfers(w, c, ts[..|ts| - 1], env);
    }
  }

  /** A transfer loop keeps the activities it started with and adds at most one per event. */
  lemma {:induction false} TransferLoopActivityCount(w: Work, c: World, ts: seq<TransferData>, env: Env)
    ensures var r := TransferLoop(w, c, ts, env).work;
      && |w.activities| <= |r.activities| <= |w.activities| + |ts|
      && r.activities[..|w.activities|] == w.activities
    decreases |ts|
  {
    if ts != [] {
      TransferLoopActivityCount(w, c, ts[..|ts| - 1], env);
    }
  }

  /** The Token map a transfer loop ends with: the preloaded rows plus every key the batch names. */
  lemma {:induction false} TransferLoopTokens(w: Work, c: World, ts: seq<TransferData>, env: Env)
    ensures var r := TransferLoop(w, c, ts, env).work;
      && r.tokens.Keys == w.tokens.Keys + TokenIds(ts)
      && (forall k :: k in w.tokens && k !in TokenIds(ts) ==> r.tokens[k] == w.tokens[k])
    decreases |ts|
  {
    if ts != [] {
      var prefix := ts[..|ts| - 1];
      var t := ts[|ts| - 1];
      TransferLoopTokens(w, c, prefix, env);
      var s := TransferLoop(w, c, prefix, env);
      assert TransferLoop(w, c, ts, env).work.tokens == s.work.tokens[TokenKey(t) := TokenAfterTransfer(s.work, s.world, t, env)];
      assert TokenIds(ts) == TokenIds(prefix) + {TokenKey(t)};
    }
  }

  /** The Owner map after ensuring the `from` and the `to` of every transfer, in order. */
  function OwnersEnsured(owners: map<string, Owner>, ts: seq<TransferData>): map<string, Owner> {
    if ts == [] then owners
    else
      var t := ts[|ts| - 1];
      EnsureOwner(EnsureOwner(OwnersEnsured(owners, ts[..|ts| - 1]), t.from), t.to)
  }

  /** Ensuring the batch's addresses keeps every Owner there was and adds the others at balance 0. */
  lemma {:induction false} OwnersEnsuredFacts(owners: map<string, Owner>, ts: seq<TransferData>)
    ensures var r := OwnersEnsured(owners, ts);
      && r.Keys == owners.Keys + OwnerIds(ts)
      && (forall k :: k in owners ==> r[k] == owners[k])
      && (forall k :: k in r && k !in owners ==> r[k] == Owner(k, 0))
  {
    if ts != [] {
      OwnersEnsuredFacts(owners, ts[..|ts| - 1]);
    }
  }

  /** The Owner map of a transfer loop depends on the addresses alone. */
  lemma {:induction false} TransferLoopOwnersEnsured(w: Work, c: World, ts: seq<TransferData>, env: Env)
    ensures TransferLoop(w, c, ts, env).work.owners == OwnersEnsured(w.owners, ts)
    decreases |ts|
  {
    if ts != [] {
      TransferLoopOwnersEnsured(w, c, ts[..|ts| - 1], env);
    }
  }

  /** The `to` of the last transfer in `ts` whose token key is `key`. */
  function LastTo(ts: seq<TransferData>, key: string): string
    requires key in TokenIds(ts)
  {
    var t := ts[|ts| - 1];
    if TokenKey(t) == key then t.to else LastTo(ts[..|ts| - 1], key)
  }

  /** Every token a batch touches ends owned by the `to` of its last transfer, and not listed. */
  lemma {:induction false} LastTransferDecidesOwner(w: Work, c: World, ts: seq<TransferData>, env: Env)
    ensures var r := TransferLoop(w, c, ts, env).work;
      forall k :: k in TokenIds(ts) ==> k in r.tokens && r.tokens[k].owner == Some(LastTo(ts, k)) && !r.tokens[k].isListed
    decreases |ts|
  {
    if ts != [] {
      LastTransferDecidesOwner(w, c, ts[..|ts| - 1], env);
    }
  }

  /** Every Activity a transfer loop adds has an id the store did not hold when the flush began. */
  lemma {:induction false} TransferLoopActivitiesFresh(w: Work, c: World, ts: seq<TransferData>, env: Env)
    ensures var r := TransferLoop(w, c, ts, env).work;
      && |w.activities| <= |r.activities|
      && forall i :: |w.activities| <= i < |r.activities| ==> r.activities[i].id !in c.store.activities
    decreases |ts|
  {
    if ts != [] {
      var prefix := ts[..|ts| - 1];
      var t := ts[|ts| - 1];
      TransferLoopActivitiesFresh(w, c, prefix, env);
      TransferLoopWorld(w, c, prefix, env);
      var s := TransferLoop(w, c, prefix, env);
      var added := AddedByTransfer(s.work, s.world, t);
      assert forall a :: a in added ==> a.id !in c.store.activities;
    }
  }

  /** Every MINT activity names a token of `tokens`. */
  predicate MintsNamed(acts: seq<Activity>, tokens: map<string, Token>) {
    forall i :: 0 <= i < |acts| && acts[i].kind == MINT ==> acts[i].token.Some? && acts[i].token.value in tokens
  }

  /** No two MINT activities name the same token. */
  predicate MintsDistinct(acts: seq<Activity>) {
    forall i, j :: 0 <= i < j < |acts| && acts[i].kind == MINT && acts[j].kind == MINT ==> acts[i].token != acts[j].token
  }

  /** Appending at most one MINT, for a key the map did not hold and now holds, keeps the MINTs named and distinct. */
  lemma MintsGrow(acts: seq<Activity>, tokens: map<string, Token>, added: seq<Activity>, key: string, tok: Token)
    requires MintsNamed(acts, tokens) && MintsDistinct(acts)
    requires |added| <= 1
    requires forall a :: a in added && a.kind == MINT ==> a.token == Some(key) && key !in tokens
    ensures MintsNamed(acts + added, tokens[key := tok]) && MintsDistinct(acts + added)
  {
    var r := acts + added;
    assert forall i :: 0 <= i < |acts| ==> r[i] == acts[i];
    forall i, j | 0 <= i < j < |r| && r[i].kind == MINT && r[j].kind == MINT
      ensures r[i].token != r[j].token
    {
      if j >= |acts| {
        assert r[j] == added[0];
        assert r[i].token.value in tokens;
      }
    }
    forall i | 0 <= i < |r| && r[i].kind == MINT
      ensures r[i].token.Some? && r[i].token.value in tokens[key := tok]
    {
      if i >= |acts| {
        assert r[i] == added[0];
      }
    }
  }

  lemma MintStep(w: Work, c: World, t: TransferData, env: Env)
    requires MintsNamed(w.activities, w.tokens) && MintsDistinct(w.activities)
    ensures var r := TransferStep(w, c, t, env).work;
      MintsNamed(r.activities, r.tokens) && MintsDistinct(r.activities)
  {
    MintsGrow(w.activities, w.tokens, AddedByTransfer(w, c, t), TokenKey(t), TokenAfterTransfer(w, c, t, env));
  }

  /** Within one flush no two MINT activities name the same token, and every MINT names a token of the working map. */
  lemma {:induction false} MintOncePerToken(w: Work, c: World, ts: seq<TransferData>, env: Env)
    requires MintsNamed(w.activities, w.tokens) && MintsDistinct(w.activities)
    ensures var r := TransferLoop(w, c, ts, env).work;
      MintsNamed(r.activities, r.tokens) && MintsDistinct(r.activities)
    decreases |ts|
  {
    if ts != [] {
      var prefix := ts[..|ts| - 1];
      MintOncePerToken(w, c, prefix, env);
      var s := TransferLoop(w, c, prefix, env);
      MintStep(s.work, s.world, ts[|ts| - 1], env);
    }
  }

  /** `saveTransfers` ends with four writes, Owners, Tokens, Transfers, Activities, after the contract inserts its lookups made. */
  lemma SaveTransfersWriteOrder(c: World, ts: seq<TransferData>, env: Env)
    ensures var j := SaveTransfersSpec(c, ts, env).store.journal;
      && |c.store.journal| + 4 <= |j|
      && (forall i :: 0 <= i < |c.store.journal| ==> j[i] == c.store.journal[i])
      && (forall i :: |c.store.journal| <= i < |j| - 4 ==> j[i].ContractInserted?)
      && j[|j| - 4].OwnersSaved? && j[|j| - 3].TokensSaved? && j[|j| - 2].TransfersSaved? && j[|j| - 1].ActivitiesSaved?
  {
    var w0 := TransferStart(c.store, ts);
    TransferLoopJournal(w0, c, ts, env);
    var s := TransferLoop(w0, c, ts, env);
    var mid := s.world.store.journal;
    var j := SaveTransfersSpec(c, ts, env).store.journal;
    assert j == mid + [OwnersSaved(s.work.owners), TokensSaved(s.work.tokens), TransfersSaved(s.work.transfers), ActivitiesSaved(s.work.activities)];
  }

  /**
   * `stored` holds every Transfer of the batch under its event id (the last
   * event of an id wins) and the Transfers of `before` under other ids.
   */
  predicate HoldsBatch(stored: map<string, Transfer>, before: map<string, Transfer>, ts: seq<TransferData>) {
    && (forall i :: 0 <= i < |ts| ==> ts[i].id in stored)
    && (forall i :: 0 <= i < |ts| && (forall j :: i < j < |ts| ==> ts[j].id != ts[i].id) ==>
          stored[ts[i].id] == MakeTransfer(ts[i], TokenKey(ts[i])))
    && (forall k :: k in before && (forall i :: 0 <= i < |ts| ==> ts[i].id != k) ==>
          k in stored && stored[k] == before[k])
  }

  lemma UpsertHoldsBatch(m: map<string, Transfer>, ts: seq<TransferData>)
    ensures HoldsBatch(Upsert(m, TransfersOf(ts), TransferId), m, ts)
  {
    var rows := TransfersOf(ts);
    assert forall i :: 0 <= i < |ts| ==> TransferId(rows[i]) == ts[i].id && rows[i] == MakeTransfer(ts[i], TokenKey(ts[i]));
    forall i | 0 <= i < |ts|
      ensures ts[i].id in Upsert(m, rows, TransferId)
    {
      UpsertHasRow(m, rows, TransferId, i);
    }
    forall i | 0 <= i < |ts| && (forall j :: i < j < |ts| ==> ts[j].id != ts[i].id)
      ensures Upsert(m, rows, TransferId)[ts[i].id] == MakeTransfer(ts[i], TokenKey(ts[i]))
    {
      UpsertLastRow(m, rows, TransferId, i);
    }
    forall k | k in m && (forall i :: 0 <= i < |ts| ==> ts[i].id != k)
      ensures k in Upsert(m, rows, TransferId) && Upsert(m, rows, TransferId)[k] == m[k]
    {
      UpsertKeepsOther(m, rows, TransferId, k);
    }
  }

  /** After `saveTransfers` the store holds every Transfer of the batch, and the other Transfers as they were. */
  lemma SaveTransfersStoresTransfers(c: World, ts: seq<TransferData>, env: Env)
    ensures HoldsBatch(SaveTransfersSpec(c, ts, env).store.transfers, c.store.transfers, ts)
  {
    var w0 := TransferStart(c.store, ts);
    var s := TransferLoop(w0, c, ts, env);
    TransferLoopTransfers(w0, c, ts, env);
    TransferLoopWorld(w0, c, ts, env);
    assert s.work.transfers == TransfersOf(ts) by {
      assert w0.transfers == [];
    }
    assert SaveTransfersSpec(c, ts, env).store.transfers == Upsert(c.store.transfers, s.work.transfers, TransferId);
    UpsertHoldsBatch(c.store.transfers, ts);
  }

  /** The Owner and Token tables `saveTransfers` leaves: the stored rows overlaid with the loop's maps. */
  lemma SaveTransfersTables(c: World, ts: seq<TransferData>, env: Env)
    ensures var w := TransferLoop(TransferStart(c.store, ts), c, ts, env).work;
      var d := SaveTransfersSpec(c, ts, env).store;
      && d.tokens == c.store.tokens + w.tokens
      && d.owners == c.store.owners + w.owners
      && w.tokens.Keys == TokenIds(ts)
  {
    var w0 := TransferStart(c.store, ts);
    TransferLoopWorld(w0, c, ts, env);
    TransferLoopTokens(w0, c, ts, env);
    assert w0.tokens.Keys <= TokenIds(ts);
  }

  /**
   * After `saveTransfers` the stored Tokens are the old ones and those the
   * batch names; each of the latter is owned by the `to` of its last
   * transfer and not listed.
   */
  lemma SaveTransfersOwnership(c: World, ts: seq<TransferData>, env: Env)
    ensures var d := SaveTransfersSpec(c, ts, env).store;
      && d.tokens.Keys == c.store.tokens.Keys + TokenIds(ts)
      && (forall k :: k in TokenIds(ts) ==> k in d.tokens && d.tokens[k].owner == Some(LastTo(ts, k)) && !d.tokens[k].isListed)
  {
    var w0 := TransferStart(c.store, ts);
    var s := TransferLoop(w0, c, ts, env);
    SaveTransfersTables(c, ts, env);
    LastTransferDecidesOwner(w0, c, ts, env);
  }

  /** `saveTransfers` leaves every stored Token the batch does not name as it was. */
  lemma SaveTransfersLeavesOtherTokens(c: World, ts: seq<TransferData>, env: Env)
    ensures var d := SaveTransfersSpec(c, ts, env).store;
      forall k :: k in c.store.tokens && k !in TokenIds(ts) ==> k in d.tokens && d.tokens[k] == c.store.tokens[k]
  {
    var w0 := TransferStart(c.store, ts);
    var s := TransferLoop(w0, c, ts, env);
    TransferLoopTokens(w0, c, ts, env);
    SaveTransfersTables(c, ts, env);
    assert forall k :: k !in TokenIds(ts) ==> k !in s.work.tokens by {
      assert w0.tokens.Keys <= TokenIds(ts);
    }
  }

  /**
   * A save of Owners that changes no stored Owner, leaves every address of
   * `ids` stored, and adds no other address; the added Owners hold balance 0.
   */
  predicate OwnersKept(before: map<string, Owner>, after: map<string, Owner>, ids: set<string>) {
    && ids <= after.Keys
    && (forall k :: k in before ==> k in after && after[k] == before[k])
    && (forall k :: k in after && k !in before ==> k in ids && after[k] == Owner(k, 0))
  }

  /**
   * Saving an Owner map built from the stored rows of `ids`, where the
   * preloaded rows are unchanged and every other row is a new Owner at
   * balance 0, keeps the stored Owners.
   */
  lemma SaveOwnersMerge(stored: map<string, Owner>, ids: set<string>, r: map<string, Owner>)
    requires r.Keys == (stored.Keys * ids) + ids
    requires forall k :: k in stored && k in ids ==> r[k] == stored[k]
    requires forall k :: k in r && k !in stored ==> r[k] == Owner(k, 0)
    ensures OwnersKept(stored, stored + r, ids)
  {
  }

  /** The Owners a transfer flush preloads and ensures keep the stored Owners when saved. */
  lemma TransferOwnersMerge(stored: map<string, Owner>, ts: seq<TransferData>)
    ensures OwnersKept(stored, stored + OwnersEnsured(Restrict(stored, OwnerIds(ts)), ts), OwnerIds(ts))
  {
    OwnersEnsuredFacts(Restrict(stored, OwnerIds(ts)), ts);
    SaveOwnersMerge(stored, OwnerIds(ts), OwnersEnsured(Restrict(stored, OwnerIds(ts)), ts));
  }

  /**
   * `saveTransfers` never changes a stored Owner, and every address of the
   * batch is a stored Owner afterwards; the new ones hold balance 0.
   */
  lemma SaveTransfersOwners(c: World, ts: seq<TransferData>, env: Env)
    ensures OwnersKept(c.store.owners, SaveTransfersSpec(c, ts, env).store.owners, OwnerIds(ts))
  {
    TransferLoopOwnersEnsured(TransferStart(c.store, ts), c, ts, env);
    SaveTransfersTables(c, ts, env);
    TransferOwnersMerge(c.store.owners, ts);
  }

  /** `saveTransfers` never overwrites a stored Activity: each one it writes has a key the store lacked. */
  lemma SaveTransfersKeepsActivities(c: World, ts: seq<TransferData>, env: Env)
    ensures var d := SaveTransfersSpec(c, ts, env).store;
      && c.store.activities.Keys <= d.activities.Keys
      && (forall k :: k in c.store.activities ==> k in d.activities && d.activities[k] == c.store.activities[k])
  {
    var w0 := TransferStart(c.store, ts);
    var s := TransferLoop(w0, c, ts, env);
    TransferLoopActivitiesFresh(w0, c, ts, env);
    TransferLoopWorld(w0, c, ts, env);
    var d := SaveTransfersSpec(c, ts, env).store;
    assert d.activities == Upsert(c.store.activities, s.work.activities, ActivityId);
    forall k | k in c.store.activities
      ensures k in d.activities && d.activities[k] == c.store.activities[k]
    {
      UpsertKeepsOther(c.store.activities, s.work.activities, ActivityId, k);
    }
  }

  /** A flush of one transfer: the activities it writes are those `AddedByTransfer` gives, and the Token is stored. */
  lemma SingleTransferFlush(c: World, t: TransferData, env: Env)
    ensures var w0 := TransferStart(c.store, [t]);
      var d := SaveTransfersSpec(c, [t], env).store;
      && (TokenKey(t) in w0.tokens <==> TokenKey(t) in c.store.tokens)
      && d.activities == Upsert(c.store.activities, AddedByTransfer(w0, c, t), ActivityId)
      && TokenKey(t) in d.tokens
  {
    assert [t][..0] == [];
    assert TokenIds([t]) == {TokenKey(t)};
    var w0 := TransferStart(c.store, [t]);
    var s := TransferStep(w0, c, t, env);
    assert TransferLoop(w0, c, [t], env) == s;
    assert s.work.activities == AddedByTransfer(w0, c, t) by {
      assert w0.activities == [];
    }
    assert s.world.store.activities == c.store.activities;
    assert SaveTransfersSpec(c, [t], env).store.activities == Upsert(s.world.store.activities, s.work.activities, ActivityId);
  }

  /**
   * Replaying a flush whose transfer minted a Token: the first run stores
   * the MINT activity only; the second finds the Token and, since only the
   * MINT key is stored, adds a TRANSFER activity for the same event.
   */
  lemma ReplayedMintAddsTransferActivity(c: World, t: TransferData, env: Env)
    requires TokenKey(t) !in c.store.tokens
    requires MintKey(t) !in c.store.activities && TransferKey(t) !in c.store.activities
    ensures var once := SaveTransfersSpec(c, [t], env);
      var twice := SaveTransfersSpec(once, [t], env);
      && MintKey(t) in once.store.activities
      && once.store.activities[MintKey(t)].kind == MINT
      && TransferKey(t) !in once.store.activities
      && TransferKey(t) in twice.store.activities
      && twice.store.activities[TransferKey(t)].kind == TRANSFER
  {
    var once := SaveTransfersSpec(c, [t], env);
    SingleTransferFlush(c, t, env);
    var added := AddedByTransfer(TransferStart(c.store, [t]), c, t);
    assert |added| == 1 && added[0].id == MintKey(t) && added[0].kind == MINT;
    assert |MintKey(t)| != |TransferKey(t)|;
    assert once.store.activities == Upsert(c.store.activities, [added[0]], ActivityId);
    assert [added[0]][..0] == [];
    SingleTransferFlush(once, t, env);
    var again := AddedByTransfer(TransferStart(once.store, [t]), once, t);
    assert |again| == 1 && again[0].id == TransferKey(t) && again[0].kind == TRANSFER;
  }

  // ---------------------------------------------------------------------
  // saveSell and saveBuy

  /** The LISTING activity of a Sell; it names the Token only when the flush holds it. */
  function ListingActivity(tokens: set<string>, s: SellData): Activity {
    var key := SellKey(s);
    HandleActivity(LISTING, OfSell(s), if key in tokens then Some(key) else None, Some(s.from), None)
  }

  /** The SOLD activity of a Buy; it names the Token only when the flush holds it. */
  function SoldActivity(tokens: set<string>, b: BuyData): Activity {
    var key := BuyKey(b);
    HandleActivity(SOLD, OfBuy(b), if key in tokens then Some(key) else None, Some(b.from), Some(b.to))
  }

  /** One iteration of the `saveSell` loop: the seller owns the Token, which is listed; an absent Token stays absent. */
  function SellStep(w: Work, s: SellData): Work {
    var key := SellKey(s);
    var tokens := if key in w.tokens then w.tokens[key := w.tokens[key].(owner := Some(s.from), isListed := true)] else w.tokens;
    Work(EnsureOwner(w.owners, s.from), tokens, w.transfers, w.activities + [ListingActivity(w.tokens.Keys, s)])
  }

  /** One iteration of the `saveBuy` loop: the buyer owns the Token, which is no longer listed; an absent Token stays absent. */
  function BuyStep(w: Work, b: BuyData): Work {
    var key := BuyKey(b);
    var tokens := if key in w.tokens then w.tokens[key := w.tokens[key].(owner := Some(b.to), isListed := false)] else w.tokens;
    Work(EnsureOwner(EnsureOwner(w.owners, b.from), b.to), tokens, w.transfers, w.activities + [SoldActivity(w.tokens.Keys, b)])
  }

  function SellLoop(w: Work, ss: seq<SellData>): Work {
    if ss == [] then w else SellStep(SellLoop(w, ss[..|ss| - 1]), ss[|ss| - 1])
  }

  function BuyLoop(w: Work, bs: seq<BuyData>): Work {
    if bs == [] then w else BuyStep(BuyLoop(w, bs[..|bs| - 1]), bs[|bs| - 1])
  }

  function SellKeys(ss: seq<SellData>): set<string> {
    if ss == [] then {} else SellKeys(ss[..|ss| - 1]) + {SellKey(ss[|ss| - 1])}
  }

  /** `saveSell` preloads the sellers only. */
  function SellerIds(ss: seq<SellData>): set<string> {
    if ss == [] then {} else SellerIds(ss[..|ss| - 1]) + {ss[|ss| - 1].from}
  }

  function BuyKeys(bs: seq<BuyData>): set<string> {
    if bs == [] then {} else BuyKeys(bs[..|bs| - 1]) + {BuyKey(bs[|bs| - 1])}
  }

  function BuyerIds(bs: seq<BuyData>): set<string> {
    if bs == [] then {} else BuyerIds(bs[..|bs| - 1]) + {bs[|bs| - 1].from, bs[|bs| - 1].to}
  }

  /** Owners, then Tokens, then Activities. */
  function CommitMarket(s: StoreState, w: Work): StoreState {
    PutActivities(PutTokens(PutOwners(s, w.owners), w.tokens), w.activities)
  }

  function SellStart(s: StoreState, ss: seq<SellData>): Work {
    Work(Restrict(s.owners, SellerIds(ss)), Restrict(s.tokens, SellKeys(ss)), [], [])
  }

  function BuyStart(s: StoreState, bs: seq<BuyData>): Work {
    Work(Restrict(s.owners, BuyerIds(bs)), Restrict(s.tokens, BuyKeys(bs)), [], [])
  }

  /** `saveSell(ctx, ss)`. */
  function SaveSellSpec(s: StoreState, ss: seq<SellData>): StoreState {
    CommitMarket(s, SellLoop(SellStart(s, ss), ss))
  }

  /** `saveBuy(ctx, bs)`. */
  function SaveBuySpec(s: StoreState, bs: seq<BuyData>): StoreState {
    CommitMarket(s, BuyLoop(BuyStart(s, bs), bs))
  }

  /** The LISTING activities of a batch of Sells, one per event, in order. */
  function ListingsOf(tokens: set<string>, ss: seq<SellData>): (r: seq<Activity>)
    ensures |r| == |ss|
  {
    if ss == [] then [] else ListingsOf(tokens, ss[..|ss| - 1]) + [ListingActivity(tokens, ss[|ss| - 1])]
  }

  /** The SOLD activities of a batch of Buys, one per event, in order. */
  function SalesOf(tokens: set<string>, bs: seq<BuyData>): (r: seq<Activity>)
    ensures |r| == |bs|
  {
    if bs == [] then [] else SalesOf(tokens, bs[..|bs| - 1]) + [SoldActivity(tokens, bs[|bs| - 1])]
  }

  /** The i-th LISTING activity is the one of the i-th Sell. */
  lemma {:induction false} ListingsOfAt(tokens: set<string>, ss: seq<SellData>, i: nat)
    requires i < |ss|
    ensures ListingsOf(tokens, ss)[i] == ListingActivity(tokens, ss[i])
  {
    if i < |ss| - 1 {
      ListingsOfAt(tokens, ss[..|ss| - 1], i);
    }
  }

  /** The i-th SOLD activity is the one of the i-th Buy. */
  lemma {:induction false} SalesOfAt(tokens: set<string>, bs: seq<BuyData>, i: nat)
    requires i < |bs|
    ensures SalesOf(tokens, bs)[i] == SoldActivity(tokens, bs[i])
  {
    if i < |bs| - 1 {
      SalesOfAt(tokens, bs[..|bs| - 1], i);
    }
  }

  /** A sell loop creates no Token and adds one LISTING activity per event, in order. */
  lemma {:induction false} SellLoopRecords(w: Work, ss: seq<SellData>)
    ensures var r := SellLoop(w, ss);
      && r.tokens.Keys == w.tokens.Keys
      && r.activities == w.activities + ListingsOf(w.tokens.Keys, ss)
  {
    if ss != [] {
      var prefix := ss[..|ss| - 1];
      SellLoopRecords(w, prefix);
      assert (w.activities + ListingsOf(w.tokens.Keys, prefix)) + [ListingActivity(w.tokens.Keys, ss[|ss| - 1])] ==
        w.activities + (ListingsOf(w.tokens.Keys, prefix) + [ListingActivity(w.tokens.Keys, ss[|ss| - 1])]);
    }
  }

  /** A sell loop keeps the preloaded Owners and adds each new seller at balance 0. */
  lemma {:induction false} SellLoopOwners(w: Work, ss: seq<SellData>)
    ensures var r := SellLoop(w, ss);
      && r.owners.Keys == w.owners.Keys + SellerIds(ss)
      && (forall k :: k in w.owners ==> r.owners[k] == w.owners[k])
      && (forall k :: k in r.owners && k !in w.owners ==> r.owners[k] == Owner(k, 0))
  {
    if ss != [] {
      SellLoopOwners(w, ss[..|ss| - 1]);
    }
  }

  /** A buy loop creates no Token and adds one SOLD activity per event, in order. */
  lemma {:induction false} BuyLoopRecords(w: Work, bs: seq<BuyData>)
    ensures var r := BuyLoop(w, bs);
      && r.tokens.Keys == w.tokens.Keys
      && r.activities == w.activities + SalesOf(w.tokens.Keys, bs)
  {
    if bs != [] {
      var prefix := bs[..|bs| - 1];
      BuyLoopRecords(w, prefix);
      assert (w.activities + SalesOf(w.tokens.Keys, prefix)) + [SoldActivity(w.tokens.Keys, bs[|bs| - 1])] ==
        w.activities + (SalesOf(w.tokens.Keys, prefix) + [SoldActivity(w.tokens.Keys, bs[|bs| - 1])]);
    }
  }

  /** A buy loop keeps the preloaded Owners and adds each new buyer or seller at balance 0. */
  lemma {:induction false} BuyLoopOwners(w: Work, bs: seq<BuyData>)
    ensures var r := BuyLoop(w, bs);
      && r.owners.Keys == w.owners.Keys + BuyerIds(bs)
      && (forall k :: k in w.owners ==> r.owners[k] == w.owners[k])
      && (forall k :: k in r.owners && k !in w.owners ==> r.owners[k] == Owner(k, 0))
  {
    if bs != [] {
      BuyLoopOwners(w, bs[..|bs| - 1]);
    }
  }

  /** The seller of the last Sell of `ss` whose key is `key`. */
  function LastSeller(ss: seq<SellData>, key: string): string
    requires key in SellKeys(ss)
  {
    var s := ss[|ss| - 1];
    if SellKey(s) == key then s.from else LastSeller(ss[..|ss| - 1], key)
  }

  /** The buyer of the last Buy of `bs` whose key is `key`. */
  function LastBuyer(bs: seq<BuyData>, key: string): string
    requires key in BuyKeys(bs)
  {
    var b := bs[|bs| - 1];
    if BuyKey(b) == key then b.to else LastBuyer(bs[..|bs| - 1], key)
  }

  /** Each held Token a batch of Sells names ends owned by its last seller and listed, its other fields untouched. */
  lemma {:induction false} LastSellDecidesListing(w: Work, ss: seq<SellData>)
    ensures var r := SellLoop(w, ss);
      forall k :: k in w.tokens ==>
        k in r.tokens &&
        r.tokens[k] == (if k in SellKeys(ss) then w.tokens[k].(owner := Some(LastSeller(ss, k)), isListed := true) else w.tokens[k])
  {
    if ss != [] {
      SellLoopRecords(w, ss[..|ss| - 1]);
      LastSellDecidesListing(w, ss[..|ss| - 1]);
    }
  }

  /** Each held Token a batch of Buys names ends owned by its last buyer and unlisted, its other fields untouched. */
  lemma {:induction false} LastBuyDecidesOwner(w: Work, bs: seq<BuyData>)
    ensures var r := BuyLoop(w, bs);
      forall k :: k in w.tokens ==>
        k in r.tokens &&
        r.tokens[k] == (if k in BuyKeys(bs) then w.tokens[k].(owner := Some(LastBuyer(bs, k)), isListed := false) else w.tokens[k])
  {
    if bs != [] {
      BuyLoopRecords(w, bs[..|bs| - 1]);
      LastBuyDecidesOwner(w, bs[..|bs| - 1]);
    }
  }

  function ListingKey(s: SellData): string {
    ActivityKey(s.nftContractAddress, s.transactionHash, Decimal(s.tokenId), LISTING)
  }

  function SoldKey(b: BuyData): string {
    ActivityKey(b.nftContractAddress, b.transactionHash, Decimal(b.tokenId), SOLD)
  }

  /**
   * `stored` holds the LISTING activity of every Sell under its natural key
   * (the last Sell of a key wins, so a replayed Sell rewrites its activity),
   * and the activities of `before` under every other key.
   */
  predicate HoldsListings(stored: map<string, Activity>, before: map<string, Activity>, tokens: set<string>, ss: seq<SellData>) {
    && (forall i :: 0 <= i < |ss| ==> ListingKey(ss[i]) in stored)
    && (forall i :: 0 <= i < |ss| && (forall j :: i < j < |ss| ==> ListingKey(ss[j]) != ListingKey(ss[i])) ==>
          stored[ListingKey(ss[i])] == ListingActivity(tokens, ss[i]))
    && (forall k :: k in before && (forall i :: 0 <= i < |ss| ==> ListingKey(ss[i]) != k) ==>
          k in stored && stored[k] == before[k])
  }

  /** The same for the SOLD activities of a batch of Buys. */
  predicate HoldsSales(stored: map<string, Activity>, before: map<string, Activity>, tokens: set<string>, bs: seq<BuyData>) {
    && (forall i :: 0 <= i < |bs| ==> SoldKey(bs[i]) in stored)
    && (forall i :: 0 <= i < |bs| && (forall j :: i < j < |bs| ==> SoldKey(bs[j]) != SoldKey(bs[i])) ==>
          stored[SoldKey(bs[i])] == SoldActivity(tokens, bs[i]))
    && (forall k :: k in before && (forall i :: 0 <= i < |bs| ==> SoldKey(bs[i]) != k) ==>
          k in stored && stored[k] == before[k])
  }

  lemma UpsertHoldsListings(m: map<string, Activity>, tokens: set<string>, ss: seq<SellData>)
    ensures HoldsListings(Upsert(m, ListingsOf(tokens, ss), ActivityId), m, tokens, ss)
  {
    var rows := ListingsOf(tokens, ss);
    forall i | 0 <= i < |ss|
      ensures ActivityId(rows[i]) == ListingKey(ss[i]) && rows[i] == ListingActivity(tokens, ss[i])
    {
      ListingsOfAt(tokens, ss, i);
    }
    forall i | 0 <= i < |ss|
      ensures ListingKey(ss[i]) in Upsert(m, rows, ActivityId)
    {
      UpsertHasRow(m, rows, ActivityId, i);
    }
    forall i | 0 <= i < |ss| && (forall j :: i < j < |ss| ==> ListingKey(ss[j]) != ListingKey(ss[i]))
      ensures Upsert(m, rows, ActivityId)[ListingKey(ss[i])] == ListingActivity(tokens, ss[i])
    {
      UpsertLastRow(m, rows, ActivityId, i);
    }
    forall k | k in m && (forall i :: 0 <= i < |ss| ==> ListingKey(ss[i]) != k)
      ensures k in Upsert(m, rows, ActivityId) && Upsert(m, rows, ActivityId)[k] == m[k]
    {
      UpsertKeepsOther(m, rows, ActivityId, k);
    }
  }

  lemma UpsertHoldsSales(m: map<string, Activity>, tokens: set<string>, bs: seq<BuyData>)
    ensures HoldsSales(Upsert(m, SalesOf(tokens, bs), ActivityId), m, tokens, bs)
  {
    var rows := SalesOf(tokens, bs);
    forall i | 0 <= i < |bs|
      ensures ActivityId(rows[i]) == SoldKey(bs[i]) && rows[i] == SoldActivity(tokens, bs[i])
    {
      SalesOfAt(tokens, bs, i);
    }
    forall i | 0 <= i < |bs|
      ensures SoldKey(bs[i]) in Upsert(m, rows, ActivityId)
    {
      UpsertHasRow(m, rows, ActivityId, i);
    }
    forall i | 0 <= i < |bs| && (forall j :: i < j < |bs| ==> SoldKey(bs[j]) != SoldKey(bs[i]))
      ensures Upsert(m, rows, ActivityId)[SoldKey(bs[i])] == SoldActivity(tokens, bs[i])
    {
      UpsertLastRow(m, rows, ActivityId, i);
    }
    forall k | k in m && (forall i :: 0 <= i < |bs| ==> SoldKey(bs[i]) != k)
      ensures k in Upsert(m, rows, ActivityId) && Upsert(m, rows, ActivityId)[k] == m[k]
    {
      UpsertKeepsOther(m, rows, ActivityId, k);
    }
  }

  /** Whether a Sell's activity names its Token depends only on whether the store held that Token. */
  lemma SellKeysHeld(s: StoreState, ss: seq<SellData>)
    ensures forall x :: x in ss ==> ListingActivity(SellStart(s, ss).tokens.Keys, x) == ListingActivity(s.tokens.Keys, x)
  {
    forall x | x in ss
      ensures SellKey(x) in SellKeys(ss)
    {
      SellKeyListed(ss, x);
    }
  }

  lemma {:induction false} SellKeyListed(ss: seq<SellData>, x: SellData)
    requires x in ss
    ensures SellKey(x) in SellKeys(ss)
  {
    if x != ss[|ss| - 1] {
      assert x in ss[..|ss| - 1] by {
        var i :| 0 <= i < |ss| && ss[i] == x;
        assert ss[..|ss| - 1][i] == x;
      }
      SellKeyListed(ss[..|ss| - 1], x);
    }
  }

  lemma {:induction false} BuyKeyListed(bs: seq<BuyData>, x: BuyData)
    requires x in bs
    ensures BuyKey(x) in BuyKeys(bs)
  {
    if x != bs[|bs| - 1] {
      assert x in bs[..|bs| - 1] by {
        var i :| 0 <= i < |bs| && bs[i] == x;
        assert bs[..|bs| - 1][i] == x;
      }
      BuyKeyListed(bs[..|bs| - 1], x);
    }
  }

  lemma BuyKeysHeld(s: StoreState, bs: seq<BuyData>)
    ensures forall x :: x in bs ==> SoldActivity(BuyStart(s, bs).tokens.Keys, x) == SoldActivity(s.tokens.Keys, x)
  {
    forall x | x in bs
      ensures BuyKey(x) in BuyKeys(bs)
    {
      BuyKeyListed(bs, x);
    }
  }

  /**
   * `saveSell` creates no Token: a stored Token a Sell names ends owned by
   * its last seller and listed; every other Token is unchanged.
   */
  lemma SaveSellTokens(s: StoreState, ss: seq<SellData>)
    ensures var d := SaveSellSpec(s, ss);
      && d.tokens.Keys == s.tokens.Keys
      && (forall k :: k in s.tokens ==>
            k in d.tokens &&
            d.tokens[k] == (if k in SellKeys(ss) then s.tokens[k].(owner := Some(LastSeller(ss, k)), isListed := true) else s.tokens[k]))
  {
    var w0 := SellStart(s, ss);
    var r := SellLoop(w0, ss);
    SellLoopRecords(w0, ss);
    LastSellDecidesListing(w0, ss);
    assert SaveSellSpec(s, ss).tokens == s.tokens + r.tokens;
  }

  /** `saveSell` never changes a stored Owner; every seller is an Owner afterwards, a new one at balance 0. */
  lemma SaveSellOwners(s: StoreState, ss: seq<SellData>)
    ensures OwnersKept(s.owners, SaveSellSpec(s, ss).owners, SellerIds(ss))
  {
    var w0 := SellStart(s, ss);
    var r := SellLoop(w0, ss);
    SellLoopOwners(w0, ss);
    SaveOwnersMerge(s.owners, SellerIds(ss), r.owners);
    assert SaveSellSpec(s, ss).owners == s.owners + r.owners;
  }

  /** `saveSell` stores one LISTING activity per Sell, and keeps the activities of other keys. */
  lemma SaveSellActivities(s: StoreState, ss: seq<SellData>)
    ensures HoldsListings(SaveSellSpec(s, ss).activities, s.activities, s.tokens.Keys, ss)
  {
    var w0 := SellStart(s, ss);
    var r := SellLoop(w0, ss);
    SellLoopRecords(w0, ss);
    assert r.activities == ListingsOf(w0.tokens.Keys, ss) by {
      assert w0.activities == [];
    }
    assert SaveSellSpec(s, ss).activities == Upsert(s.activities, ListingsOf(w0.tokens.Keys, ss), ActivityId);
    UpsertHoldsListings(s.activities, w0.tokens.Keys, ss);
    SellKeysHeld(s, ss);
    assert forall i :: 0 <= i < |ss| ==> ss[i] in ss;
  }

  /** `saveSell` makes three writes: Owners, Tokens, Activities, in that order. */
  lemma SaveSellWriteOrder(s: StoreState, ss: seq<SellData>)
    ensures var j := SaveSellSpec(s, ss).journal;
      && |j| == |s.journal| + 3
      && j[..|s.journal|] == s.journal
      && j[|s.journal|].OwnersSaved? && j[|s.journal| + 1].TokensSaved? && j[|s.journal| + 2].ActivitiesSaved?
  {
    var r := SellLoop(SellStart(s, ss), ss);
    assert SaveSellSpec(s, ss).journal == s.journal + [OwnersSaved(r.owners), TokensSaved(r.tokens), ActivitiesSaved(r.activities)];
  }

  /**
   * `saveBuy` creates no Token: a stored Token a Buy names ends owned by its
   * last buyer and unlisted; every other Token is unchanged.
   */
  lemma SaveBuyTokens(s: StoreState, bs: seq<BuyData>)
    ensures var d := SaveBuySpec(s, bs);
      && d.tokens.Keys == s.tokens.Keys
      && (forall k :: k in s.tokens ==>
            k in d.tokens &&
            d.tokens[k] == (if k in BuyKeys(bs) then s.tokens[k].(owner := Some(LastBuyer(bs, k)), isListed := false) else s.tokens[k]))
  {
    var w0 := BuyStart(s, bs);
    var r := BuyLoop(w0, bs);
    BuyLoopRecords(w0, bs);
    LastBuyDecidesOwner(w0, bs);
    assert SaveBuySpec(s, bs).tokens == s.tokens + r.tokens;
  }

  /** `saveBuy` never changes a stored Owner; every buyer and seller is an Owner afterwards, a new one at balance 0. */
  lemma SaveBuyOwners(s: StoreState, bs: seq<BuyData>)
    ensures OwnersKept(s.owners, SaveBuySpec(s, bs).owners, BuyerIds(bs))
  {
    var w0 := BuyStart(s, bs);
    var r := BuyLoop(w0, bs);
    BuyLoopOwners(w0, bs);
    SaveOwnersMerge(s.owners, BuyerIds(bs), r.owners);
    assert SaveBuySpec(s, bs).owners == s.owners + r.owners;
  }

  /** `saveBuy` stores one SOLD activity per Buy, and keeps the activities of other keys. */
  lemma SaveBuyActivities(s: StoreState, bs: seq<BuyData>)
    ensures HoldsSales(SaveBuySpec(s, bs).activities, s.activities, s.tokens.Keys, bs)
  {
    var w0 := BuyStart(s, bs);
    var r := BuyLoop(w0, bs);
    BuyLoopRecords(w0, bs);
    assert r.activities == SalesOf(w0.tokens.Keys, bs) by {
      assert w0.activities == [];
    }
    assert SaveBuySpec(s, bs).activities == Upsert(s.activities, SalesOf(w0.tokens.Keys, bs), ActivityId);
    UpsertHoldsSales(s.activities, w0.tokens.Keys, bs);
    BuyKeysHeld(s, bs);
    assert forall i :: 0 <= i < |bs| ==> bs[i] in bs;
  }

  /** `saveBuy` makes three writes: Owners, Tokens, Activities, in that order. */
  lemma SaveBuyWriteOrder(s: StoreState, bs: seq<BuyData>)
    ensures var j := SaveBuySpec(s, bs).journal;
      && |j| == |s.journal| + 3
      && j[..|s.journal|] == s.journal
      && j[|s.journal|].OwnersSaved? && j[|s.journal| + 1].TokensSaved? && j[|s.journal| + 2].ActivitiesSaved?
  {
    var r := BuyLoop(BuyStart(s, bs), bs);
    assert SaveBuySpec(s, bs).journal == s.journal + [OwnersSaved(r.owners), TokensSaved(r.tokens), ActivitiesSaved(r.activities)];
  }

  /** A stored Token listed by a Sell and then bought: listed by the seller after the first flush, the buyer's and unlisted after the second. */
  lemma SellThenBuy(s: StoreState, sell: SellData, buy: BuyData)
    requires SellKey(sell) == BuyKey(buy) && SellKey(sell) in s.tokens
    ensures var key := SellKey(sell);
      var listed := SaveSellSpec(s, [sell]);
      var sold := SaveBuySpec(listed, [buy]);
      && key in listed.tokens && listed.tokens[key].owner == Some(sell.from) && listed.tokens[key].isListed
      && key in sold.tokens && sold.tokens[key].owner == Some(buy.to) && !sold.tokens[key].isListed
  {
    var key := SellKey(sell);
    assert [sell][..0] == [] && [buy][..0] == [];
    assert SellKeys([sell]) == {key};
    assert LastSeller([sell], key) == sell.from;
    assert BuyKeys([buy]) == {key};
    assert LastBuyer([buy], key) == buy.to;
    SaveSellTokens(s, [sell]);
    SaveBuyTokens(SaveSellSpec(s, [sell]), [buy]);
  }

  // ---------------------------------------------------------------------
  // saveTicketPass and saveDevTicketPass

  /** The start id and the quantity of one ticket mint. */
  datatype MintRange = MintRange(start: nat, quantity: nat)

  /** The range a ticket mint covers. */
  function TicketRange(m: TicketMintData): MintRange {
    MintRange(m.startTokenID, m.quantity)
  }

  /** The range a developer mint covers. */
  function DevTicketRange(m: DevTicketMintData): MintRange {
    MintRange(m.startTokenID, m.quantity)
  }

  /** The ranges of a batch of mints, one per mint and in order. */
  function Ranges<M>(mints: seq<M>, range: M -> MintRange): (r: seq<MintRange>)
    ensures |r| == |mints|
    ensures forall i :: 0 <= i < |mints| ==> r[i] == range(mints[i])
  {
    seq(|mints|, i requires 0 <= i < |mints| => range(mints[i]))
  }

  /** `Array.from(new Array(quantity), (x, i) => i + startTokenID)`: `quantity` consecutive ids from the start id. */
  function TokenIdRange(start: nat, quantity: nat): (ids: seq<nat>)
    ensures |ids| == quantity
    ensures forall i :: 0 <= i < quantity ==> ids[i] == start + i
  {
    seq(quantity, i requires 0 <= i < quantity => start + i)
  }

  /** The ids the mints of a batch cover, mint by mint. */
  function MintedIds(ranges: seq<MintRange>): seq<nat> {
    if ranges == [] then []
    else MintedIds(ranges[..|ranges| - 1]) + TokenIdRange(ranges[|ranges| - 1].start, ranges[|ranges| - 1].quantity)
  }

  function TotalQuantity(ranges: seq<MintRange>): nat {
    if ranges == [] then 0 else TotalQuantity(ranges[..|ranges| - 1]) + ranges[|ranges| - 1].quantity
  }

  /** A batch of mints covers as many ids as its quantities add up to, each inside the range of some mint. */
  lemma {:induction false} MintedIdsCover(ranges: seq<MintRange>)
    ensures |MintedIds(ranges)| == TotalQuantity(ranges)
    ensures forall n :: n in MintedIds(ranges) ==>
      exists j :: 0 <= j < |ranges| && ranges[j].start <= n < ranges[j].start + ranges[j].quantity
  {
    if ranges != [] {
      var prefix := ranges[..|ranges| - 1];
      var last := ranges[|ranges| - 1];
      MintedIdsCover(prefix);
      forall n | n in MintedIds(ranges)
        ensures exists j :: 0 <= j < |ranges| && ranges[j].start <= n < ranges[j].start + ranges[j].quantity
      {
        if n in MintedIds(prefix) {
          var j :| 0 <= j < |prefix| && prefix[j].start <= n < prefix[j].start + prefix[j].quantity;
          assert ranges[j] == prefix[j];
        } else {
          var ids := TokenIdRange(last.start, last.quantity);
          assert n in ids;
          var i :| 0 <= i < |ids| && ids[i] == n;
          assert ranges[|ranges| - 1].start <= n < ranges[|ranges| - 1].start + ranges[|ranges| - 1].quantity;
        }
      }
    }
  }

  /**
   * The two nested loops of `saveTicketPass`: for each mint, the ids of its
   * range in increasing order. Each id is visited once (the POST that
   * would use it is commented out in the source); `visited` records them.
   */
  method VisitRanges(ranges: seq<MintRange>) returns (visited: seq<nat>)
    ensures visited == MintedIds(ranges)
  {
    visited := [];
    for m := 0 to |ranges|
      invariant visited == MintedIds(ranges[..m])
    {
      assert ranges[..m + 1][..m] == ranges[..m];
      var tokenIds := TokenIdRange(ranges[m].start, ranges[m].quantity);
      ghost var before := visited;
      for k := 0 to |tokenIds|
        invariant visited == before + tokenIds[..k]
      {
        visited := visited + [tokenIds[k]];
        assert tokenIds[..k + 1] == tokenIds[..k] + [tokenIds[k]];
      }
      assert tokenIds[..|tokenIds|] == tokenIds;
    }
    assert ranges[..|ranges|] == ranges;
  }

  /** `saveTicketPass(ctx, mints)`: the ids of every mint's range, mint by mint. */
  method SaveTicketPass(mints: seq<TicketMintData>) returns (visited: seq<nat>)
    ensures visited == MintedIds(Ranges(mints, TicketRange))
  {
    visited := VisitRanges(Ranges(mints, TicketRange));
  }

  /** `saveDevTicketPass(ctx, mints)`: the same walk over the developer mints. */
  method SaveDevTicketPass(mints: seq<DevTicketMintData>) returns (visited: seq<nat>)
    ensures visited == MintedIds(Ranges(mints, DevTicketRange))
  {
    visited := VisitRanges(Ranges(mints, DevTicketRange));
  }

  // ---------------------------------------------------------------------
  // The flushes as methods on the store

  /** The two `if`s that pick the image of a metadata document. */
  method ChooseImage(data: TokenMetadata) returns (imageUri: Option<string>)
    ensures imageUri == SelectImage(data)
  {
    imageUri := None;
    if Truthy(data.image_alt) {
      imageUri := data.image_alt;
    }
    if Truthy(data.image) {
      imageUri := data.image;
    }
  }

  /** The first loop of `saveSell`: the token keys and the sellers the batch names. */
  method CollectSellIds(ss: seq<SellData>) returns (tokenIds: set<string>, ownerIds: set<string>)
    ensures tokenIds == SellKeys(ss) && ownerIds == SellerIds(ss)
  {
    tokenIds, ownerIds := {}, {};
    for i := 0 to |ss|
      invariant tokenIds == SellKeys(ss[..i]) && ownerIds == SellerIds(ss[..i])
    {
      assert ss[..i + 1][..i] == ss[..i];
      tokenIds := tokenIds + {CollectionTokenId(ss[i].nftContractAddress, Decimal(ss[i].tokenId))};
      ownerIds := ownerIds + {ss[i].from};
    }
    assert ss[..|ss|] == ss;
  }

  /** The main loop of `saveSell` over the preloaded maps. */
  method SellPass(w0: Work, ss: seq<SellData>) returns (w: Work)
    ensures w == SellLoop(w0, ss)
  {
    var owners, tokens, activities := w0.owners, w0.tokens, w0.activities;
    for i := 0 to |ss|
      invariant SellLoop(w0, ss[..i]) == Work(owners, tokens, w0.transfers, activities)
    {
      assert ss[..i + 1][..i] == ss[..i];
      var sell := ss[i];
      if sell.from !in owners {
        owners := owners[sell.from := Owner(sell.from, 0)];
      }
      var key := CollectionTokenId(sell.nftContractAddress, Decimal(sell.tokenId));
      var token: Option<string> := None;
      if key in tokens {
        token := Some(key);
        tokens := tokens[key := tokens[key].(owner := Some(sell.from), isListed := true)];
      }
      activities := activities + [HandleActivity(LISTING, OfSell(sell), token, Some(sell.from), None)];
    }
    assert ss[..|ss|] == ss;
    w := Work(owners, tokens, w0.transfers, activities);
  }

  /** The three writes that end `saveSell` and `saveBuy`. */
  method CommitMarketWork(store: Store, w: Work)
    modifies store
    ensures store.View() == CommitMarket(old(store.View()), w)
  {
    store.SaveOwners(w.owners);
    store.SaveTokens(w.tokens);
    store.SaveActivities(w.activities);
  }

  /** `saveSell` on the store. */
  method SaveSell(store: Store, ss: seq<SellData>)
    modifies store
    ensures store.View() == SaveSellSpec(old(store.View()), ss)
  {
    var tokenIds, ownerIds := CollectSellIds(ss);
    var tokens := store.FindTokens(tokenIds);
    var owners := store.FindOwners(ownerIds);
    assert Work(owners, tokens, [], []) == SellStart(store.View(), ss);
    var w := SellPass(Work(owners, tokens, [], []), ss);
    CommitMarketWork(store, w);
  }

  /** The first loop of `saveBuy`: the token keys, the sellers and the buyers the batch names. */
  method CollectBuyIds(bs: seq<BuyData>) returns (tokenIds: set<string>, ownerIds: set<string>)
    ensures tokenIds == BuyKeys(bs) && ownerIds == BuyerIds(bs)
  {
    tokenIds, ownerIds := {}, {};
    for i := 0 to |bs|
      invariant tokenIds == BuyKeys(bs[..i]) && ownerIds == BuyerIds(bs[..i])
    {
      assert bs[..i + 1][..i] == bs[..i];
      tokenIds := tokenIds + {CollectionTokenId(bs[i].nftContractAddress, Decimal(bs[i].tokenId))};
      ownerIds := ownerIds + {bs[i].from, bs[i].to};
    }
    assert bs[..|bs|] == bs;
  }

  /** The main loop of `saveBuy` over the preloaded maps. */
  method BuyPass(w0: Work, bs: seq<BuyData>) returns (w: Work)
    ensures w == BuyLoop(w0, bs)
  {
    var owners, tokens, activities := w0.owners, w0.tokens, w0.activities;
    for i := 0 to |bs|
      invariant BuyLoop(w0, bs[..i]) == Work(owners, tokens, w0.transfers, activities)
    {
      assert bs[..i + 1][..i] == bs[..i];
      var buy := bs[i];
      if buy.from !in owners {
        owners := owners[buy.from := Owner(buy.from, 0)];
      }
      if buy.to !in owners {
        owners := owners[buy.to := Owner(buy.to, 0)];
      }
      var key := CollectionTokenId(buy.nftContractAddress, Decimal(buy.tokenId));
      var token: Option<string> := None;
      if key in tokens {
        token := Some(key);
        tokens := tokens[key := tokens[key].(owner := Some(buy.to), isListed := false)];
      }
      activities := activities + [HandleActivity(SOLD, OfBuy(buy), token, Some(buy.from), Some(buy.to))];
    }
    assert bs[..|bs|] == bs;
    w := Work(owners, tokens, w0.transfers, activities);
  }

  /** `saveBuy` on the store. */
  method SaveBuy(store: Store, bs: seq<BuyData>)
    modifies store
    ensures store.View() == SaveBuySpec(old(store.View()), bs)
  {
    var tokenIds, ownerIds := CollectBuyIds(bs);
    var tokens := store.FindTokens(tokenIds);
    var owners := store.FindOwners(ownerIds);
    assert Work(owners, tokens, [], []) == BuyStart(store.View(), bs);
    var w := BuyPass(Work(owners, tokens, [], []), bs);
    CommitMarketWork(store, w);
  }

  /** The `getTokenURI` call and metadata fetch made before a Token is created. */
  method FetchAtCreate(t: TransferData, env: Env) returns (e: Enriched)
    ensures e == EnrichAtCreate(t, env)
  {
    var uri: Option<string> := None;
    var imageUri: Option<string> := None;
    var fetched := GetTokenURI(t.contractAddress, UriAnswers(env, t, AtCreate));
    if fetched.Ok? {
      uri := Some(fetched.value);
      if !Contains(fetched.value, HttpsScheme) {
        var data := env.metadata(t.id, AtCreate, fetched.value);
        if data.Some? {
          imageUri := ChooseImage(data.value);
        }
      }
    }
    e := Enriched(uri, imageUri);
  }

  /** The repair made when a Token's uri or image is missing. */
  method RepairToken(token: Token, t: TransferData, env: Env) returns (r: Token)
    ensures r == Repair(token, t, env)
  {
    r := token;
    if !Truthy(token.uri) || !Truthy(token.imageUri) {
      var fetched := GetTokenURI(t.contractAddress, UriAnswers(env, t, AtRepair));
      if fetched.Ok? && !Contains(fetched.value, HttpsScheme) {
        r := r.(uri := Some(fetched.value));
        var data := env.metadata(t.id, AtRepair, fetched.value);
        if data.Some? {
          var imageUri := ChooseImage(data.value);
          r := r.(imageUri := imageUri);
        }
      }
    }
  }

  /** The branch of a `saveTransfers` iteration for a Token the flush does not hold yet. */
  method CreateToken(store: Store, registry: ContractRegistry, w: Work, t: TransferData, env: Env) returns (token: Token, added: seq<Activity>)
    requires TokenKey(t) !in w.tokens
    modifies store, registry
    ensures token == NewToken(World(old(store.View()), old(registry.cache)), t, env)
    ensures added == AddedByTransfer(w, World(old(store.View()), old(registry.cache)), t)
    ensures World(store.View(), registry.cache) == WorldAfterTransfer(w, World(old(store.View()), old(registry.cache)), t)
  {
    ghost var c := World(store.View(), registry.cache);
    var key := CollectionTokenId(t.contractAddress, Decimal(t.token));
    var e := FetchAtCreate(t, env);
    var contract := registry.GetContractEntity(store, t.contractAddress);
    token := Token(key, ParsedTokenId(t), None, false, e.uri, e.imageUri, contract);
    var minted := store.GetActivity(MintKey(t));
    added := [];
    if minted.None? {
      added := [HandleActivity(MINT, OfTransfer(t), Some(key), Some(t.from), Some(t.to))];
    }
  }

  /** One iteration of the `saveTransfers` loop, on the store and the contract cache. */
  method TransferOne(store: Store, registry: ContractRegistry, w: Work, t: TransferData, env: Env) returns (r: Work)
    modifies store, registry
    ensures Step(r, World(store.View(), registry.cache)) == TransferStep(w, World(old(store.View()), old(registry.cache)), t, env)
  {
    ghost var c := World(store.View(), registry.cache);
    var owners := w.owners;
    if t.from !in owners {
      owners := owners[t.from := Owner(t.from, 0)];
    }
    if t.to !in owners {
      owners := owners[t.to := Owner(t.to, 0)];
    }
    var tokens := w.tokens;
    var key := CollectionTokenId(t.contractAddress, Decimal(t.token));
    // `activityEntity` is set once a MINT activity was looked up
    var found := false;
    var token: Token;
    var added: seq<Activity> := [];
    if key !in tokens {
      token, added := CreateToken(store, registry, w, t, env);
      found := true;
    } else {
      token := tokens[key];
    }
    token := token.(isListed := false, owner := Some(t.to));
    token := RepairToken(token, t, env);
    tokens := tokens[key := token];
    var transfers := w.transfers + [Transfer(t.id, t.block, t.timestamp, t.transactionHash, t.from, t.to, key)];
    if !found {
      var stored := store.GetActivity(TransferKey(t));
      if stored.None? {
        added := [TransferActivity(t, key)];
      }
    }
    r := Work(owners, tokens, transfers, w.activities + added);
  }

  /** The first loop of `saveTransfers`: the token keys and owner addresses to preload. */
  method CollectTransferIds(ts: seq<TransferData>) returns (tokenIds: set<string>, ownerIds: set<string>)
    ensures tokenIds == TokenIds(ts) && ownerIds == OwnerIds(ts)
  {
    tokenIds, ownerIds := {}, {};
    for i := 0 to |ts|
      invariant tokenIds == TokenIds(ts[..i]) && ownerIds == OwnerIds(ts[..i])
    {
      assert ts[..i + 1][..i] == ts[..i];
      tokenIds := tokenIds + {CollectionTokenId(ts[i].contractAddress, Decimal(ts[i].token))};
      ownerIds := ownerIds + {ts[i].from, ts[i].to};
    }
    assert ts[..|ts|] == ts;
  }

  /** The four saves that end `saveTransfers`. */
  method CommitTransferWork(store: Store, w: Work)
    modifies store
    ensures store.View() == CommitTransfers(old(store.View()), w)
  {
    store.SaveOwners(w.owners);
    store.SaveTokens(w.tokens);
    store.SaveTransfers(w.transfers);
    store.SaveActivities(w.activities);
  }

  /** `saveTransfers` on the store and the contract cache. */
  method SaveTransfers(store: Store, registry: ContractRegistry, ts: seq<TransferData>, env: Env)
    modifies store, registry
    ensures World(store.View(), registry.cache) == SaveTransfersSpec(World(old(store.View()), old(registry.cache)), ts, env)
  {
    ghost var c0 := World(store.View(), registry.cache);
    var tokenIds, ownerIds := CollectTransferIds(ts);
    var tokens := store.FindTokens(tokenIds);
    var owners := store.FindOwners(ownerIds);
    var w := Work(owners, tokens, [], []);
    ghost var w0 := w;
    assert w0 == TransferStart(c0.store, ts);
    for i := 0 to |ts|
      invariant TransferLoop(w0, c0, ts[..i], env) == Step(w, World(store.View(), registry.cache))
    {
      assert ts[..i + 1][..i] == ts[..i];
      w := TransferOne(store, registry, w, ts[i], env);
    }
    assert ts[..|ts|] == ts;
    CommitTransferWork(store, w);
  }
}
