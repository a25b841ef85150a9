/**
 * The entity store the processor reads and writes (`ctx.store`). It is an
 * external collaborator: `findBy`/`get` read it, `save` upserts by id and
 * `insert` adds one row. The model keeps its tables as maps from id to
 * entity and records every write call in `journal`, so that the order of the
 * writes a flush makes can be stated.
 */
module EntityStore {

  import opened Wrappers
  import opened Entities

  /** One write call on the store. */
  datatype Write =
    | OwnersSaved(owners: map<string, Owner>)
    | TokensSaved(tokens: map<string, Token>)
    | TransfersSaved(transfers: seq<Transfer>)
    | ActivitiesSaved(activities: seq<Activity>)
    | ContractInserted(address: string, contract: Contract)

  /** The store's tables and the writes made on it so far. */
  datatype StoreState = StoreState(
    owners: map<string, Owner>,
    tokens: map<string, Token>,
    transfers: map<string, Transfer>,
    activities: map<string, Activity>,
    contracts: map<string, Contract>,
    journal: seq<Write>)

  /** `findBy(E, { id: In(ids) })`: the rows whose id is in `ids`. */
  function Restrict<V>(m: map<string, V>, ids: set<string>): (r: map<string, V>)
    ensures r.Keys == m.Keys * ids
    ensures forall k :: k in r ==> r[k] == m[k]
  {
    map k | k in m && k in ids :: m[k]
  }

  function Find<V>(m: map<string, V>, id: string): (r: Option<V>)
    ensures r.Some? <==> id in m
    ensures r.Some? ==> r.value == m[id]
  {
    if id in m then Some(m[id]) else None
  }

  /** `save(rows)`: each row in turn replaces the row with its id. */
  function Upsert<V>(m: map<string, V>, rows: seq<V>, id: V -> string): map<string, V> {
    if rows == [] then m
    else
      var last := rows[|rows| - 1];
      Upsert(m, rows[..|rows| - 1], id)[id(last) := last]
  }

  /** After `save(rows)` the id of every row is present. */
  lemma {:induction false} UpsertHasRow<V>(m: map<string, V>, rows: seq<V>, id: V -> string, i: nat)
    requires i < |rows|
    ensures id(rows[i]) in Upsert(m, rows, id)
  {
    if i < |rows| - 1 {
      UpsertHasRow(m, rows[..|rows| - 1], id, i);
    }
  }

  /** After `save(rows)` the id of a row no later row shares holds that row. */
  lemma {:induction false} UpsertLastRow<V>(m: map<string, V>, rows: seq<V>, id: V -> string, i: nat)
    requires i < |rows|
    requires forall j :: i < j < |rows| ==> id(rows[j]) != id(rows[i])
    ensures id(rows[i]) in Upsert(m, rows, id) && Upsert(m, rows, id)[id(rows[i])] == rows[i]
  {
    if i < |rows| - 1 {
      var prefix := rows[..|rows| - 1];
      assert forall j :: i < j < |prefix| ==> prefix[j] == rows[j];
      UpsertLastRow(m, prefix, id, i);
    }
  }

  /** After `save(rows)` an id no row has keeps the row the table had. */
  lemma {:induction false} UpsertKeepsOther<V>(m: map<string, V>, rows: seq<V>, id: V -> string, k: string)
    requires k in m
    requires forall i :: 0 <= i < |rows| ==> id(rows[i]) != k
    ensures k in Upsert(m, rows, id) && Upsert(m, rows, id)[k] == m[k]
  {
    if rows != [] {
      var prefix := rows[..|rows| - 1];
      assert forall i :: 0 <= i < |prefix| ==> prefix[i] == rows[i];
      UpsertKeepsOther(m, prefix, id, k);
    }
  }

  /** After `save(rows)` every id is one the table had or one of a row. */
  lemma {:induction false} UpsertOnlyRows<V>(m: map<string, V>, rows: seq<V>, id: V -> string, k: string)
    requires k in Upsert(m, rows, id)
    ensures k in m || exists i :: 0 <= i < |rows| && id(rows[i]) == k
  {
    if rows != [] && k != id(rows[|rows| - 1]) {
      var prefix := rows[..|rows| - 1];
      UpsertOnlyRows(m, prefix, id, k);
      if k !in m {
        var i :| 0 <= i < |prefix| && id(prefix[i]) == k;
        assert rows[i] == prefix[i];
      }
    }
  }

  function TransferId(t: Transfer): string { t.id }

  function ActivityId(a: Activity): string { a.id }

  function PutOwners(s: StoreState, owners: map<string, Owner>): StoreState {
    s.(owners := s.owners + owners, journal := s.journal + [OwnersSaved(owners)])
  }

  function PutTokens(s: StoreState, tokens: map<string, Token>): StoreState {
    s.(tokens := s.tokens + tokens, journal := s.journal + [TokensSaved(tokens)])
  }

  function PutTransfers(s: StoreState, transfers: seq<Transfer>): StoreState {
    s.(transfers := Upsert(s.transfers, transfers, TransferId), journal := s.journal + [TransfersSaved(transfers)])
  }

  function PutActivities(s: StoreState, activities: seq<Activity>): StoreState {
    s.(activities := Upsert(s.activities, activities, ActivityId), journal := s.journal + [ActivitiesSaved(activities)])
  }

  function PutContract(s: StoreState, address: string, contract: Contract): StoreState {
    s.(contracts := s.contracts[address := contract], journal := s.journal + [ContractInserted(address, contract)])
  }

  class Store {
    var owners: map<string, Owner>
    var tokens: map<string, Token>
    var transfers: map<string, Transfer>
    var activities: map<string, Activity>
    var contracts: map<string, Contract>
    var journal: seq<Write>

    function View(): StoreState
      reads this
    {
      StoreState(owners, tokens, transfers, activities, contracts, journal)
    }

    constructor (initial: StoreState)
      ensures View() == initial
    {
      owners, tokens, transfers := initial.owners, initial.tokens, initial.transfers;
      activities, contracts, journal := initial.activities, initial.contracts, initial.journal;
    }

    method FindOwners(ids: set<string>) returns (r: map<string, Owner>)
      ensures r == Restrict(owners, ids)
    {
      r := map k | k in owners && k in ids :: owners[k];
    }

    method FindTokens(ids: set<string>) returns (r: map<string, Token>)
      ensures r == Restrict(tokens, ids)
    {
      r := map k | k in tokens && k in ids :: tokens[k];
    }

    method GetActivity(id: string) returns (r: Option<Activity>)
      ensures r == Find(activities, id)
    {
      r := if id in activities then Some(activities[id]) else None;
    }

    method GetContract(id: string) returns (r: Option<Contract>)
      ensures r == Find(contracts, id)
    {
      r := if id in contracts then Some(contracts[id]) else None;
    }

    method InsertContract(address: string, contract: Contract)
      modifies this
      ensures View() == PutContract(old(View()), address, contract)
    {
      contracts := contracts[address := contract];
      journal := journal + [ContractInserted(address, contract)];
    }

    method SaveOwners(rows: map<string, Owner>)
      modifies this
      ensures View() == PutOwners(old(View()), rows)
    {
      owners := owners + rows;
      journal := journal + [OwnersSaved(rows)];
    }

    method SaveTokens(rows: map<string, Token>)
      modifies this
      ensures View() == PutTokens(old(View()), rows)
    {
      tokens := tokens + rows;
      journal := journal + [TokensSaved(rows)];
    }

    method SaveTransfers(rows: seq<Transfer>)
      modifies this
      ensures View() == PutTransfers(old(View()), rows)
    {
      transfers := Upsert(transfers, rows, TransferId);
      journal := journal + [TransfersSaved(rows)];
    }

    method SaveActivities(rows: seq<Activity>)
      modifies this
      ensures View() == PutActivities(old(View()), rows)
    {
      activities := Upsert(activities, rows, ActivityId);
      journal := journal + [ActivitiesSaved(rows)];
    }
  }
}
