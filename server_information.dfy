/**
 * Keeping a Plan server's row in the server table current: an UPDATE keyed
 * by the server's uuid, and an INSERT of the same values only when the
 * UPDATE matched no row. The table is an in-memory map from uuid to row.
 */
module ServerInformation {

  /** The identity of one server of the network, as the transaction receives it. */
  datatype Server = Server(uuid: string, name: string, webAddress: string, maxPlayers: int)

  /** The columns of a server row other than its uuid key. */
  datatype ServerRow = ServerRow(name: string, webAddress: string, active: bool, maxPlayers: int)

  /** A statement with its bound parameters: `UPDATE ... WHERE uuid = ?` or `INSERT` of a full row. */
  datatype Statement = Update(uuid: string, row: ServerRow) | Insert(uuid: string, row: ServerRow)

  /** The row a completed transaction leaves for `server`. */
  function StoredRow(server: Server): ServerRow
  {
    ServerRow(server.name, server.webAddress, true, server.maxPlayers)
  }

  /** Reference definition of the upsert: every old row, and the server's uuid mapped to its fresh row. */
  function Upserted(rows: map<string, ServerRow>, server: Server): map<string, ServerRow>
  {
    map k | k in rows.Keys + {server.uuid} :: if k == server.uuid then StoredRow(server) else rows[k]
  }

  /** The server table: at most one row per uuid, and the statements run against it so far. */
  class ServerTable {
    var rows: map<string, ServerRow>
    var executed: seq<Statement>

    constructor (initial: map<string, ServerRow>)
      ensures rows == initial && executed == []
    {
      rows := initial;
      executed := [];
    }

    /**
     * Runs one statement and reports whether it changed a row. An UPDATE
     * changes the row with its uuid, if there is one; an INSERT adds a row
     * unless the uuid is taken (the uuid column is unique).
     */
    method Execute(st: Statement) returns (changed: bool)
      modifies this
      ensures executed == old(executed) + [st]
      ensures st.Update? ==> changed == (st.uuid in old(rows))
      ensures st.Insert? ==> changed == (st.uuid !in old(rows))
      ensures rows == if changed then old(rows)[st.uuid := st.row] else old(rows)
    {
      executed := executed + [st];
      match st
      case Update(uuid, row) =>
        changed := uuid in rows;
        if changed {
          rows := rows[uuid := row];
        }
      case Insert(uuid, row) =>
        changed := uuid !in rows;
        if changed {
          rows := rows[uuid := row];
        }
    }
  }

  /** `StoreServerInformationTransaction`: the transaction for one server. */
  class StoreServerInformationTransaction {
    const server: Server

    constructor (server: Server)
      ensures this.server == server
    {
      this.server := server;
    }

    /** `updateServerInformation`: the UPDATE statement, keyed by the server's uuid. */
    function UpdateServerInformation(): (st: Statement)
      ensures st.Update? && st.uuid == server.uuid
      ensures st.row.name == server.name && st.row.webAddress == server.webAddress
      ensures st.row.active && st.row.maxPlayers == server.maxPlayers
    {
      Update(server.uuid, StoredRow(server))
    }

    /** `insertServerInformation`: the INSERT statement of the full row. */
    function InsertServerInformation(): (st: Statement)
      ensures st.Insert? && st.uuid == server.uuid
      ensures st.row.name == server.name && st.row.webAddress == server.webAddress
      ensures st.row.active && st.row.maxPlayers == server.maxPlayers
    {
      Insert(server.uuid, StoredRow(server))
    }

    /** Both statements target the server's uuid and bind the same row, with the active flag set. */
    lemma StatementsBindSameRow()
      ensures UpdateServerInformation().uuid == InsertServerInformation().uuid == server.uuid
      ensures UpdateServerInformation().row == InsertServerInformation().row == StoredRow(server)
      ensures UpdateServerInformation().row.active
    {
    }

    /**
     * `performOperations`: UPDATE, and INSERT only when the UPDATE matched no
     * row. The table ends as the reference upsert of the old table.
     */
    method PerformOperations(table: ServerTable)
      modifies table
      ensures table.rows == Upserted(old(table.rows), server)
      ensures table.executed == old(table.executed) +
        if server.uuid in old(table.rows) then [UpdateServerInformation()]
        else [UpdateServerInformation(), InsertServerInformation()]
    {
      var matched := table.Execute(UpdateServerInformation());
      if !matched {
        var inserted := table.Execute(InsertServerInformation());
        assert inserted;
      }
      assert table.rows == Upserted(old(table.rows), server);
    }
  }

  /** After the upsert the server's uuid holds its values, marked active. */
  lemma UpsertStoresServer(rows: map<string, ServerRow>, server: Server)
    ensures server.uuid in Upserted(rows, server)
    ensures Upserted(rows, server)[server.uuid] == StoredRow(server)
    ensures StoredRow(server).active
  {
  }

  /** Every other uuid keeps its row, and no row is removed: the keys become the old keys plus the uuid. */
  lemma UpsertFrame(rows: map<string, ServerRow>, server: Server)
    ensures Upserted(rows, server).Keys == rows.Keys + {server.uuid}
    ensures forall k :: k in rows && k != server.uuid ==> Upserted(rows, server)[k] == rows[k]
  {
  }

  /** The table grows by one row exactly when the uuid was new. */
  lemma UpsertRowCount(rows: map<string, ServerRow>, server: Server)
    ensures |Upserted(rows, server)| == if server.uuid in rows then |rows| else |rows| + 1
  {
    var u := Upserted(rows, server);
    if server.uuid in rows {
      assert u.Keys == rows.Keys;
    } else {
      assert u.Keys == rows.Keys + {server.uuid};
    }
  }

  /** A later run for the same uuid overrides an earlier one; running twice with the same server equals running once. */
  lemma UpsertLatestWins(rows: map<string, ServerRow>, first: Server, second: Server)
    requires first.uuid == second.uuid
    ensures Upserted(Upserted(rows, first), second) == Upserted(rows, second)
    ensures Upserted(Upserted(rows, second), second) == Upserted(rows, second)
  {
  }

  /** Running the transaction twice leaves the table exactly as running it once, the second run taking the UPDATE branch. */
  method PerformTwice(tx: StoreServerInformationTransaction, table: ServerTable)
    modifies table
    ensures table.rows == Upserted(old(table.rows), tx.server)
    ensures |table.executed| > 0 && table.executed[|table.executed| - 1] == tx.UpdateServerInformation()
  {
    tx.PerformOperations(table);
    tx.PerformOperations(table);
    UpsertLatestWins(old(table.rows), tx.server, tx.server);
  }
}
