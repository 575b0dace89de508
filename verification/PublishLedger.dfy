/** The durable ledger of Pinterest publishes: one row per approval-derived operation key.

    A key is reserved before the provider is called, with insert-if-absent on a unique
    index, and every later change is a compare-and-set on the row's status. */
module PublishLedger {
  import opened Wrappers
  import opened ApprovalGateway

  type PinId = nat

  datatype PinStatus = Publishing | Published | Failed | Uncertain

  /** The key "p1-11:<approval>" is represented by the approval id. */
  datatype Row = Row(owner: User, status: PinStatus, pin: Option<PinId>)

  type Ledger = map<ApprovalId, Row>

  datatype ClaimReply = Created(row: Row) | Existing(row: Row) | Unconfirmed

  /** INSERT ... ON CONFLICT DO NOTHING, then a read restricted to the owner's rows. */
  function ClaimCell(cell: Option<Row>, owner: User, fault: Fault): (Option<Row>, ClaimReply) {
    if fault == LostBefore then (cell, Unconfirmed)
    else if cell == None then
      var row := Row(owner, Publishing, None);
      (Some(row), if fault == LostAfter then Unconfirmed else Created(row))
    else
      (cell, if fault == LostAfter || cell.value.owner != owner then Unconfirmed else Existing(cell.value))
  }

  /** UPDATE ... WHERE owner = ? AND key = ? AND status = ?, returning the row or nothing. */
  function TransitionCell(cell: Option<Row>, owner: User, expected: PinStatus, status: PinStatus, pin: Option<PinId>,
          fault: Fault)
    : (Option<Row>, Option<Row>)
  {
    if fault == LostBefore || cell == None || cell.value.owner != owner || cell.value.status != expected
    then (cell, None)
    else
      var row := cell.value.(status := status, pin := if pin.Some? then pin else cell.value.pin);
      (Some(row), if fault == LostAfter then None else Some(row))
  }

  function ReadCell(cell: Option<Row>, owner: User): Option<Row> {
    if cell.Some? && cell.value.owner == owner then cell else None
  }

  function Cell(ledger: Ledger, key: ApprovalId): Option<Row> {
    if key in ledger then Some(ledger[key]) else None
  }

  function SetCell(ledger: Ledger, key: ApprovalId, cell: Option<Row>): Ledger {
    match cell
    case None => ledger
    case Some(row) => ledger[key := row]
  }

  class PinPublishStore {
    var rows: Ledger

    constructor ()
      ensures rows == map[]
    {
      rows := map[];
    }

    method Claim(owner: User, key: ApprovalId, fault: Fault) returns (reply: ClaimReply)
      modifies this
      ensures var (cell, r) := ClaimCell(Cell(old(rows), key), owner, fault);
              reply == r && rows == SetCell(old(rows), key, cell)
    {
      if fault == LostBefore {
        return Unconfirmed;
      }
      if key !in rows {
        var record := Row(owner, Publishing, None);
        rows := rows[key := record];
        return if fault == LostAfter then Unconfirmed else Created(record);
      }
      var existing := GetByOperationKey(owner, key);
      assert rows == rows[key := rows[key]];
      if fault == LostAfter || existing == None {
        return Unconfirmed;
      }
      return Existing(existing.value);
    }

    method Transition(owner: User, key: ApprovalId, expected: PinStatus, status: PinStatus, pin: Option<PinId>,
            fault: Fault)
      returns (updated: Option<Row>)
      modifies this
      ensures var (cell, u) := TransitionCell(Cell(old(rows), key), owner, expected, status, pin, fault);
              updated == u && rows == SetCell(old(rows), key, cell)
    {
      if key in rows {
        assert rows == rows[key := rows[key]];
      }
      if fault == LostBefore || key !in rows || rows[key].owner != owner || rows[key].status != expected {
        return None;
      }
      var record := rows[key];
      record := record.(status := status);
      if pin.Some? {
        record := record.(pin := pin);
      }
      rows := rows[key := record];
      return if fault == LostAfter then None else Some(record);
    }

    method GetByOperationKey(owner: User, key: ApprovalId) returns (row: Option<Row>)
      ensures row == ReadCell(Cell(rows, key), owner)
    {
      if key in rows && rows[key].owner == owner {
        return Some(rows[key]);
      }
      return None;
    }
  }
}
