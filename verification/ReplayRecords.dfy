/** Rows of the trade replay store and the atomic map the store is meant to be. */
module ReplayRecords {
  import opened Basics

  type Id = string

  /** The payload `exit_payload_from_position` builds. */
  datatype Exit = Exit(positionId: Id, contractId: Id, reason: Option<string>, price: Option<int>,
                       closedAt: Option<int>, snapshotId: Option<Id>)

  /** The payload `pnl_payload_from_position` builds; money is in units of 0.0001. */
  datatype Pnl = Pnl(realized: int, gross: int, costs: int, entryPrice: int, exitPrice: Option<int>,
                     quantity: int, netEqualsGrossMinusCosts: bool)

  datatype Position = Position(positionId: Id, contractId: Id, closed: bool, exitReason: Option<string>,
                               currentPrice: Option<int>, closedAt: Option<int>, closeSnapshotId: Option<Id>,
                               realized: int, gross: int, costs: int, entryPrice: int, quantity: int)

  function ExitOf(position: Position): Exit {
    Exit(position.positionId, position.contractId, position.exitReason, position.currentPrice,
         position.closedAt, position.closeSnapshotId)
  }

  // The tolerance 1e-6 is below the money unit, so the identity flag is an exact comparison.
  function PnlOf(position: Position): Pnl {
    Pnl(position.realized, position.gross, position.costs, position.entryPrice, position.currentPrice,
        position.quantity, position.realized == position.gross - position.costs)
  }

  /** `fillAccepted` and `fillPositionId` are read out of `paper_fill`; `body` is every other non-exit field. */
  datatype Record = Record(decisionId: Id, fillAccepted: bool, fillPositionId: Option<Id>, body: string,
                           exit: Option<Exit>, pnl: Option<Pnl>)
  {
    predicate Settled() { exit.Some? || pnl.Some? }

    /** The row without its exit and P&L. */
    function Entry(): Record { this.(exit := None, pnl := None) }
  }

  type Rows = map<Id, Record>

  datatype Refusal = AppendOnly | NotClosed | UnknownDecision | ExitRecorded | PositionMismatch

  datatype Reply = Row(row: Record) | Refused(why: Refusal) | Failed

  datatype Op =
    | Get(id: Id)
    | Append(row: Record)
    | RecordCycle(cycle: Record)
    | AttachExit(id: Id, position: Position)
  {
    function Key(): Id {
      match this
      case Get(id) => id
      case Append(row) => row.decisionId
      case RecordCycle(row) => row.decisionId
      case AttachExit(id, _) => id
    }
  }

  /** A fill that names a position (the empty string counts as absent) names this one. */
  predicate FillAllows(row: Record, position: Position) {
    row.fillPositionId.None? || row.fillPositionId.value == "" || row.fillPositionId.value == position.positionId
  }

  function WithExit(row: Record, position: Position): Record {
    row.(exit := Some(ExitOf(position)), pnl := Some(PnlOf(position)))
  }

  /** The reference: one indivisible first-writer-wins map of rows. */
  function Atomic(rows: Rows, op: Op): (result: (Rows, Reply)) {
    match op
    case Get(id) =>
      (rows, if id in rows then Row(rows[id]) else Refused(UnknownDecision))
    case Append(row) =>
      if row.decisionId !in rows then (rows[row.decisionId := row], Row(row))
      else (rows, if rows[row.decisionId] == row then Row(row) else Refused(AppendOnly))
    case RecordCycle(cycle) =>
      if cycle.decisionId !in rows then (rows[cycle.decisionId := cycle.Entry()], Row(cycle.Entry()))
      else (rows, Row(rows[cycle.decisionId]))
    case AttachExit(id, position) =>
      if !position.closed then (rows, Refused(NotClosed))
      else if id !in rows then (rows, Refused(UnknownDecision))
      else if rows[id].Settled() then
        (rows, if rows[id] == WithExit(rows[id], position) then Row(rows[id]) else Refused(ExitRecorded))
      else if !FillAllows(rows[id], position) then (rows, Refused(PositionMismatch))
      else (rows[id := WithExit(rows[id], position)], Row(WithExit(rows[id], position)))
  }

  /** `later` is `earlier`, or `earlier` with the exit and P&L it did not have yet. */
  predicate Earlier(earlier: Record, later: Record) {
    && later.Entry() == earlier.Entry()
    && (earlier.Settled() ==> later == earlier)
  }

  /** The append-only promise between two moments. */
  ghost predicate Extends(before: Rows, after: Rows) {
    forall id <- before :: id in after && Earlier(before[id], after[id])
  }

  ghost predicate Keyed(rows: Rows) {
    forall id <- rows :: rows[id].decisionId == id
  }

  /** Every atomic operation only ever adds a row or settles an unsettled one, and answers with a stored row. */
  lemma AtomicExtends(rows: Rows, op: Op)
    requires Keyed(rows)
    ensures Extends(rows, Atomic(rows, op).0) && Keyed(Atomic(rows, op).0)
    ensures forall id <- Atomic(rows, op).0 :: id != op.Key() ==> id in rows && Atomic(rows, op).0[id] == rows[id]
    ensures Atomic(rows, op).1.Row? ==>
              op.Key() in Atomic(rows, op).0 && Atomic(rows, op).0[op.Key()] == Atomic(rows, op).1.row
    ensures !Atomic(rows, op).1.Row? ==> Atomic(rows, op).0 == rows
    ensures !Atomic(rows, op).1.Failed?
  {
  }

  lemma ExtendsTransitive(a: Rows, b: Rows, c: Rows)
    requires Extends(a, b) && Extends(b, c)
    ensures Extends(a, c)
  {
    forall id <- a
      ensures id in c && Earlier(a[id], c[id])
    {
      assert id in b && Earlier(a[id], b[id]) && Earlier(b[id], c[id]);
    }
  }

  /** Repeating an operation that answered with a row changes nothing and gives the same answer. */
  lemma AtomicRetry(rows: Rows, op: Op)
    requires Keyed(rows) && Atomic(rows, op).1.Row?
    ensures Atomic(Atomic(rows, op).0, op) == Atomic(rows, op)
  {
    AtomicExtends(rows, op);
  }

  // What an exit on a row says, and whose it is.

  /** The row carries this position's exit and P&L, field by field. */
  predicate Recorded(row: Record, p: Position) {
    && row.exit.Some? && row.pnl.Some?
    && row.exit.value.positionId == p.positionId && row.exit.value.contractId == p.contractId
    && row.exit.value.reason == p.exitReason && row.exit.value.price == p.currentPrice
    && row.exit.value.closedAt == p.closedAt && row.exit.value.snapshotId == p.closeSnapshotId
    && row.pnl.value.realized == p.realized && row.pnl.value.gross == p.gross && row.pnl.value.costs == p.costs
    && row.pnl.value.entryPrice == p.entryPrice && row.pnl.value.exitPrice == p.currentPrice
    && row.pnl.value.quantity == p.quantity
    && (row.pnl.value.netEqualsGrossMinusCosts <==> p.realized == p.gross - p.costs)
  }

  lemma RecordedMeans(row: Record, p: Position)
    ensures row == WithExit(row, p) <==> Recorded(row, p)
  {
  }

  /** The fill of the row names a position. */
  predicate Names(row: Record, positionId: Id) { row.fillPositionId == Some(positionId) && positionId != "" }

  /** When an exit is attached: the position is closed, the decision is known, and either its row is still open and its
      fill names this position or none, or the row already says exactly this. */
  lemma AttachExactlyWhen(rows: Rows, id: Id, position: Position)
    ensures Atomic(rows, AttachExit(id, position)).1.Row? <==>
            && position.closed && id in rows
            && (Recorded(rows[id], position)
                || (rows[id].exit.None? && rows[id].pnl.None?
                    && forall named :: Names(rows[id], named) ==> named == position.positionId))
    ensures var reply := Atomic(rows, AttachExit(id, position)).1;
            && (reply.Row? ==> Recorded(reply.row, position))
            && (reply == Refused(NotClosed) <==> !position.closed)
            && (reply == Refused(UnknownDecision) <==> position.closed && id !in rows)
            && (reply == Refused(PositionMismatch) <==>
                  && position.closed && id in rows && rows[id].exit.None? && rows[id].pnl.None?
                  && exists named :: Names(rows[id], named) && named != position.positionId)
  {
    if id in rows {
      RecordedMeans(rows[id], position);
      RecordedMeans(WithExit(rows[id], position), position);
      assert rows[id].fillPositionId.Some? && rows[id].fillPositionId.value != "" ==>
          Names(rows[id], rows[id].fillPositionId.value);
    }
  }

  /** A read answers exactly for what is on disk; a new row is accepted exactly when its decision is new or on disk as
      it is; a cycle always gets the stored row. */
  lemma RecordExactlyWhen(rows: Rows, row: Record)
    ensures Atomic(rows, Get(row.decisionId)).1 == Row(row) <==> row.decisionId in rows && rows[row.decisionId] == row
    ensures Atomic(rows, Append(row)).1.Row? <==> row.decisionId in rows ==> rows[row.decisionId] == row
    ensures Atomic(rows, Append(row)).1.Row? ==> Atomic(rows, Append(row)).1.row == row
    ensures var stored := if row.decisionId in rows then rows[row.decisionId] else row.(exit := None, pnl := None);
            Atomic(rows, RecordCycle(row)) == (rows[row.decisionId := stored], Row(stored))
  {
    if row.decisionId in rows {
      assert rows[row.decisionId := rows[row.decisionId]] == rows;
    }
  }

  /** An exit on a row whose fill names a position is the exit of that position, and its P&L flag says whether net is
      gross minus costs. */
  ghost predicate ExitIsItsFills(row: Record) {
    && (row.Settled() ==>
          && row.exit.Some? && row.pnl.Some?
          && (forall named :: Names(row, named) ==> row.exit.value.positionId == named)
          && (row.pnl.value.netEqualsGrossMinusCosts <==>
                row.pnl.value.realized == row.pnl.value.gross - row.pnl.value.costs))
  }

  ghost predicate ExitsAreTheirFills(rows: Rows) { forall id <- rows :: ExitIsItsFills(rows[id]) }

  lemma AtomicKeepsExits(rows: Rows, op: Op)
    requires ExitsAreTheirFills(rows) && (op.Append? ==> ExitIsItsFills(op.row))
    ensures ExitsAreTheirFills(Atomic(rows, op).0)
  {
    if op.AttachExit? {
      AttachExactlyWhen(rows, op.id, op.position);
    }
  }
}
