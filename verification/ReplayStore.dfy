/** The replay store as one process uses it, with every critical section run to its end. */
module ReplayStore {
  import opened Basics
  import opened ReplayRecords

  class Directory {
    var rows: Rows

    constructor (rows: Rows)
      ensures this.rows == rows
    {
      this.rows := rows;
    }
  }

  class TradeReplayStore {
    const dir: Directory
    var byId: Rows
    /** The keys of `byId` in insertion order. */
    var ids: seq<Id>

    ghost predicate Valid()
      reads this, dir
    {
      && Keyed(dir.rows)
      && (forall id <- byId :: id in dir.rows && Earlier(byId[id], dir.rows[id]))
      && (forall id :: id in ids <==> id in byId)
    }

    /** `_load_existing` over the sorted listing of the directory. */
    constructor (dir: Directory, listing: seq<Id>)
      requires Keyed(dir.rows) && forall id :: id in listing <==> id in dir.rows
      ensures this.dir == dir && Valid() && byId == dir.rows
    {
      this.dir := dir;
      byId := map[];
      ids := [];
      new;
      var n := 0;
      while n < |listing|
        invariant n <= |listing| && this.dir == dir && Valid()
        invariant dir.rows == old(dir.rows)
        invariant forall id :: id in byId <==> id in listing[..n]
        invariant forall id <- byId :: byId[id] == dir.rows[id]
        modifies this
      {
        assert listing[n] in listing;
        Recall(listing[n], dir.rows[listing[n]]);
        n := n + 1;
      }
      assert listing[..n] == listing;
    }

    /** `self._by_id[id] = row` keeps the place of a key that is already there. */
    method Recall(id: Id, row: Record)
      requires forall id :: id in ids <==> id in byId
      modifies this
      ensures byId == old(byId)[id := row]
      ensures forall id :: id in ids <==> id in byId
      ensures old(ids) <= ids
    {
      if id !in byId {
        ids := ids + [id];
      }
      byId := byId[id := row];
    }

    method Get(id: Id) returns (reply: Reply)
      requires Valid()
      modifies this
      ensures Valid() && reply == Atomic(dir.rows, ReplayRecords.Get(id)).1
      ensures byId == if reply.Row? then old(byId)[id := reply.row] else old(byId)
      ensures old(ids) <= ids && (id in old(byId) ==> ids == old(ids))
    {
      if id in dir.rows {
        reply := Row(dir.rows[id]);
        if id in byId {
          byId := byId[id := dir.rows[id]];
        } else {
          Recall(id, dir.rows[id]);
        }
      } else {
        // The source looks in memory here; a valid store remembers no decision that has no file.
        assert id !in byId;
        reply := Refused(UnknownDecision);
      }
    }

    method Append(row: Record) returns (reply: Reply)
      requires Valid()
      modifies this, dir
      ensures Valid() && (dir.rows, reply) == Atomic(old(dir.rows), ReplayRecords.Append(row))
      ensures byId == if reply.Row? then old(byId)[row.decisionId := reply.row] else old(byId)
      ensures old(ids) <= ids
    {
      if row.decisionId in dir.rows {
        var disk := dir.rows[row.decisionId];
        if disk != row {
          return Refused(AppendOnly);
        }
        Recall(row.decisionId, disk);
        return Row(disk);
      }
      dir.rows := dir.rows[row.decisionId := row];
      Recall(row.decisionId, row);
      return Row(row);
    }

    method RecordCycle(cycle: Record) returns (reply: Reply)
      requires Valid()
      modifies this, dir
      ensures Valid() && (dir.rows, reply) == Atomic(old(dir.rows), ReplayRecords.RecordCycle(cycle))
      ensures reply.Row? && byId == old(byId)[cycle.decisionId := reply.row]
      ensures old(ids) <= ids
    {
      var candidate := cycle.Entry();
      if candidate.decisionId in dir.rows {
        reply := Row(dir.rows[candidate.decisionId]);
      } else {
        dir.rows := dir.rows[candidate.decisionId := candidate];
        reply := Row(candidate);
      }
      Recall(candidate.decisionId, reply.row);
    }

    method AttachExit(id: Id, position: Position) returns (reply: Reply)
      requires Valid()
      modifies this, dir
      ensures Valid() && (dir.rows, reply) == Atomic(old(dir.rows), ReplayRecords.AttachExit(id, position))
      ensures byId == if reply.Row? then old(byId)[id := reply.row] else old(byId)
      ensures old(ids) <= ids && (id in old(byId) ==> ids == old(ids))
    {
      if !position.closed {
        return Refused(NotClosed);
      }
      var exitRow, pnlRow := ExitOf(position), PnlOf(position);
      if id !in dir.rows {
        return Refused(UnknownDecision);
      }
      var current := dir.rows[id];
      var updated := current;
      if current.exit.Some? || current.pnl.Some? {
        if current.exit != Some(exitRow) || current.pnl != Some(pnlRow) {
          return Refused(ExitRecorded);
        }
      } else {
        if current.fillPositionId.Some? && current.fillPositionId.value != ""
           && current.fillPositionId.value != position.positionId {
          return Refused(PositionMismatch);
        }
        updated := current.(exit := Some(exitRow), pnl := Some(pnlRow));
        dir.rows := dir.rows[id := updated];
      }
      if id in byId {
        byId := byId[id := updated];
      } else {
        Recall(id, updated);
      }
      return Row(updated);
    }

    /** The dictionary comprehension of `sync_exits_from_paper`, one `get` per known decision. */
    method CollectLinks() returns (links: map<Id, Id>)
      requires Valid()
      modifies this
      ensures Valid() && ids == old(ids) && links == Links(dir.rows, ids)
    {
      links := map[];
      var n := 0;
      while n < |ids|
        invariant n <= |ids| && Valid() && ids == old(ids)
        invariant links == Links(dir.rows, ids[..n])
      {
        assert ids[n] in ids && ids[..n + 1][..n] == ids[..n];
        var reply := Get(ids[n]);
        if Linked(reply.row) {
          links := links[reply.row.fillPositionId.value := ids[n]];
        }
        n := n + 1;
      }
      assert ids[..n] == ids;
    }

    /** `sync_exits_from_paper`: `positions` is the paper book in registry order. */
    method SyncExits(positions: seq<Position>) returns (result: Result<seq<Id>, Refusal>)
      requires Valid()
      modifies this, dir
      ensures Valid() && ids == old(ids)
      ensures (dir.rows, result) == Sync(old(dir.rows), Links(old(dir.rows), old(ids)), positions)
    {
      ghost var start := dir.rows;
      var links := CollectLinks();
      var attached: seq<Id> := [];
      var n := 0;
      while n < |positions|
        invariant n <= |positions| && Valid() && ids == old(ids)
        invariant forall p <- links :: links[p] in ids
        invariant (dir.rows, Ok(attached)) == Sync(start, links, positions[..n])
      {
        SyncStep(start, links, positions, n);
        var step := SyncPosition(links, attached, positions[n]);
        if step.Err? {
          SyncStops(start, links, positions, n);
          return step;
        }
        attached := step.value;
        n := n + 1;
      }
      assert positions[..n] == positions;
      return Ok(attached);
    }

    /** The body of the loop over the paper book. */
    method SyncPosition(links: map<Id, Id>, attached: seq<Id>, position: Position)
      returns (result: Result<seq<Id>, Refusal>)
      requires Valid() && forall p <- links :: links[p] in ids
      modifies this, dir
      ensures Valid() && ids == old(ids)
      ensures (dir.rows, result) == SyncOne(old(dir.rows), Ok(attached), links, position)
    {
      if !position.closed || position.positionId !in links {
        return Ok(attached);
      }
      var reply := AttachExit(links[position.positionId], position);
      AtomicExtends(old(dir.rows), ReplayRecords.AttachExit(links[position.positionId], position));
      if !reply.Row? {
        return Err(reply.why);
      }
      return Ok(attached + [links[position.positionId]]);
    }
  }

  /** An accepted fill that names a position. */
  predicate Linked(row: Record) {
    row.fillAccepted && row.fillPositionId.Some? && row.fillPositionId.value != ""
  }

  /** Position id to decision id; the last decision that names a position wins. */
  function Links(rows: Rows, ids: seq<Id>): (links: map<Id, Id>)
    requires forall id <- ids :: id in rows
    ensures forall p <- links :: links[p] in ids && Linked(rows[links[p]]) && rows[links[p]].fillPositionId.value == p
  {
    if ids == [] then map[]
    else
      var last := ids[|ids| - 1];
      var links := Links(rows, ids[..|ids| - 1]);
      if Linked(rows[last]) then links[rows[last].fillPositionId.value := last] else links
  }

  function SyncOne(rows: Rows, attached: Result<seq<Id>, Refusal>, links: map<Id, Id>, position: Position)
    : (result: (Rows, Result<seq<Id>, Refusal>))
  {
    if attached.Err? || !position.closed || position.positionId !in links then (rows, attached)
    else
      var id := links[position.positionId];
      match Atomic(rows, AttachExit(id, position))
      case (after, Row(_)) => (after, Ok(attached.value + [id]))
      case (after, Refused(why)) => (after, Err(why))
      case (after, Failed) => (after, attached)
  }

  /** Attach the exits of the closed, linked positions one after another; stop at the first refusal. */
  function Sync(rows: Rows, links: map<Id, Id>, positions: seq<Position>): (result: (Rows, Result<seq<Id>, Refusal>))
  {
    if positions == [] then (rows, Ok([]))
    else
      var (before, attached) := Sync(rows, links, positions[..|positions| - 1]);
      SyncOne(before, attached, links, positions[|positions| - 1])
  }

  lemma SyncStep(rows: Rows, links: map<Id, Id>, positions: seq<Position>, n: nat)
    requires n < |positions|
    ensures var (before, attached) := Sync(rows, links, positions[..n]);
            Sync(rows, links, positions[..n + 1]) == SyncOne(before, attached, links, positions[n])
  {
    assert positions[..n + 1][..n] == positions[..n];
  }

  lemma {:induction false} SyncStops(rows: Rows, links: map<Id, Id>, positions: seq<Position>, n: nat)
    requires n < |positions| && Sync(rows, links, positions[..n + 1]).1.Err?
    ensures Sync(rows, links, positions) == Sync(rows, links, positions[..n + 1])
    decreases |positions|
  {
    if n + 1 == |positions| {
      assert positions[..n + 1] == positions;
    } else {
      var front := positions[..|positions| - 1];
      assert front[..n + 1] == positions[..n + 1];
      SyncStops(rows, links, front, n);
    }
  }

  predicate Due(links: map<Id, Id>, position: Position) {
    position.closed && position.positionId in links
  }

  /** The exit and P&L of every closed, linked position are on its decision row. */
  ghost predicate AllSettled(rows: Rows, links: map<Id, Id>, positions: seq<Position>) {
    forall position <- positions :: Due(links, position) ==>
      links[position.positionId] in rows
      && rows[links[position.positionId]] == WithExit(rows[links[position.positionId]], position)
  }

  lemma SettledStays(before: Rows, after: Rows, links: map<Id, Id>, positions: seq<Position>)
    requires Extends(before, after) && AllSettled(before, links, positions)
    ensures AllSettled(after, links, positions)
  {
    forall position <- positions | Due(links, position)
      ensures links[position.positionId] in after
      ensures after[links[position.positionId]] == WithExit(after[links[position.positionId]], position)
    {
      assert Earlier(before[links[position.positionId]], after[links[position.positionId]]);
    }
  }

  /** Attaching an exit leaves it on its row and every other row alone. */
  lemma AttachSettles(before: Rows, id: Id, position: Position)
    requires Keyed(before) && position.closed && Atomic(before, AttachExit(id, position)).1.Row?
    ensures var after := Atomic(before, AttachExit(id, position)).0;
            && after.Keys == before.Keys && id in after && after[id] == WithExit(after[id], position)
            && Keyed(after) && Extends(before, after)
            && forall other <- after :: other != id ==> after[other] == before[other]
  {
  }

  ghost predicate OnlyDue(rows: Rows, after: Rows, links: map<Id, Id>, positions: seq<Position>) {
    && after.Keys == rows.Keys
    && forall id <- after :: after[id] == rows[id] ||
         exists position <- positions :: Due(links, position) && links[position.positionId] == id
  }

  lemma OnlyDueGrows(rows: Rows, before: Rows, after: Rows, links: map<Id, Id>, front: seq<Position>,
                     position: Position, id: Id)
    requires OnlyDue(rows, before, links, front) && after.Keys == before.Keys
    requires Due(links, position) && links[position.positionId] == id
    requires forall other <- after :: other != id ==> after[other] == before[other]
    ensures OnlyDue(rows, after, links, front + [position])
  {
    hide Due;
    assert (front + [position])[|front|] == position;
    assert forall seen <- front :: seen in front + [position];
  }

  lemma SettledGrows(before: Rows, after: Rows, links: map<Id, Id>, front: seq<Position>, position: Position)
    requires AllSettled(before, links, front) && Extends(before, after)
    requires Due(links, position) ==>
               && links[position.positionId] in after
               && after[links[position.positionId]] == WithExit(after[links[position.positionId]], position)
    ensures AllSettled(after, links, front + [position])
  {
    hide Extends, WithExit;
    SettledStays(before, after, links, front);
  }

  lemma ExtendsRefl(rows: Rows)
    ensures Extends(rows, rows)
  {
  }

  /** A successful sync settles every due position's decision, and changes no row of any other decision. */
  lemma {:induction false} SyncSettles(rows: Rows, links: map<Id, Id>, positions: seq<Position>)
    requires Keyed(rows) && Sync(rows, links, positions).1.Ok?
    ensures var after := Sync(rows, links, positions).0;
            && Keyed(after) && Extends(rows, after) && AllSettled(after, links, positions)
            && OnlyDue(rows, after, links, positions)
    decreases |positions|
  {
    hide Atomic, Extends, WithExit, AllSettled, OnlyDue, Keyed;
    if positions == [] {
      NothingDue(rows, links);
    } else {
      var front, position := positions[..|positions| - 1], positions[|positions| - 1];
      SyncSettles(rows, links, front);
      var before, after := Sync(rows, links, front).0, Sync(rows, links, positions).0;
      assert positions == front + [position];
      if Due(links, position) {
        var id := links[position.positionId];
        AtomicExtends(before, AttachExit(id, position));
        AttachSettles(before, id, position);
        ExtendsTransitive(rows, before, after);
        SettledGrows(before, after, links, front, position);
        OnlyDueGrows(rows, before, after, links, front, position, id);
      } else {
        ExtendsRefl(before);
        SettledGrows(before, after, links, front, position);
        OnlyDueStays(rows, after, links, front, position);
      }
    }
  }

  lemma NothingDue(rows: Rows, links: map<Id, Id>)
    ensures AllSettled(rows, links, []) && OnlyDue(rows, rows, links, []) && Extends(rows, rows)
  {
  }

  lemma OnlyDueStays(rows: Rows, after: Rows, links: map<Id, Id>, front: seq<Position>, position: Position)
    requires OnlyDue(rows, after, links, front)
    ensures OnlyDue(rows, after, links, front + [position])
  {
    hide Due;
    assert forall seen <- front :: seen in front + [position];
  }

  /** Syncing again attaches nothing new, refuses nothing, and reports the same decisions. */
  lemma {:induction false} SyncAgain(rows: Rows, after: Rows, links: map<Id, Id>, positions: seq<Position>)
    requires Sync(rows, links, positions).1.Ok?
    requires AllSettled(after, links, positions)
    ensures Sync(after, links, positions) == (after, Sync(rows, links, positions).1)
    decreases |positions|
  {
    if positions != [] {
      var front, position := positions[..|positions| - 1], positions[|positions| - 1];
      assert positions == front + [position];
      SyncAgain(rows, after, links, front);
      if Due(links, position) {
        assert position in positions;
      }
    }
  }

  /** Attaching exits never changes which decision a position is linked to. */
  lemma {:induction false} LinksStay(rows: Rows, after: Rows, ids: seq<Id>)
    requires Extends(rows, after) && forall id <- ids :: id in rows
    ensures (forall id <- ids :: id in after) && Links(after, ids) == Links(rows, ids)
    decreases |ids|
  {
    if ids != [] {
      assert ids[|ids| - 1] in ids;
      assert Earlier(rows[ids[|ids| - 1]], after[ids[|ids| - 1]]);
      LinksStay(rows, after, ids[..|ids| - 1]);
    }
  }

  lemma SyncIsIdempotent(rows: Rows, ids: seq<Id>, positions: seq<Position>)
    requires Keyed(rows) && forall id <- ids :: id in rows
    requires Sync(rows, Links(rows, ids), positions).1.Ok?
    ensures var (after, attached) := Sync(rows, Links(rows, ids), positions);
            && (forall id <- ids :: id in after)
            && Sync(after, Links(after, ids), positions) == (after, attached)
  {
    var links := Links(rows, ids);
    SyncSettles(rows, links, positions);
    LinksStay(rows, Sync(rows, links, positions).0, ids);
    SyncAgain(rows, Sync(rows, links, positions).0, links, positions);
  }

  // Which decision a position is linked to, and when a sync succeeds.

  /** Decision `ids[i]` has an accepted fill that names the position, and no later one has. */
  ghost predicate LastFilling(rows: Rows, ids: seq<Id>, i: nat, positionId: Id)
    requires forall id <- ids :: id in rows
  {
    && i < |ids| && rows[ids[i]].fillAccepted && Names(rows[ids[i]], positionId)
    && forall j :: i < j < |ids| ==> !(rows[ids[j]].fillAccepted && Names(rows[ids[j]], positionId))
  }

  /** A position is linked exactly to the last decision whose accepted fill names it. */
  lemma {:induction false} LinksMeaning(rows: Rows, ids: seq<Id>, positionId: Id, id: Id)
    requires forall id <- ids :: id in rows
    ensures positionId in Links(rows, ids) && Links(rows, ids)[positionId] == id <==>
            exists i: nat :: LastFilling(rows, ids, i, positionId) && ids[i] == id
    decreases |ids|
  {
    if ids != [] {
      var last, front := |ids| - 1, ids[..|ids| - 1];
      LinksMeaning(rows, front, positionId, id);
      if Linked(rows[ids[last]]) && rows[ids[last]].fillPositionId.value == positionId {
        assert LastFilling(rows, ids, last, positionId);
      } else {
        forall i: nat
          ensures LastFilling(rows, ids, i, positionId) <==> LastFilling(rows, front, i, positionId)
        {
          assert i < last ==> ids[i] == front[i];
          assert forall j :: i < j < last ==> ids[j] == front[j];
        }
        assert forall i: nat :: i < last ==> ids[i] == front[i];
      }
    }
  }

  /** Two positions that would write the same exit. */
  predicate SameExit(p: Position, q: Position) {
    && p.positionId == q.positionId && p.contractId == q.contractId && p.exitReason == q.exitReason
    && p.currentPrice == q.currentPrice && p.closedAt == q.closedAt && p.closeSnapshotId == q.closeSnapshotId
    && p.realized == q.realized && p.gross == q.gross && p.costs == q.costs && p.entryPrice == q.entryPrice
    && p.quantity == q.quantity
  }

  /** Every due position whose decision is settled is what that row says, and no two due positions give one decision
      different exits. */
  ghost predicate Compatible(rows: Rows, links: map<Id, Id>, positions: seq<Position>)
    requires forall p <- links :: links[p] in rows
  {
    && (forall p <- positions | Due(links, p) ::
          var row := rows[links[p.positionId]];
          (row.exit.Some? || row.pnl.Some?) ==> Recorded(row, p))
    && (forall p, q | p in positions && q in positions && Due(links, p) && Due(links, q) ::
          links[p.positionId] == links[q.positionId] ==> SameExit(p, q))
  }

  lemma SameExitRecords(row: Record, p: Position, q: Position)
    requires Recorded(row, p)
    ensures Recorded(row, q) <==> SameExit(p, q)
  {
  }

  lemma {:induction false} RefusalsStay(rows: Rows, links: map<Id, Id>, positions: seq<Position>)
    requires positions != [] && Sync(rows, links, positions[..|positions| - 1]).1.Err?
    ensures Sync(rows, links, positions).1.Err?
  {
  }

  lemma AttachNeverFails(rows: Rows, id: Id, position: Position)
    ensures !Atomic(rows, AttachExit(id, position)).1.Failed?
  {
  }

  /** What the last position of a sync meets, when all before it were attached. */
  lemma LastOk(rows: Rows, before: Rows, links: map<Id, Id>, front: seq<Position>, position: Position)
    requires Keyed(before) && Extends(rows, before) && AllSettled(before, links, front)
    requires OnlyDue(rows, before, links, front)
    requires forall p <- links :: links[p] in rows && Names(rows[links[p]], p)
    requires Compatible(rows, links, front) && Due(links, position)
    ensures Atomic(before, AttachExit(links[position.positionId], position)).1.Row? <==>
            Compatible(rows, links, front + [position])
  {
    hide Atomic, Keyed, Recorded, SameExit;
    var id := links[position.positionId];
    var all := front + [position];
    AttachExactlyWhen(before, id, position);
    assert Earlier(rows[id], before[id]);
    assert forall p <- all :: p in front || p == position;
    assert position in all && forall p <- front :: p in all;
    forall p <- front | Due(links, p) && links[p.positionId] == id
      ensures Recorded(before[id], p) && (Recorded(before[id], position) <==> SameExit(p, position))
      ensures SameExit(p, position) <==> SameExit(position, p)
    {
      RecordedMeans(before[id], p);
      SameExitRecords(before[id], p, position);
      SameBothWays(p, position);
    }
    SameBothWays(position, position);
  }

  lemma SameBothWays(p: Position, q: Position)
    ensures SameExit(p, q) <==> SameExit(q, p)
    ensures SameExit(p, p)
  {
  }

  lemma CompatibleFront(rows: Rows, links: map<Id, Id>, front: seq<Position>, position: Position)
    requires forall p <- links :: links[p] in rows
    requires Compatible(rows, links, front + [position])
    ensures Compatible(rows, links, front)
  {
    hide Recorded, SameExit;
    assert forall p <- front :: p in front + [position];
  }

  lemma CompatibleIdle(rows: Rows, links: map<Id, Id>, front: seq<Position>, position: Position)
    requires forall p <- links :: links[p] in rows
    requires Compatible(rows, links, front) && !Due(links, position)
    ensures Compatible(rows, links, front + [position])
  {
    hide Recorded, SameExit;
    assert forall p <- front + [position] :: p in front || p == position;
  }

  /** A sync over any links that name their positions succeeds exactly when the positions are compatible. */
  lemma {:induction false} SyncOkWhen(rows: Rows, links: map<Id, Id>, positions: seq<Position>)
    requires Keyed(rows) && forall p <- links :: links[p] in rows && Names(rows[links[p]], p)
    ensures Sync(rows, links, positions).1.Ok? <==> Compatible(rows, links, positions)
    decreases |positions|
  {
    hide Atomic, Keyed, Compatible, AllSettled, OnlyDue, Extends, Names;
    if positions == [] {
      NothingCompatible(rows, links);
    } else {
      var front, position := positions[..|positions| - 1], positions[|positions| - 1];
      assert positions == front + [position];
      SyncOkWhen(rows, links, front);
      if Sync(rows, links, front).1.Err? {
        RefusalsStay(rows, links, positions);
        if Compatible(rows, links, positions) {
          CompatibleFront(rows, links, front, position);
        }
      } else {
        SyncSettles(rows, links, front);
        var before := Sync(rows, links, front).0;
        if Due(links, position) {
          LastOk(rows, before, links, front, position);
          AttachNeverFails(before, links[position.positionId], position);
        } else {
          CompatibleIdle(rows, links, front, position);
        }
      }
    }
  }

  lemma NothingCompatible(rows: Rows, links: map<Id, Id>)
    requires forall p <- links :: links[p] in rows
    ensures Compatible(rows, links, [])
  {
  }

  /** When `sync_exits_from_paper` succeeds: exactly when no closed, linked position meets a row that is settled with
      other values, and no two of them would settle one decision differently. */
  lemma SyncOkExactlyWhen(rows: Rows, ids: seq<Id>, positions: seq<Position>)
    requires Keyed(rows) && forall id <- ids :: id in rows
    ensures Sync(rows, Links(rows, ids), positions).1.Ok? <==> Compatible(rows, Links(rows, ids), positions)
  {
    SyncOkWhen(rows, Links(rows, ids), positions);
  }
}
