/** What every run of the live loop keeps. */
module LiveLoopSafety {
  import opened Basics
  import FeedReconnect
  import opened LiveLoop

  /** The trades of one contract, in order. */
  function Of(trades: seq<Trade>, contract: Contract): seq<Trade> {
    Filter(trades, (t: Trade) => t.contract == contract)
  }

  /** Buy, sell, buy, sell, …, and each sale sells what was bought. */
  ghost predicate Alternates(trades: seq<Trade>) {
    forall i :: 0 <= i < |trades| ==>
      && (trades[i].Filled? <==> i % 2 == 0)
      && (i % 2 == 1 ==> trades[i].quantity == trades[i - 1].quantity)
  }

  /** Every contract alternates, and the open set holds exactly those with an unmatched fill. */
  ghost predicate Matched(trades: seq<Trade>, open: set<Contract>) {
    forall c: Contract :: Alternates(Of(trades, c)) && (c in open <==> |Of(trades, c)| % 2 == 1)
  }

  /** A position that is not closed has its contract in the open set, and no two such positions share a contract. */
  ghost predicate Holdings(positions: seq<Position>, open: set<Contract>) {
    && (forall i :: 0 <= i < |positions| && !positions[i].state.Closed? ==> positions[i].contract in open)
    && (forall i, j :: 0 <= i < j < |positions| && !positions[i].state.Closed? && !positions[j].state.Closed?
          ==> positions[i].contract != positions[j].contract)
  }

  /** The last trade of the contract bought this quantity. */
  ghost predicate LastBought(trades: seq<Trade>, contract: Contract, quantity: int) {
    var mine := Of(trades, contract);
    mine != [] && mine[|mine| - 1].Filled? && mine[|mine| - 1].quantity == quantity
  }

  /** A position that is not closed holds what its contract's last trade bought. */
  ghost predicate Backed(positions: seq<Position>, trades: seq<Trade>) {
    forall i :: 0 <= i < |positions| && !positions[i].state.Closed? ==>
      LastBought(trades, positions[i].contract, positions[i].quantity)
  }

  /** Every fill happened on a timely snapshot of a healthy session that was not halted. */
  ghost predicate CleanFills(trades: seq<Trade>) {
    forall k :: 0 <= k < |trades| && trades[k].Filled? ==>
      Healthy(trades[k].health, trades[k].timely) && !trades[k].halted
  }

  predicate Resold(a: Trade, b: Trade) { a.Sold? && b.Filled? && a.contract == b.contract }

  /** A contract sold on a snapshot is not bought again on it. */
  ghost predicate NoReentry(trades: seq<Trade>) {
    forall k, l :: 0 <= k < l < |trades| && Resold(trades[k], trades[l]) ==> trades[k].sequence < trades[l].sequence
  }

  ghost predicate UpTo(trades: seq<Trade>, n: int) {
    forall k :: 0 <= k < |trades| ==> trades[k].sequence <= n
  }

  /** Whatever was sold on snapshot `n` is remembered for the rest of its cycle. */
  ghost predicate Remembered(trades: seq<Trade>, closedNow: set<Contract>, n: int) {
    forall k :: 0 <= k < |trades| && trades[k].Sold? && trades[k].sequence == n ==> trades[k].contract in closedNow
  }

  ghost predicate Books(s: Loop) {
    && Matched(s.trades, s.open) && Holdings(s.positions, s.open) && Backed(s.positions, s.trades)
    && CleanFills(s.trades) && NoReentry(s.trades)
  }

  ghost predicate Inv(s: Loop) {
    && Books(s)
    && (if s.lastSequence.None? then s.trades == [] else UpTo(s.trades, s.lastSequence.value))
  }

  /** Inside the cycle of snapshot `n`. */
  ghost predicate Mid(s: Loop, n: int) {
    Books(s) && s.lastSequence == Some(n) && UpTo(s.trades, n) && Remembered(s.trades, s.closedNow, n)
  }

  lemma OfGrows(trades: seq<Trade>, t: Trade)
    ensures forall c: Contract ::
              Of(trades + [t], c) == if t.contract == c then Of(trades, c) + [t] else Of(trades, c)
  {
    hide Filter;
    forall c: Contract
      ensures Of(trades + [t], c) == if t.contract == c then Of(trades, c) + [t] else Of(trades, c)
    {
      FilterConcat(trades, [t], (x: Trade) => x.contract == c);
      FilterOne(t, (x: Trade) => x.contract == c);
    }
  }

  lemma MatchedSell(trades: seq<Trade>, open: set<Contract>, contract: Contract, quantity: int, n: int)
    requires Matched(trades, open) && contract in open && LastBought(trades, contract, quantity)
    ensures Matched(trades + [Sold(contract, quantity, n)], open - {contract})
  {
    hide Of;
    OfGrows(trades, Sold(contract, quantity, n));
  }

  lemma MatchedBuy(trades: seq<Trade>, open: set<Contract>, t: Trade)
    requires Matched(trades, open) && t.Filled? && t.contract !in open
    ensures Matched(trades + [t], open + {t.contract})
  {
    hide Of;
    OfGrows(trades, t);
  }

  lemma HoldingsClose(positions: seq<Position>, open: set<Contract>, id: nat)
    requires Holdings(positions, open) && id < |positions| && !positions[id].state.Closed?
    ensures Holdings(positions[id := positions[id].(state := Closed)], open - {positions[id].contract})
    ensures Holdings(positions[id := positions[id].(state := Open)], open)
  {
  }

  lemma HoldingsOpen(positions: seq<Position>, open: set<Contract>, contract: Contract, quantity: int)
    requires Holdings(positions, open) && contract !in open
    ensures Holdings(positions + [Position(contract, quantity, Open)], open + {contract})
  {
  }

  lemma BackedClose(positions: seq<Position>, open: set<Contract>, trades: seq<Trade>, id: nat, n: int)
    requires Holdings(positions, open) && Backed(positions, trades)
    requires id < |positions| && !positions[id].state.Closed?
    ensures Backed(positions[id := positions[id].(state := Open)], trades)
    ensures var p := positions[id];
            Backed(positions[id := p.(state := Closed)], trades + [Sold(p.contract, p.quantity, n)])
  {
    hide Of;
    OfGrows(trades, Sold(positions[id].contract, positions[id].quantity, n));
  }

  lemma BackedOpen(positions: seq<Position>, open: set<Contract>, trades: seq<Trade>, t: Trade)
    requires Holdings(positions, open) && Backed(positions, trades) && t.Filled? && t.contract !in open
    ensures Backed(positions + [Position(t.contract, t.quantity, Open)], trades + [t])
  {
    hide Of;
    OfGrows(trades, t);
  }

  lemma CloseKeeps(s: Loop, n: int, id: nat, exit: Exit)
    requires Mid(s, n) && exit.Leave?
    ensures Mid(ClosePosition(s, n, id, exit), n)
  {
    hide Matched, Holdings, Backed;
    if id < |s.positions| && !s.positions[id].state.Closed? {
      var position := s.positions[id];
      HoldingsClose(s.positions, s.open, id);
      HoldingsContract(s.positions, s.open, s.trades, id);
      MatchedSell(s.trades, s.open, position.contract, position.quantity, n);
      BackedClose(s.positions, s.open, s.trades, id, n);
    }
  }

  lemma HoldingsContract(positions: seq<Position>, open: set<Contract>, trades: seq<Trade>, id: nat)
    requires Holdings(positions, open) && Backed(positions, trades)
    requires id < |positions| && !positions[id].state.Closed?
    ensures positions[id].contract in open && LastBought(trades, positions[id].contract, positions[id].quantity)
  {
  }

  lemma {:induction false} CloseAllKeeps(s: Loop, snapshot: Snapshot, ids: seq<nat>)
    requires Mid(s, snapshot.sequence)
    requires forall id <- ids :: snapshot.exits(id).Leave?
    ensures Mid(CloseAll(s, snapshot, ids), snapshot.sequence)
    ensures s.halted ==> CloseAll(s, snapshot, ids).halted
    decreases |ids|
  {
    hide Mid;
    if ids != [] {
      CloseKeeps(s, snapshot.sequence, ids[0], snapshot.exits(ids[0]));
      CloseAllKeeps(ClosePosition(s, snapshot.sequence, ids[0], snapshot.exits(ids[0])), snapshot, ids[1..]);
    }
  }

  lemma ManageKeeps(s: Loop, snapshot: Snapshot)
    requires Mid(s, snapshot.sequence)
    ensures Mid(ManagePositions(s, snapshot), snapshot.sequence)
    ensures s.halted ==> ManagePositions(s, snapshot).halted
  {
    hide Matched, Holdings, Backed, CleanFills, NoReentry, UpTo, Remembered, CloseAll, Decisions;
    var ids := Decisions(s.positions, snapshot.exits);
    CloseAllKeeps(if Unresolved(s.positions, snapshot) then Halt(s) else s, snapshot, ids);
  }

  lemma ProductIsPositive(a: int, b: int)
    requires a >= 1 && b >= 1
    ensures a * b >= 1
  {
  }

  /** The checks before an order leave the registry nothing to raise for: whatever is filled is registered. */
  lemma RegisteringNeverRaises(s: Loop, snapshot: Snapshot, target: Target)
    ensures var (next, raised) := Evaluate(s, snapshot, target);
            next.trades != s.trades ==>
              && !raised && |next.positions| == |s.positions| + 1 && |next.trades| == |s.trades| + 1
              && var position, fill := next.positions[|s.positions|], next.trades[|s.trades|];
                 && position.state.Open? && fill.Filled?
                 && position.contract == fill.contract && position.quantity == fill.quantity >= 1
  {
    var lot := Ordered(s, snapshot, target);
    if lot.Some? {
      ProductIsPositive(s.lots, lot.value);
    }
  }

  lemma FillKeeps(s: Loop, snapshot: Snapshot, target: Target, contract: Contract, quantity: int)
    requires Mid(s, snapshot.sequence) && AllowsEntries(s, snapshot) && !Taken(s, contract)
    ensures Mid(Register(Fill(s, snapshot, target, contract, quantity), contract, quantity), snapshot.sequence)
  {
    hide Matched, Holdings, Backed;
    var t := Filled(contract, quantity, snapshot.sequence, s.health, s.halted, snapshot.timely);
    MatchedBuy(s.trades, s.open, t);
    HoldingsOpen(s.positions, s.open, contract, quantity);
    BackedOpen(s.positions, s.open, s.trades, t);
  }

  /** What an evaluation comes to: nothing, or a registered fill of a free contract. */
  lemma EvaluateCases(s: Loop, snapshot: Snapshot, target: Target) returns (contract: Contract, quantity: int)
    ensures var next := Evaluate(s, snapshot, target).0;
            next == s || (!Taken(s, contract) && quantity >= 1
                          && next == Register(Fill(s, snapshot, target, contract, quantity), contract, quantity))
  {
    contract, quantity := "", 1;
    var lot := Ordered(s, snapshot, target);
    if lot.Some? {
      ProductIsPositive(s.lots, lot.value);
      contract, quantity := target.entry.candidate.contract, s.lots * lot.value;
    }
  }

  lemma EvaluateKeeps(s: Loop, snapshot: Snapshot, target: Target)
    requires Mid(s, snapshot.sequence) && AllowsEntries(s, snapshot)
    ensures var next := Evaluate(s, snapshot, target).0;
            && Mid(next, snapshot.sequence) && AllowsEntries(next, snapshot) && next.halted == s.halted
  {
    hide Mid, Taken, Evaluate;
    var contract, quantity := EvaluateCases(s, snapshot, target);
    if Evaluate(s, snapshot, target).0 != s {
      FillKeeps(s, snapshot, target, contract, quantity);
    }
  }

  lemma {:induction false} EvaluateAllKeeps(s: Loop, snapshot: Snapshot, targets: seq<Target>)
    requires Mid(s, snapshot.sequence) && AllowsEntries(s, snapshot)
    ensures Mid(EvaluateAll(s, snapshot, targets), snapshot.sequence)
    ensures EvaluateAll(s, snapshot, targets).halted == s.halted
    decreases |targets|
  {
    hide Mid, AllowsEntries, Evaluate;
    if targets != [] {
      EvaluateKeeps(s, snapshot, targets[0]);
      EvaluateAllKeeps(Evaluate(s, snapshot, targets[0]).0, snapshot, targets[1..]);
    }
  }

  lemma ProcessKeeps(s: Loop, snapshot: Snapshot)
    requires Inv(s) && !Rejected(s.lastSequence, snapshot)
    ensures Inv(Process(s, snapshot)) && (s.halted ==> Process(s, snapshot).halted)
  {
    hide Matched, Holdings, Backed, CleanFills, NoReentry, ManagePositions, EvaluateAll;
    var started := s.(lastSequence := Some(snapshot.sequence), health := FeedReconnect.Running, closedNow := {});
    assert Mid(started, snapshot.sequence);
    ManageKeeps(started, snapshot);
    var managed := ManagePositions(started, snapshot);
    if AllowsEntries(managed, snapshot) {
      EvaluateAllKeeps(managed, snapshot, snapshot.targets);
    }
  }

  lemma StepKeeps(s: Loop, step: Step)
    requires Inv(s)
    ensures Inv(Apply(s, step)) && (s.halted ==> Apply(s, step).halted)
  {
    hide Matched, Holdings, Backed, CleanFills, NoReentry, UpTo, Process;
    if step.RunOnce? && step.cycle.poll.Event? && !Rejected(s.lastSequence, step.cycle.poll.snapshot) {
      ProcessKeeps(s, step.cycle.poll.snapshot);
    }
  }

  lemma {:induction false} RunInvariant(lots: Lots, steps: seq<Step>)
    ensures Inv(Run(lots, steps))
    decreases |steps|
  {
    hide Inv, Apply;
    if steps == [] {
      FreshInvariant(lots);
    } else {
      RunInvariant(lots, steps[..|steps| - 1]);
      StepKeeps(Run(lots, steps[..|steps| - 1]), steps[|steps| - 1]);
    }
  }

  lemma FreshInvariant(lots: Lots)
    ensures Inv(Fresh(lots))
  {
    forall c: Contract
      ensures Of([], c) == []
    {
    }
  }

  /** On every run, the fills and closes of a contract strictly alternate, starting with a fill, and each close sells
      exactly the quantity of the fill before it. */
  lemma FillsAndClosesAlternate(lots: Lots, steps: seq<Step>, contract: Contract)
    ensures var trades := Of(Run(lots, steps).trades, contract);
            forall i :: 0 <= i < |trades| ==>
              && (trades[i].Filled? <==> i % 2 == 0)
              && (i % 2 == 1 ==> trades[i].quantity == trades[i - 1].quantity)
  {
    hide Run, Of;
    RunInvariant(lots, steps);
    assert Alternates(Of(Run(lots, steps).trades, contract));
  }

  /** On every run, a contract sold on a snapshot is bought again only on a later one. */
  lemma NoReentryOnTheSameSnapshot(lots: Lots, steps: seq<Step>, k: nat, l: nat)
    requires k < l < |Run(lots, steps).trades|
    requires Run(lots, steps).trades[k].Sold? && Run(lots, steps).trades[l].Filled?
    requires Run(lots, steps).trades[k].contract == Run(lots, steps).trades[l].contract
    ensures Run(lots, steps).trades[k].sequence < Run(lots, steps).trades[l].sequence
  {
    hide Run, Of;
    RunInvariant(lots, steps);
  }

  /** On every run, each fill found the session healthy, the snapshot timely and the loop not halted. */
  lemma NoFillWhenUnhealthy(lots: Lots, steps: seq<Step>, k: nat)
    requires k < |Run(lots, steps).trades| && Run(lots, steps).trades[k].Filled?
    ensures var t := Run(lots, steps).trades[k];
            (t.health.Ready? || t.health.Running?) && t.timely && !t.halted
  {
    hide Run, Of;
    RunInvariant(lots, steps);
  }

  ghost predicate OnlySales(before: seq<Trade>, after: seq<Trade>) {
    before <= after && forall k :: |before| <= k < |after| ==> after[k].Sold?
  }

  lemma {:induction false} ClosingOnlySells(s: Loop, snapshot: Snapshot, ids: seq<nat>)
    requires forall id <- ids :: snapshot.exits(id).Leave?
    ensures OnlySales(s.trades, CloseAll(s, snapshot, ids).trades)
    ensures s.halted ==> CloseAll(s, snapshot, ids).halted
    decreases |ids|
  {
    if ids != [] {
      ClosingOnlySells(ClosePosition(s, snapshot.sequence, ids[0], snapshot.exits(ids[0])), snapshot, ids[1..]);
    }
  }

  /** From a halted state no step buys anything, and the halt stays. */
  lemma HaltedStepOnlySells(s: Loop, step: Step)
    requires s.halted
    ensures Apply(s, step).halted && OnlySales(s.trades, Apply(s, step).trades)
  {
    hide CloseAll, Decisions, EvaluateAll;
    if step.RunOnce? && step.cycle.poll.Event? {
      var snapshot := step.cycle.poll.snapshot;
      var started := s.(lastSequence := Some(snapshot.sequence), health := FeedReconnect.Running, closedNow := {});
      var marked := if Unresolved(s.positions, snapshot) then Halt(started) else started;
      ClosingOnlySells(marked, snapshot, Decisions(s.positions, snapshot.exits));
    }
  }

  /** A halt is final: however the run goes on, no fill follows it. */
  lemma {:induction false} NoFillAfterHalt(lots: Lots, before: seq<Step>, more: seq<Step>)
    requires Run(lots, before).halted
    ensures Run(lots, before + more).halted && OnlySales(Run(lots, before).trades, Run(lots, before + more).trades)
    decreases |more|
  {
    hide Apply;
    if more == [] {
      assert before + more == before;
    } else {
      var front := more[..|more| - 1];
      assert (before + more)[..|before + more| - 1] == before + front;
      NoFillAfterHalt(lots, before, front);
      HaltedStepOnlySells(Run(lots, before + front), more[|more| - 1]);
    }
  }

  // Open contracts and their positions.

  predicate Held(positions: seq<Position>, contract: Contract) {
    exists i :: 0 <= i < |positions| && positions[i].contract == contract && !positions[i].state.Closed?
  }

  /** What was bought, in order, and what was registered. */
  function Bought(trades: seq<Trade>): seq<(Contract, int)> {
    Map((t: Trade) => (t.contract, t.quantity), Filter(trades, (t: Trade) => t.Filled?))
  }

  function Lines(positions: seq<Position>): seq<(Contract, int)> {
    Map((p: Position) => (p.contract, p.quantity), positions)
  }

  /** Every open contract has a position, and the positions are the fills, one for one. */
  ghost predicate Covered(s: Loop) {
    && (forall c <- s.open :: Held(s.positions, c))
    && Bought(s.trades) == Lines(s.positions)
  }

  lemma BoughtGrows(trades: seq<Trade>, t: Trade)
    ensures Bought(trades + [t]) == if t.Filled? then Bought(trades) + [(t.contract, t.quantity)] else Bought(trades)
  {
    FilterConcat(trades, [t], (x: Trade) => x.Filled?);
    FilterOne(t, (x: Trade) => x.Filled?);
  }

  lemma HeldElsewhere(positions: seq<Position>, id: nat, state: PositionState, contract: Contract)
    requires id < |positions| && Held(positions, contract)
    requires positions[id].contract != contract || !state.Closed?
    ensures Held(positions[id := positions[id].(state := state)], contract)
  {
    var after := positions[id := positions[id].(state := state)];
    var i :| 0 <= i < |positions| && positions[i].contract == contract && !positions[i].state.Closed?;
    assert after[i].contract == contract && !after[i].state.Closed?;
  }

  lemma HeldGrows(positions: seq<Position>, p: Position, contract: Contract)
    requires !p.state.Closed? && (Held(positions, contract) || p.contract == contract)
    ensures Held(positions + [p], contract)
  {
    var after := positions + [p];
    assert after[|positions|] == p;
    if Held(positions, contract) {
      var i :| 0 <= i < |positions| && positions[i].contract == contract && !positions[i].state.Closed?;
      assert after[i] == positions[i];
    }
  }

  lemma CloseCovers(s: Loop, sequence: int, id: nat, exit: Exit)
    requires exit.Leave? && Covered(s)
    ensures Covered(ClosePosition(s, sequence, id, exit))
  {
    hide Held, Bought;
    if id < |s.positions| && !s.positions[id].state.Closed? {
      var mine := s.positions[id];
      BoughtGrows(s.trades, Sold(mine.contract, mine.quantity, sequence));
      var state := if exit.outcome.ExitDone? then Closed else Open;
      forall c <- s.open | c != mine.contract || !state.Closed?
        ensures Held(s.positions[id := mine.(state := state)], c)
      {
        HeldElsewhere(s.positions, id, state, c);
      }
      assert Lines(s.positions[id := mine.(state := state)]) == Lines(s.positions);
    }
  }

  lemma {:induction false} CloseAllCovers(s: Loop, snapshot: Snapshot, ids: seq<nat>)
    requires Covered(s)
    requires forall id <- ids :: snapshot.exits(id).Leave?
    ensures Covered(CloseAll(s, snapshot, ids))
    decreases |ids|
  {
    hide Covered, ClosePosition;
    if ids != [] {
      CloseCovers(s, snapshot.sequence, ids[0], snapshot.exits(ids[0]));
      CloseAllCovers(ClosePosition(s, snapshot.sequence, ids[0], snapshot.exits(ids[0])), snapshot, ids[1..]);
    }
  }

  lemma EvaluateCovers(s: Loop, snapshot: Snapshot, target: Target)
    requires Covered(s)
    ensures Covered(Evaluate(s, snapshot, target).0)
  {
    hide Held, Bought, Evaluate, Taken;
    var contract, quantity := EvaluateCases(s, snapshot, target);
    var next := Evaluate(s, snapshot, target).0;
    if next != s {
      var position := Position(contract, quantity, Open);
      BoughtGrows(s.trades, Filled(contract, quantity, snapshot.sequence, s.health, s.halted, snapshot.timely));
      forall c <- next.open
        ensures Held(s.positions + [position], c)
      {
        HeldGrows(s.positions, position, c);
      }
      assert Lines(s.positions + [position]) == Lines(s.positions) + [(contract, quantity)];
    }
  }

  lemma {:induction false} EvaluateAllCovers(s: Loop, snapshot: Snapshot, targets: seq<Target>)
    requires Covered(s)
    ensures Covered(EvaluateAll(s, snapshot, targets))
    decreases |targets|
  {
    hide Covered, Evaluate;
    if targets != [] {
      EvaluateCovers(s, snapshot, targets[0]);
      EvaluateAllCovers(Evaluate(s, snapshot, targets[0]).0, snapshot, targets[1..]);
    }
  }

  lemma StepCovers(s: Loop, step: Step)
    requires Covered(s)
    ensures Covered(Apply(s, step))
  {
    hide Held, Bought, Lines, CloseAll, Decisions, EvaluateAll;
    if step.RunOnce? && step.cycle.poll.Event? {
      var snapshot := step.cycle.poll.snapshot;
      var started := s.(lastSequence := Some(snapshot.sequence), health := FeedReconnect.Running, closedNow := {});
      var marked := if Unresolved(s.positions, snapshot) then Halt(started) else started;
      CloseAllCovers(marked, snapshot, Decisions(s.positions, snapshot.exits));
      EvaluateAllCovers(ManagePositions(started, snapshot), snapshot, snapshot.targets);
    }
  }

  lemma {:induction false} RunIsCovered(lots: Lots, steps: seq<Step>)
    ensures Covered(Run(lots, steps))
    decreases |steps|
  {
    hide Apply, Held;
    if steps != [] {
      RunIsCovered(lots, steps[..|steps| - 1]);
      StepCovers(Run(lots, steps[..|steps| - 1]), steps[|steps| - 1]);
    }
  }

  /** On every run the open contracts are exactly those of the positions that are not closed. */
  lemma OpenIsHeld(lots: Lots, steps: seq<Step>, contract: Contract)
    ensures contract in Run(lots, steps).open <==> Held(Run(lots, steps).positions, contract)
  {
    hide Run, Matched, Backed, Bought, Lines;
    RunIsCovered(lots, steps);
    RunInvariant(lots, steps);
  }

  /** On every run the positions are the fills, one for one and in order, with contract and quantity. */
  lemma EveryFillIsRegistered(lots: Lots, steps: seq<Step>)
    ensures Lines(Run(lots, steps).positions) == Bought(Run(lots, steps).trades)
  {
    hide Run, Held, Bought, Lines;
    RunIsCovered(lots, steps);
  }

  ghost predicate StillClosed(before: seq<Position>, after: seq<Position>) {
    && |before| <= |after|
    && forall i :: 0 <= i < |before| && before[i].state.Closed? ==> after[i] == before[i]
  }

  lemma {:induction false} ClosingKeepsClosed(s: Loop, snapshot: Snapshot, ids: seq<nat>)
    requires forall id <- ids :: snapshot.exits(id).Leave?
    ensures StillClosed(s.positions, CloseAll(s, snapshot, ids).positions)
    decreases |ids|
  {
    if ids != [] {
      ClosingKeepsClosed(ClosePosition(s, snapshot.sequence, ids[0], snapshot.exits(ids[0])), snapshot, ids[1..]);
    }
  }

  lemma {:induction false} OpeningKeepsClosed(s: Loop, snapshot: Snapshot, targets: seq<Target>)
    ensures StillClosed(s.positions, EvaluateAll(s, snapshot, targets).positions)
    decreases |targets|
  {
    if targets != [] {
      OpeningKeepsClosed(Evaluate(s, snapshot, targets[0]).0, snapshot, targets[1..]);
    }
  }

  /** No step reopens a closed position or forgets one. */
  lemma ClosedStaysClosed(s: Loop, step: Step)
    ensures StillClosed(s.positions, Apply(s, step).positions)
  {
    hide CloseAll, Decisions, EvaluateAll;
    if step.RunOnce? && step.cycle.poll.Event? {
      var snapshot := step.cycle.poll.snapshot;
      var started := s.(lastSequence := Some(snapshot.sequence), health := FeedReconnect.Running, closedNow := {});
      var marked := if Unresolved(s.positions, snapshot) then Halt(started) else started;
      ClosingKeepsClosed(marked, snapshot, Decisions(s.positions, snapshot.exits));
      OpeningKeepsClosed(ManagePositions(started, snapshot), snapshot, snapshot.targets);
    }
  }
}
