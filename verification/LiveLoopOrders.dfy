/** What the live loop buys, sells and halts for, in terms of what the feed brings. */
module LiveLoopOrders {
  import opened Basics
  import FeedReconnect
  import opened LiveLoop
  import opened LiveLoopSafety

  /** A session that is up gets a new, valid event. */
  predicate Gets(s: Loop, cycle: Cycle) {
    && (s.health.Ready? || s.health.Running? || s.health.Stale? || s.health.Degraded?)
    && !cycle.timedOut && !cycle.intervalPending && cycle.poll.Event?
    && var snapshot := cycle.poll.snapshot;
       && snapshot.header && snapshot.body && snapshot.sequence >= 1
       && (s.lastSequence.Some? ==> s.lastSequence.value < snapshot.sequence)
  }

  // What is bought.

  /** The lot the snapshot gives for a candidate. */
  predicate IsLot(lotSizes: map<string, int>, c: Candidate, lot: int) {
    && lot >= 1
    && if c.id in lotSizes && lotSizes[c.id] != 0 then lotSizes[c.id] == lot
       else if c.symbol in lotSizes then lotSizes[c.symbol] == lot
       else c.contract in lotSizes && lotSizes[c.contract] == lot
  }

  /** A call for a bullish signal and a put for a bearish one, bought at a quoted ask that is not below the bid, of a
      known lot, and wanted by research, risk guard and ledger. */
  predicate Buyable(snapshot: Snapshot, target: Target, lot: int) {
    && target.entry.Proposed? && target.entry.researched && target.entry.approved && target.entry.booked
    && var c := target.entry.candidate;
       && (c.kind == "CE" || c.kind == "PE") && c.intent == "BUY"
       && (target.entry.direction == "BULLISH" ==> c.kind == "CE")
       && (target.entry.direction == "BEARISH" ==> c.kind == "PE")
       && c.ask.Some? && 0 < c.ask.value && (c.bid.Some? ==> 0 < c.bid.value <= c.ask.value)
       && IsLot(snapshot.lotSizes, c, lot)
  }

  /** The fill that buying the target leaves. */
  function FillOf(lots: Lots, snapshot: Snapshot, target: Target, lot: int): Trade
    requires target.entry.Proposed?
  {
    Filled(target.entry.candidate.contract, lots * lot, snapshot.sequence, FeedReconnect.Running, false, true)
  }

  /** The fill buys a buyable target of the snapshot. */
  ghost predicate Proper(lots: Lots, snapshot: Snapshot, fill: Trade) {
    exists target: Target, lot: int ::
      target in snapshot.targets && Buyable(snapshot, target, lot) && fill == FillOf(lots, snapshot, target, lot)
  }

  /** A step that can buy, and what it may buy. */
  ghost predicate Buys(s: Loop, step: Step, fill: Trade) {
    && step.RunOnce? && Gets(s, step.cycle) && !s.halted
    && var snapshot := step.cycle.poll.snapshot;
       snapshot.timely && snapshot.entriesAllowed && Proper(s.lots, snapshot, fill)
  }

  /** Every fill that is new comes from the snapshot. */
  ghost predicate ProperSince(lots: Lots, snapshot: Snapshot, n: nat, trades: seq<Trade>) {
    forall k :: n <= k < |trades| && trades[k].Filled? ==> Proper(lots, snapshot, trades[k])
  }

  lemma OrderedExactlyWhen(s: Loop, snapshot: Snapshot, target: Target, lot: int)
    requires target.entry.Proposed? && target.entry.booked
    ensures Ordered(s, snapshot, target) == Some(lot) <==>
              && Buyable(snapshot, target, lot) && (snapshot.sequence, target.symbol) !in s.seen
              && !Taken(s, target.entry.candidate.contract)
  {
    hide Taken;
  }

  /** With the session running and entries allowed, a target leaves its fill exactly when it is buyable, free and not
      yet seen; otherwise it leaves nothing. */
  lemma EvaluateExactlyWhen(s: Loop, snapshot: Snapshot, target: Target, lot: int)
    requires s.health.Running? && !s.halted && snapshot.timely && Buyable(snapshot, target, lot)
    ensures var (next, raised) := Evaluate(s, snapshot, target);
            if (snapshot.sequence, target.symbol) in s.seen || Taken(s, target.entry.candidate.contract) then
              next == s && !raised
            else next.trades == s.trades + [FillOf(s.lots, snapshot, target, lot)] && !raised
  {
    hide Buyable, Taken, Ordered;
    BuyableIsProposed(snapshot, target, lot);
    OrderedExactlyWhen(s, snapshot, target, lot);
    if Ordered(s, snapshot, target) == Some(lot) {
      RegisteringNeverRaises(s, snapshot, target);
    } else {
      OrderedIsBuyable(s, snapshot, target);
      if Ordered(s, snapshot, target).Some? {
        LotsAgree(snapshot, target, lot, Ordered(s, snapshot, target).value);
      }
    }
  }

  lemma BuyableIsProposed(snapshot: Snapshot, target: Target, lot: int)
    requires Buyable(snapshot, target, lot)
    ensures target.entry.Proposed? && target.entry.booked
  {
  }

  lemma LotsAgree(snapshot: Snapshot, target: Target, a: int, b: int)
    requires Buyable(snapshot, target, a) && Buyable(snapshot, target, b)
    ensures a == b
  {
  }

  lemma OrderedIsBuyable(s: Loop, snapshot: Snapshot, target: Target)
    ensures var lot := Ordered(s, snapshot, target);
            lot.Some? ==> target.entry.Proposed? && (target.entry.booked ==> Buyable(snapshot, target, lot.value))
  {
    hide Taken;
  }

  /** An underlying is bought at most once per event. */
  lemma OncePerUnderlying(s: Loop, snapshot: Snapshot, first: Target, second: Target)
    requires first.symbol == second.symbol
    ensures var next := Evaluate(s, snapshot, first).0;
            next.trades != s.trades ==> Evaluate(next, snapshot, second) == (next, false)
  {
    hide LotOf, Taken, Unenterable, WrongSide, Unregistrable;
  }

  lemma EvaluateIsProper(s: Loop, snapshot: Snapshot, target: Target, n: nat)
    requires target in snapshot.targets && s.health.Running? && !s.halted && snapshot.timely
    requires ProperSince(s.lots, snapshot, n, s.trades)
    ensures var next := Evaluate(s, snapshot, target).0;
            && ProperSince(s.lots, snapshot, n, next.trades) && next.lots == s.lots
            && next.health == s.health && next.halted == s.halted
  {
    hide Buyable, Taken, Ordered, Proper;
    var lot := Ordered(s, snapshot, target);
    OrderedIsBuyable(s, snapshot, target);
    if lot.Some? && target.entry.booked {
      EvaluateExactlyWhen(s, snapshot, target, lot.value);
      ProperFill(s.lots, snapshot, target, lot.value);
    }
  }

  lemma ProperFill(lots: Lots, snapshot: Snapshot, target: Target, lot: int)
    requires target in snapshot.targets && Buyable(snapshot, target, lot)
    ensures Proper(lots, snapshot, FillOf(lots, snapshot, target, lot))
  {
  }

  lemma {:induction false} EvaluateAllIsProper(s: Loop, snapshot: Snapshot, targets: seq<Target>, n: nat)
    requires s.health.Running? && !s.halted && snapshot.timely && forall t <- targets :: t in snapshot.targets
    requires ProperSince(s.lots, snapshot, n, s.trades)
    ensures var next := EvaluateAll(s, snapshot, targets);
            && ProperSince(s.lots, snapshot, n, next.trades) && next.lots == s.lots
            && next.health == s.health && next.halted == s.halted
    decreases |targets|
  {
    hide ProperSince, Evaluate;
    if targets != [] {
      EvaluateIsProper(s, snapshot, targets[0], n);
      EvaluateAllIsProper(Evaluate(s, snapshot, targets[0]).0, snapshot, targets[1..], n);
    }
  }

  // What is sold, and what halts.

  predicate Sells(exit: Exit) { exit.Leave? && exit.outcome.ExitDone? }

  /** An open position that the session close cannot get rid of. */
  predicate Jams(positions: seq<Position>, snapshot: Snapshot) {
    exists id :: 0 <= id < |positions| && positions[id].state.Open? && Stuck(snapshot, snapshot.exits(id))
  }

  predicate Stuck(snapshot: Snapshot, exit: Exit) {
    match exit
    case Stay => false
    case Unpriced => snapshot.closeDue
    case Leave(atClose, outcome) => atClose && (outcome.NoExitPrice? || outcome.GuardRefusedExit?)
  }

  ghost predicate Rising(ids: seq<nat>) { forall i, j :: 0 <= i < j < |ids| ==> ids[i] < ids[j] }

  predicate Leaves(positions: seq<Position>, exits: nat -> Exit, id: nat) {
    id < |positions| && positions[id].state.Open? && exits(id).Leave?
  }

  lemma RisingGrows(ids: seq<nat>, last: nat)
    requires Rising(ids) && forall id <- ids :: id < last
    ensures Rising(ids + [last])
  {
    assert forall i :: 0 <= i < |ids| ==> ids[i] in ids;
  }

  /** The positions to leave are exactly the open ones whose exit says so, in order of opening. */
  lemma {:induction false} DecisionsMeaning(positions: seq<Position>, exits: nat -> Exit)
    ensures var ids := Decisions(positions, exits);
            (forall id: nat :: id in ids <==> Leaves(positions, exits, id)) && Rising(ids)
  {
    if positions != [] {
      hide Rising, Leaves;
      var last := |positions| - 1;
      DecisionsMeaning(positions[..last], exits);
      LeavesGrows(positions, exits);
      RisingGrows(Decisions(positions[..last], exits), last);
    }
  }

  lemma LeavesGrows(positions: seq<Position>, exits: nat -> Exit)
    requires positions != []
    ensures var last := |positions| - 1;
            forall id: nat :: Leaves(positions, exits, id) <==>
              Leaves(positions[..last], exits, id) || (id == last && positions[last].state.Open? && exits(last).Leave?)
  {
  }

  /** What closing the positions `ids` comes to. */
  ghost predicate Closes(s: Loop, snapshot: Snapshot, ids: seq<nat>, next: Loop)
    requires forall id <- ids :: id < |s.positions|
  {
    && |next.positions| == |s.positions|
    && (forall id: nat :: id < |s.positions| ==>
          next.positions[id] == if id in ids && Sells(snapshot.exits(id)) then s.positions[id].(state := Closed)
                                else s.positions[id])
    && (forall c: Contract ::
          c in next.closedNow <==>
            c in s.closedNow || exists id <- ids :: Sells(snapshot.exits(id)) && s.positions[id].contract == c)
    && next.open <= s.open && next.lots == s.lots && next.lastSequence == s.lastSequence && next.seen == s.seen
    && next.byContract == s.byContract
  }

  /** How it can end in a halt. */
  ghost predicate Halts(s: Loop, snapshot: Snapshot, ids: seq<nat>, next: Loop)
    requires forall id <- ids :: snapshot.exits(id).Leave?
  {
    var jam := exists id <- ids :: Stuck(snapshot, snapshot.exits(id));
    && next.halted == (s.halted || jam) && next.unresolved == (s.unresolved || jam)
    && next.health == if jam then FeedReconnect.Degraded else s.health
  }

  lemma CloseOneCloses(s: Loop, snapshot: Snapshot, id: nat)
    requires id < |s.positions| && s.positions[id].state.Open? && snapshot.exits(id).Leave?
    ensures Closes(s, snapshot, [id], ClosePosition(s, snapshot.sequence, id, snapshot.exits(id)))
  {
  }

  lemma CloseOneHalts(s: Loop, snapshot: Snapshot, id: nat)
    requires id < |s.positions| && s.positions[id].state.Open? && snapshot.exits(id).Leave?
    ensures Halts(s, snapshot, [id], ClosePosition(s, snapshot.sequence, id, snapshot.exits(id)))
  {
  }

  lemma ClosesCompose(s: Loop, snapshot: Snapshot, ids: seq<nat>, middle: Loop, next: Loop)
    requires forall id <- ids :: id < |s.positions| == |middle.positions|
    requires ids != [] && ids[0] in ids && (forall id <- ids[1..] :: id in ids) && ids[0] !in ids[1..]
    requires Closes(s, snapshot, [ids[0]], middle) && Closes(middle, snapshot, ids[1..], next)
    ensures Closes(s, snapshot, ids, next)
  {
    assert forall id: nat :: id in ids <==> id == ids[0] || id in ids[1..];
  }

  lemma HaltsCompose(s: Loop, snapshot: Snapshot, ids: seq<nat>, middle: Loop, next: Loop)
    requires ids != [] && forall id <- ids :: snapshot.exits(id).Leave?
    requires Halts(s, snapshot, [ids[0]], middle) && Halts(middle, snapshot, ids[1..], next)
    ensures Halts(s, snapshot, ids, next)
  {
    assert forall id: nat :: id in ids <==> id == ids[0] || id in ids[1..];
  }

  lemma {:induction false} CloseAllCloses(s: Loop, snapshot: Snapshot, ids: seq<nat>)
    requires forall id <- ids :: id < |s.positions| && s.positions[id].state.Open? && snapshot.exits(id).Leave?
    requires Rising(ids)
    ensures var next := CloseAll(s, snapshot, ids); Closes(s, snapshot, ids, next) && Halts(s, snapshot, ids, next)
    decreases |ids|
  {
    hide ClosePosition, Sells, Stuck;
    if ids != [] {
      var middle := ClosePosition(s, snapshot.sequence, ids[0], snapshot.exits(ids[0]));
      CloseOneCloses(s, snapshot, ids[0]);
      CloseOneHalts(s, snapshot, ids[0]);
      CloseAllCloses(middle, snapshot, ids[1..]);
      ClosesCompose(s, snapshot, ids, middle, CloseAll(s, snapshot, ids));
      HaltsCompose(s, snapshot, ids, middle, CloseAll(s, snapshot, ids));
    }
  }

  lemma ManageCloses(s: Loop, snapshot: Snapshot)
    requires s.health.Running?
    ensures var next := ManagePositions(s, snapshot);
            && Closes(s, snapshot, Decisions(s.positions, snapshot.exits), next)
            && next.halted == (s.halted || Jams(s.positions, snapshot))
            && next.unresolved == (s.unresolved || Jams(s.positions, snapshot))
            && next.health == if next.halted then FeedReconnect.Degraded else FeedReconnect.Running
  {
    hide Decisions, CloseAll, Closes;
    var ids := Decisions(s.positions, snapshot.exits);
    var marked := if Unresolved(s.positions, snapshot) then Halt(s) else s;
    DecisionsMeaning(s.positions, snapshot.exits);
    CloseAllCloses(marked, snapshot, ids);
    MarkedCloses(s, marked, snapshot, ids, CloseAll(marked, snapshot, ids));
    JamsExactlyWhen(s.positions, snapshot);
  }

  lemma MarkedCloses(s: Loop, marked: Loop, snapshot: Snapshot, ids: seq<nat>, next: Loop)
    requires marked == s || marked == Halt(s)
    requires forall id <- ids :: id < |s.positions|
    requires Closes(marked, snapshot, ids, next)
    ensures Closes(s, snapshot, ids, next.(health := FeedReconnect.Degraded)) && Closes(s, snapshot, ids, next)
  {
  }

  lemma JamsExactlyWhen(positions: seq<Position>, snapshot: Snapshot)
    ensures Jams(positions, snapshot) <==>
              || Unresolved(positions, snapshot)
              || exists id <- Decisions(positions, snapshot.exits) :: Stuck(snapshot, snapshot.exits(id))
  {
    hide Decisions;
    DecisionsMeaning(positions, snapshot.exits);
    if Unresolved(positions, snapshot) {
      var id :| 0 <= id < |positions| && positions[id].state.Open? && snapshot.exits(id).Unpriced?;
      assert Stuck(snapshot, snapshot.exits(id));
    }
  }

  lemma {:induction false} EvaluatingOnlyAdds(s: Loop, snapshot: Snapshot, targets: seq<Target>)
    ensures var next := EvaluateAll(s, snapshot, targets);
            s.positions <= next.positions && s.trades <= next.trades && next.lastSequence == s.lastSequence
    decreases |targets|
  {
    hide Ordered;
    if targets != [] {
      EvaluatingOnlyAdds(Evaluate(s, snapshot, targets[0]).0, snapshot, targets[1..]);
    }
  }

  /** The loop when a timely snapshot comes in. */
  function OnEvent(s: Loop, snapshot: Snapshot): Loop {
    s.(lastSequence := Some(snapshot.sequence), health := FeedReconnect.Running, closedNow := {})
  }

  /** And when its entries come up. */
  function Managed(s: Loop, snapshot: Snapshot): Loop { ManagePositions(OnEvent(s, snapshot), snapshot) }

  lemma RunOnSnapshot(s: Loop, cycle: Cycle)
    requires Gets(s, cycle) && cycle.poll.snapshot.timely
    ensures var snapshot, managed := cycle.poll.snapshot, Managed(s, cycle.poll.snapshot);
            RunCycle(s, cycle) == if AllowsEntries(managed, snapshot)
                                  then EvaluateAll(managed, snapshot, snapshot.targets) else managed
  {
    hide ManagePositions, EvaluateAll, AllowsEntries;
  }

  /** A timely snapshot closes exactly the open positions whose exit goes through, halts the loop exactly when it cannot
      get rid of a position at the close, and leaves the session running unless halted. */
  lemma AfterSnapshot(s: Loop, cycle: Cycle)
    requires Gets(s, cycle) && cycle.poll.snapshot.timely
    ensures var snapshot, after := cycle.poll.snapshot, RunCycle(s, cycle);
            && |s.positions| <= |after.positions|
            && (forall id: nat :: id < |s.positions| ==>
                  after.positions[id] == if s.positions[id].state.Open? && Sells(snapshot.exits(id))
                                         then s.positions[id].(state := Closed) else s.positions[id])
            && after.halted == (s.halted || Jams(s.positions, snapshot))
            && after.health == (if after.halted then FeedReconnect.Degraded else FeedReconnect.Running)
            && after.lastSequence == Some(snapshot.sequence)
  {
    hide ManagePositions, EvaluateAll, Jams, Decisions;
    var snapshot, managed := cycle.poll.snapshot, Managed(s, cycle.poll.snapshot);
    RunOnSnapshot(s, cycle);
    DecisionsMeaning(s.positions, snapshot.exits);
    ManageCloses(OnEvent(s, snapshot), snapshot);
    if AllowsEntries(managed, snapshot) {
      EvaluatingOnlyAdds(managed, snapshot, snapshot.targets);
      EvaluateAllIsProper(managed, snapshot, snapshot.targets, |managed.trades|);
    }
  }

  /** A cycle that changes nothing: the session is down, or it is not time yet, or nothing new came. */
  predicate Quiet(s: Loop, cycle: Cycle) {
    || s.health.Disconnected? || s.health.Stopped? || s.health.Connecting?
    || (!cycle.timedOut
        && (cycle.intervalPending || cycle.poll.ControlFrame?
            || (cycle.poll.Event? && cycle.poll.snapshot.header && cycle.poll.snapshot.sequence >= 1
                && s.lastSequence == Some(cycle.poll.snapshot.sequence))))
  }

  /** Every other cycle trades nothing, and the health says why. */
  lemma OtherCycles(s: Loop, cycle: Cycle)
    ensures var after := RunCycle(s, cycle);
            && (Quiet(s, cycle) ==> after == s)
            && (!Quiet(s, cycle) && !(Gets(s, cycle) && cycle.poll.snapshot.timely) ==>
                  && after.trades == s.trades && after.positions == s.positions
                  && after.halted == (s.halted || (cycle.timedOut && exists p <- s.positions :: p.state.Open?))
                  && after.health == if cycle.timedOut || cycle.poll == Empty(true) then FeedReconnect.Stopped
                                     else if Gets(s, cycle) then FeedReconnect.Stale else FeedReconnect.Degraded)
  {
    hide ManagePositions, EvaluateAll;
  }

  // Runs.

  /** What the runs keep beside the books. */
  ghost predicate Tidy(s: Loop) {
    && s.halted == s.unresolved
    && (forall event <- s.seen :: s.lastSequence.Some? && event.0 <= s.lastSequence.value)
    && (forall c <- s.byContract ::
          s.byContract[c] < |s.positions| && s.positions[s.byContract[c]].contract == c)
  }

  lemma {:induction false} EvaluateAllTidy(s: Loop, snapshot: Snapshot, targets: seq<Target>)
    requires Tidy(s) && s.lastSequence == Some(snapshot.sequence)
    ensures Tidy(EvaluateAll(s, snapshot, targets))
    decreases |targets|
  {
    hide Ordered;
    if targets != [] {
      EvaluateAllTidy(Evaluate(s, snapshot, targets[0]).0, snapshot, targets[1..]);
    }
  }

  lemma ManageTidy(s: Loop, snapshot: Snapshot)
    requires Tidy(s) && (s.lastSequence.Some? ==> s.lastSequence.value < snapshot.sequence)
    ensures Tidy(Managed(s, snapshot)) && Managed(s, snapshot).lastSequence == Some(snapshot.sequence)
    ensures Managed(s, snapshot).lots == s.lots
  {
    hide ManagePositions, Jams, Decisions;
    DecisionsMeaning(s.positions, snapshot.exits);
    ManageCloses(OnEvent(s, snapshot), snapshot);
  }

  lemma {:induction false} RunIsTidy(lots: Lots, steps: seq<Step>)
    ensures Tidy(Run(lots, steps)) && Run(lots, steps).lots == lots
    decreases |steps|
  {
    hide RunCycle;
    if steps != [] {
      var before, step := Run(lots, steps[..|steps| - 1]), steps[|steps| - 1];
      RunIsTidy(lots, steps[..|steps| - 1]);
      if step.RunOnce? {
        CycleTidy(before, step.cycle);
      }
    }
  }

  lemma CycleTidy(s: Loop, cycle: Cycle)
    requires Tidy(s)
    ensures Tidy(RunCycle(s, cycle)) && RunCycle(s, cycle).lots == s.lots
  {
    hide ManagePositions, EvaluateAll, Managed;
    if Gets(s, cycle) && cycle.poll.snapshot.timely {
      var snapshot, managed := cycle.poll.snapshot, Managed(s, cycle.poll.snapshot);
      RunOnSnapshot(s, cycle);
      ManageTidy(s, snapshot);
      if AllowsEntries(managed, snapshot) {
        EvaluateAllTidy(managed, snapshot, snapshot.targets);
        ManagedRuns(s, snapshot);
        EvaluateAllIsProper(managed, snapshot, snapshot.targets, |managed.trades|);
      }
    }
  }

  lemma ManagedRuns(s: Loop, snapshot: Snapshot)
    ensures var managed := Managed(s, snapshot);
            managed.health == if managed.halted then FeedReconnect.Degraded else FeedReconnect.Running
  {
    hide ManagePositions, Jams, Closes;
    ManageCloses(OnEvent(s, snapshot), snapshot);
  }

  // Where fills come from.

  lemma StepBuysProperly(s: Loop, step: Step)
    ensures var after := Apply(s, step);
            s.trades <= after.trades
            && forall k :: |s.trades| <= k < |after.trades| && after.trades[k].Filled? ==>
                 Buys(s, step, after.trades[k])
  {
    hide RunCycle, Buys;
    if step.RunOnce? {
      CycleBuysProperly(s, step.cycle);
    }
  }

  lemma CycleBuysProperly(s: Loop, cycle: Cycle)
    ensures var after := RunCycle(s, cycle);
            s.trades <= after.trades
            && forall k :: |s.trades| <= k < |after.trades| && after.trades[k].Filled? ==>
                 Buys(s, RunOnce(cycle), after.trades[k])
  {
    hide ManagePositions, EvaluateAll, Managed, Proper, RunCycle;
    OtherCycles(s, cycle);
    if Gets(s, cycle) && cycle.poll.snapshot.timely {
      var snapshot, managed := cycle.poll.snapshot, Managed(s, cycle.poll.snapshot);
      RunOnSnapshot(s, cycle);
      ManagedRuns(s, snapshot);
      ManagingOnlySells(s, snapshot);
      if AllowsEntries(managed, snapshot) {
        EvaluatingOnlyAdds(managed, snapshot, snapshot.targets);
        EvaluateAllIsProper(managed, snapshot, snapshot.targets, |managed.trades|);
      }
    }
  }

  lemma ManagingOnlySells(s: Loop, snapshot: Snapshot)
    ensures var managed := Managed(s, snapshot);
            OnlySales(s.trades, managed.trades) && managed.lots == s.lots && (s.halted ==> managed.halted)
  {
    hide CloseAll, Decisions, Closes, Jams;
    var started := OnEvent(s, snapshot);
    ManageCloses(started, snapshot);
    DecisionsMeaning(s.positions, snapshot.exits);
    var marked := if Unresolved(s.positions, snapshot) then Halt(started) else started;
    ClosingOnlySells(marked, snapshot, Decisions(s.positions, snapshot.exits));
    ClosesKeepsLots(started, snapshot);
  }

  lemma ClosesKeepsLots(s: Loop, snapshot: Snapshot)
    requires s.health.Running?
    ensures ManagePositions(s, snapshot).lots == s.lots
  {
    hide ManagePositions, Decisions, Jams;
    DecisionsMeaning(s.positions, snapshot.exits);
    ManageCloses(s, snapshot);
  }

  /** On every run each fill was left by a step that got a new, valid, timely event on a session that was up and not
      halted, with entries allowed, and it buys a buyable target of that event: a call for a bullish signal and a put
      for a bearish one, lots times the lot of the snapshot, wanted by research, guard and ledger. */
  lemma {:induction false} EveryFillIsProper(lots: Lots, steps: seq<Step>, k: nat)
    requires k < |Run(lots, steps).trades| && Run(lots, steps).trades[k].Filled?
    ensures exists i :: 0 <= i < |steps| && Buys(Run(lots, steps[..i]), steps[i], Run(lots, steps).trades[k])
    decreases |steps|
  {
    hide Apply, Buys;
    if steps == [] {
      assert false;
    } else {
      var last := |steps| - 1;
      var before := Run(lots, steps[..last]);
      StepBuysProperly(before, steps[last]);
      if k < |before.trades| {
        EveryFillIsProper(lots, steps[..last], k);
        var i :| 0 <= i < last && Buys(Run(lots, steps[..last][..i]), steps[..last][i], before.trades[k]);
        assert steps[..last][..i] == steps[..i];
      }
    }
  }

  // What is bought for sure.

  /** Nothing before target `i` gets in its way: no order that the ledger fails, none of its contract or underlying. */
  predicate Clear(targets: seq<Target>, i: nat)
    requires i < |targets| && targets[i].entry.Proposed?
  {
    forall j :: 0 <= j < i ==>
      && targets[j].symbol != targets[i].symbol
      && (targets[j].entry.Proposed? ==>
            targets[j].entry.booked && targets[j].entry.candidate.contract != targets[i].entry.candidate.contract)
  }

  lemma EvaluateElsewhere(s: Loop, snapshot: Snapshot, target: Target, symbol: string, contract: Contract)
    requires Tidy(s) && s.health.Running? && !s.halted && s.lastSequence == Some(snapshot.sequence)
    requires target.symbol != symbol
    requires target.entry.Proposed? ==> target.entry.booked && target.entry.candidate.contract != contract
    requires (snapshot.sequence, symbol) !in s.seen && !Taken(s, contract)
    ensures var (next, raised) := Evaluate(s, snapshot, target);
            && !raised && Tidy(next) && next.health == s.health && next.halted == s.halted && next.lots == s.lots
            && next.lastSequence == s.lastSequence
            && (snapshot.sequence, symbol) !in next.seen && !Taken(next, contract) && s.trades <= next.trades
  {
    hide Ordered;
    OrderedIsBuyable(s, snapshot, target);
    RegisteringNeverRaises(s, snapshot, target);
    EvaluateAllTidy(s, snapshot, [target]);
    assert EvaluateAll(s, snapshot, [target]) == Evaluate(s, snapshot, target).0;
  }

  lemma {:induction false} BuysTarget(s: Loop, snapshot: Snapshot, targets: seq<Target>, i: nat, lot: int)
    requires Tidy(s) && s.health.Running? && !s.halted && s.lastSequence == Some(snapshot.sequence) && snapshot.timely
    requires i < |targets| && Buyable(snapshot, targets[i], lot) && Clear(targets, i)
    requires (snapshot.sequence, targets[i].symbol) !in s.seen && !Taken(s, targets[i].entry.candidate.contract)
    ensures s.trades <= EvaluateAll(s, snapshot, targets).trades
    ensures FillOf(s.lots, snapshot, targets[i], lot) in EvaluateAll(s, snapshot, targets).trades[|s.trades|..]
    decreases i
  {
    hide Evaluate, Buyable, Taken, Tidy;
    var next := Evaluate(s, snapshot, targets[0]).0;
    BuyableIsProposed(snapshot, targets[i], lot);
    EvaluatingOnlyAdds(s, snapshot, targets);
    if i == 0 {
      EvaluateExactlyWhen(s, snapshot, targets[0], lot);
      EvaluatingOnlyAdds(next, snapshot, targets[1..]);
      assert EvaluateAll(s, snapshot, targets).trades[|s.trades|] == FillOf(s.lots, snapshot, targets[0], lot);
    } else {
      EvaluateElsewhere(s, snapshot, targets[0], targets[i].symbol, targets[i].entry.candidate.contract);
      BuysTarget(next, snapshot, targets[1..], i - 1, lot);
      LaterPart(s.trades, next.trades, EvaluateAll(s, snapshot, targets).trades,
                FillOf(s.lots, snapshot, targets[i], lot));
    }
  }

  lemma LaterPart(a: seq<Trade>, b: seq<Trade>, c: seq<Trade>, t: Trade)
    requires a <= b <= c && t in c[|b|..]
    ensures t in c[|a|..]
  {
    var k :| 0 <= k < |c[|b|..]| && c[|b|..][k] == t;
    assert c[|a|..][|b| - |a| + k] == t;
  }

  /** An order that the ledger fails ends the cycle: nothing after it is looked at. */
  lemma LedgerFailureEndsTheCycle(s: Loop, snapshot: Snapshot, target: Target, later: seq<Target>, lot: int)
    requires target.entry.Proposed? && !target.entry.booked
    requires Buyable(snapshot, target.(entry := target.entry.(booked := true)), lot)
    requires (snapshot.sequence, target.symbol) !in s.seen && !Taken(s, target.entry.candidate.contract)
    ensures EvaluateAll(s, snapshot, [target] + later) == s
  {
    hide Taken;
    assert Ordered(s, snapshot, target) == Some(lot);
    assert ([target] + later)[0] == target;
  }

  /** On every run: when a session that is up and not halted gets a new, valid, timely event with entries allowed, and
      no position is stuck at the close, then every buyable target whose contract is not held, and which nothing
      before it gets in the way of, is bought. */
  lemma BuysWhatItCan(lots: Lots, steps: seq<Step>, cycle: Cycle, i: nat, lot: int)
    requires var s := Run(lots, steps); Gets(s, cycle) && !s.halted && !Jams(s.positions, cycle.poll.snapshot)
    requires cycle.poll.snapshot.timely && cycle.poll.snapshot.entriesAllowed
    requires i < |cycle.poll.snapshot.targets|
    requires Buyable(cycle.poll.snapshot, cycle.poll.snapshot.targets[i], lot) && Clear(cycle.poll.snapshot.targets, i)
    requires !Held(Run(lots, steps).positions, cycle.poll.snapshot.targets[i].entry.candidate.contract)
    ensures var s, after := Run(lots, steps), Run(lots, steps + [RunOnce(cycle)]);
            && s.trades <= after.trades
            && FillOf(lots, cycle.poll.snapshot, cycle.poll.snapshot.targets[i], lot) in after.trades[|s.trades|..]
  {
    hide RunCycle, Buyable, Tidy, Held, Taken, Jams, Clear, ManagePositions, EvaluateAll, Managed;
    var s, snapshot := Run(lots, steps), cycle.poll.snapshot;
    var managed, target := Managed(s, snapshot), snapshot.targets[i];
    assert (steps + [RunOnce(cycle)])[..|steps|] == steps;
    BuyableIsProposed(snapshot, target, lot);
    RunIsTidy(lots, steps);
    ManageTidy(s, snapshot);
    RunOnSnapshot(s, cycle);
    StaysFree(lots, steps, snapshot, target.entry.candidate.contract, target.symbol);
    ManagingOnlySells(s, snapshot);
    BuysTarget(managed, snapshot, snapshot.targets, i, lot);
    LaterPart(s.trades, managed.trades, EvaluateAll(managed, snapshot, snapshot.targets).trades,
              FillOf(lots, snapshot, target, lot));
  }

  /** Managing the positions takes no contract and sees no underlying. */
  lemma StaysFree(lots: Lots, steps: seq<Step>, snapshot: Snapshot, contract: Contract, symbol: string)
    requires var s := Run(lots, steps);
             && !s.halted && !Jams(s.positions, snapshot) && !Held(s.positions, contract)
             && (s.lastSequence.Some? ==> s.lastSequence.value < snapshot.sequence)
    ensures var managed := Managed(Run(lots, steps), snapshot);
            && managed.health.Running? && !managed.halted && !managed.unresolved
            && (snapshot.sequence, symbol) !in managed.seen && !Taken(managed, contract)
  {
    hide Run, Jams, ManagePositions, Decisions;
    var s := Run(lots, steps);
    var started := OnEvent(s, snapshot);
    RunIsTidy(lots, steps);
    OpenIsHeld(lots, steps, contract);
    DecisionsMeaning(s.positions, snapshot.exits);
    ManageCloses(started, snapshot);
  }

  /** A fresh session that was started buys the first buyable target of its first event. */
  lemma FirstEventBuys(lots: Lots, cycle: Cycle, lot: int)
    requires !cycle.timedOut && !cycle.intervalPending && cycle.poll.Event?
    requires var snapshot := cycle.poll.snapshot;
             && snapshot.header && snapshot.body && snapshot.sequence >= 1 && snapshot.timely && snapshot.entriesAllowed
             && snapshot.targets != [] && Buyable(snapshot, snapshot.targets[0], lot)
    ensures var s := Run(lots, [Start(Approved), RunOnce(cycle)]);
            FillOf(lots, cycle.poll.snapshot, cycle.poll.snapshot.targets[0], lot) in s.trades
  {
    hide RunCycle, Buyable;
    var steps := [Start(Approved)];
    assert steps[..0] == [] && Run(lots, []) == Fresh(lots);
    var s := Run(lots, steps);
    assert s == Fresh(lots).(health := FeedReconnect.Ready);
    assert steps + [RunOnce(cycle)] == [Start(Approved), RunOnce(cycle)];
    BuyableIsProposed(cycle.poll.snapshot, cycle.poll.snapshot.targets[0], lot);
    BuysWhatItCan(lots, steps, cycle, 0, lot);
  }

  // Starting and stopping.

  /** A session is READY only when it was started on an approved provider. */
  lemma {:induction false} ReadyMeansApproved(lots: Lots, steps: seq<Step>)
    requires Run(lots, steps).health.Ready?
    ensures Start(Approved) in steps
    decreases |steps|
  {
    hide RunCycle;
    if steps != [] {
      var last := |steps| - 1;
      var before := Run(lots, steps[..last]);
      if steps[last].RunOnce? {
        var cycle := steps[last].cycle;
        OtherCycles(before, cycle);
        if Gets(before, cycle) && cycle.poll.snapshot.timely {
          AfterSnapshot(before, cycle);
        }
        ReadyMeansApproved(lots, steps[..last]);
      }
    }
  }

  /** After a stop nothing is bought or sold until the next start. */
  lemma {:induction false} StoppedTradesNothing(lots: Lots, before: seq<Step>, more: seq<Step>)
    requires forall step <- more :: !step.Start?
    ensures var s := Run(lots, before + [Stop] + more);
            s.health.Stopped? && s.trades == Run(lots, before).trades && s.positions == Run(lots, before).positions
    decreases |more|
  {
    hide RunCycle;
    var steps := before + [Stop] + more;
    if more == [] {
      assert steps[..|steps| - 1] == before;
    } else {
      var last := |more| - 1;
      StoppedTradesNothing(lots, before, more[..last]);
      assert steps[..|steps| - 1] == before + [Stop] + more[..last];
      assert more[last] in more;
      if more[last].RunOnce? {
        OtherCycles(Run(lots, before + [Stop] + more[..last]), more[last].cycle);
      }
    }
  }
}
