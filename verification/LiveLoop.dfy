/** The live paper-trading loop. Prices, strategies, research, the risk guard and the ledger are inputs of a cycle. */
module LiveLoop {
  import opened Basics
  import FeedReconnect

  type Health = FeedReconnect.Health
  type Contract = string

  datatype PositionState = Open | ExitPending | Closed

  datatype Position = Position(contract: Contract, quantity: int, state: PositionState)

  /** One accepted order, with the snapshot it happened on and what the session looked like. */
  datatype Trade = Filled(contract: Contract, quantity: int, sequence: int, health: Health, halted: bool, timely: bool)
                 | Sold(contract: Contract, quantity: int, sequence: int)

  /** How many lots an entry buys; the configuration refuses fewer than one. */
  type Lots = n: int | n >= 1 witness 1

  // Inputs of one cycle.

  /** How far an exit decision gets. `atClose` marks the square-off at the end of the session. */
  datatype Exit = Stay | Unpriced | Leave(atClose: bool, outcome: ExitOutcome)

  datatype ExitOutcome = NoExitPrice | GuardRefusedExit | LedgerFailedExit | ExitDone

  /** The option that was picked; `contract` is the identity that positions go by. */
  datatype Candidate = Candidate(id: string, symbol: string, contract: Contract, kind: string, intent: string,
                                 bid: Option<int>, ask: Option<int>)

  /** What the evaluation of one underlying comes to: no candidate, or one, with what research, the risk guard and the
      ledger say to it. */
  datatype Entry = NoTrade
                 | Proposed(direction: string, candidate: Candidate, researched: bool, approved: bool, booked: bool)

  datatype Target = Target(symbol: string, entry: Entry)

  /** `header` and `body` say whether the event passes the checks before and after the one of its sequence number;
      `exits` says what the marks and the exit rules decide for each position. */
  datatype Snapshot = Snapshot(sequence: int, header: bool, body: bool, timely: bool, closeDue: bool,
                               exits: nat -> Exit, entriesAllowed: bool, lotSizes: map<string, int>,
                               targets: seq<Target>)

  datatype Poll = Failed | Empty(providerStopped: bool) | ControlFrame | Event(snapshot: Snapshot)

  datatype Cycle = Cycle(timedOut: bool, intervalPending: bool, poll: Poll)

  datatype Started = ConnectRaised | NotApproved | Approved

  datatype Step = Start(result: Started) | Stop | RunOnce(cycle: Cycle)

  /** Positions are numbered in order of opening; `trades` is the history. */
  datatype Loop = Loop(lots: Lots, health: Health, positions: seq<Position>, byContract: map<Contract, nat>,
                       open: set<Contract>, closedNow: set<Contract>, seen: set<(int, string)>, halted: bool,
                       unresolved: bool, lastSequence: Option<int>, trades: seq<Trade>)

  predicate HasOpen(s: Loop, contract: Contract) {
    && contract in s.byContract && s.byContract[contract] < |s.positions|
    && s.positions[s.byContract[contract]].state.Open?
  }

  // Closing.

  function Halt(s: Loop): Loop { s.(halted := true, unresolved := true) }

  /** An exit that did not go through leaves the position open; at the session close it halts the loop. */
  function AbortExit(s: Loop, atClose: bool): Loop {
    if atClose then Halt(s).(health := FeedReconnect.Degraded) else s
  }

  function ClosePosition(s: Loop, sequence: int, id: nat, exit: Exit): Loop
    requires exit.Leave?
  {
    if id >= |s.positions| || s.positions[id].state.Closed? then s
    else
      var position := s.positions[id];
      var back := s.(positions := s.positions[id := position.(state := Open)]);
      match exit.outcome
      case NoExitPrice => AbortExit(back, exit.atClose)
      case GuardRefusedExit => AbortExit(back, exit.atClose)
      case LedgerFailedExit => back
      case ExitDone =>
        s.(positions := s.positions[id := position.(state := Closed)], open := s.open - {position.contract},
           closedNow := s.closedNow + {position.contract},
           trades := s.trades + [Sold(position.contract, position.quantity, sequence)])
  }

  /** The open positions the exit rules decide to leave, in order. */
  function Decisions(positions: seq<Position>, exits: nat -> Exit): (ids: seq<nat>)
    ensures forall id <- ids :: id < |positions| && positions[id].state.Open? && exits(id).Leave?
  {
    if positions == [] then []
    else
      var last := |positions| - 1;
      var ids := Decisions(positions[..last], exits);
      if positions[last].state.Open? && exits(last).Leave? then ids + [last] else ids
  }

  predicate Unresolved(positions: seq<Position>, snapshot: Snapshot) {
    snapshot.closeDue && exists id :: 0 <= id < |positions| && positions[id].state.Open? && snapshot.exits(id).Unpriced?
  }

  function CloseAll(s: Loop, snapshot: Snapshot, ids: seq<nat>): Loop
    requires forall id <- ids :: snapshot.exits(id).Leave?
    decreases |ids|
  {
    if ids == [] then s
    else CloseAll(ClosePosition(s, snapshot.sequence, ids[0], snapshot.exits(ids[0])), snapshot, ids[1..])
  }

  function ManagePositions(s: Loop, snapshot: Snapshot): Loop {
    var ids := Decisions(s.positions, snapshot.exits);
    var marked := if Unresolved(s.positions, snapshot) then Halt(s) else s;
    var managed := CloseAll(marked, snapshot, ids);
    if managed.halted then managed.(health := FeedReconnect.Degraded) else managed
  }

  // Opening.

  predicate Healthy(health: Health, timely: bool) { (health.Ready? || health.Running?) && timely }

  predicate AllowsEntries(s: Loop, snapshot: Snapshot) {
    Healthy(s.health, snapshot.timely) && !s.halted && !s.unresolved && snapshot.entriesAllowed
  }

  predicate Taken(s: Loop, contract: Contract) {
    contract in s.open || contract in s.closedNow || HasOpen(s, contract)
  }

  function Lookup(lotSizes: map<string, int>, key: string): Option<int> {
    if key in lotSizes then Some(lotSizes[key]) else None
  }

  /** The lot by candidate id, a zero as good as none, else by symbol; by identity only when both say nothing. */
  function LotOf(lotSizes: map<string, int>, c: Candidate): Option<int> {
    var byId, bySymbol := Lookup(lotSizes, c.id), Lookup(lotSizes, c.symbol);
    var either := if byId.Some? && byId.value != 0 then byId else bySymbol;
    if either.None? then Lookup(lotSizes, c.contract) else either
  }

  predicate WrongSide(direction: string, kind: string) {
    (direction == "BULLISH" && kind != "CE") || (direction == "BEARISH" && kind != "PE")
  }

  /** The simulator gives no entry price. */
  predicate Unenterable(c: Candidate) {
    || c.intent != "BUY" || (c.kind != "CE" && c.kind != "PE")
    || c.ask.None? || c.ask.value <= 0
    || (c.bid.Some? && (c.bid.value <= 0 || c.bid.value > c.ask.value))
  }

  function Fill(s: Loop, snapshot: Snapshot, target: Target, contract: Contract, quantity: int): Loop {
    s.(seen := s.seen + {(snapshot.sequence, target.symbol)}, open := s.open + {contract},
       trades := s.trades + [Filled(contract, quantity, snapshot.sequence, s.health, s.halted, snapshot.timely)])
  }

  /** What the registry raises for. */
  predicate Unregistrable(s: Loop, contract: Contract, kind: string, lot: int, lots: int, quantity: int) {
    || lot < 1 || lots < 1 || quantity < 1 || quantity != lots * lot
    || (kind != "CE" && kind != "PE") || HasOpen(s, contract)
  }

  function Register(s: Loop, contract: Contract, quantity: int): Loop {
    s.(positions := s.positions + [Position(contract, quantity, Open)],
       byContract := s.byContract[contract := |s.positions|])
  }

  /** The lot of an entry that gets as far as an order, in the order of the checks. */
  function Ordered(s: Loop, snapshot: Snapshot, target: Target): Option<int> {
    if (snapshot.sequence, target.symbol) in s.seen || target.entry.NoTrade? then None
    else
      var c, lot := target.entry.candidate, LotOf(snapshot.lotSizes, target.entry.candidate);
      if lot.None? || lot.value < 1 || WrongSide(target.entry.direction, c.kind) || !target.entry.researched then None
      else if Taken(s, c.contract) || Unenterable(c) || !target.entry.approved then None
      else lot
  }

  /** The second component is set when the evaluation raises out of the cycle. */
  function Evaluate(s: Loop, snapshot: Snapshot, target: Target): (Loop, bool) {
    var lot := Ordered(s, snapshot, target);
    if lot.None? then (s, false)
    else if !target.entry.booked then (s, true)
    else
      var c, quantity := target.entry.candidate, s.lots * lot.value;
      var filled := Fill(s, snapshot, target, c.contract, quantity);
      if Unregistrable(filled, c.contract, c.kind, lot.value, s.lots, quantity) then (filled, true)
      else (Register(filled, c.contract, quantity), false)
  }

  function EvaluateAll(s: Loop, snapshot: Snapshot, targets: seq<Target>): Loop
    decreases |targets|
  {
    if targets == [] then s
    else
      var (next, raised) := Evaluate(s, snapshot, targets[0]);
      if raised then next else EvaluateAll(next, snapshot, targets[1..])
  }

  // One cycle.

  function Process(s: Loop, snapshot: Snapshot): Loop {
    var noted := s.(lastSequence := Some(snapshot.sequence));
    if !snapshot.timely then noted.(health := FeedReconnect.Stale)
    else
      var managed := ManagePositions(noted.(health := FeedReconnect.Running, closedNow := {}), snapshot);
      if AllowsEntries(managed, snapshot) then EvaluateAll(managed, snapshot, snapshot.targets) else managed
  }

  predicate Rejected(last: Option<int>, snapshot: Snapshot) {
    || !snapshot.header || snapshot.sequence < 1
    || (last.Some? && snapshot.sequence <= last.value)
    || !snapshot.body
  }

  predicate Repeated(last: Option<int>, snapshot: Snapshot) {
    snapshot.header && snapshot.sequence >= 1 && last == Some(snapshot.sequence)
  }

  function Normalise(s: Loop, snapshot: Snapshot): Loop {
    if Repeated(s.lastSequence, snapshot) then s
    else if Rejected(s.lastSequence, snapshot) then s.(health := FeedReconnect.Degraded)
    else Process(s, snapshot)
  }

  predicate Down(health: Health) { health.Disconnected? || health.Stopped? || health.Connecting? }

  predicate AnyOpen(positions: seq<Position>) { exists id :: 0 <= id < |positions| && positions[id].state.Open? }

  function RunCycle(s: Loop, cycle: Cycle): Loop {
    if Down(s.health) then s
    else if cycle.timedOut then (if AnyOpen(s.positions) then Halt(s) else s).(health := FeedReconnect.Stopped)
    else if cycle.intervalPending then s
    else
      match cycle.poll
      case Failed => s.(health := FeedReconnect.Degraded)
      case Empty(stopped) => s.(health := if stopped then FeedReconnect.Stopped else FeedReconnect.Degraded)
      case ControlFrame => s
      case Event(snapshot) => Normalise(s, snapshot)
  }

  function Apply(s: Loop, step: Step): Loop {
    match step
    case Start(result) =>
      s.(health := match result case ConnectRaised => FeedReconnect.Connecting
                                case NotApproved => FeedReconnect.Degraded
                                case Approved => FeedReconnect.Ready)
    case Stop => s.(health := FeedReconnect.Stopped)
    case RunOnce(cycle) => RunCycle(s, cycle)
  }

  function Fresh(lots: Lots): Loop {
    Loop(lots, FeedReconnect.Disconnected, [], map[], {}, {}, {}, false, false, None, [])
  }

  function Run(lots: Lots, steps: seq<Step>): Loop {
    if steps == [] then Fresh(lots) else Apply(Run(lots, steps[..|steps| - 1]), steps[|steps| - 1])
  }

  // The object.

  class LivePaperLoop {
    const lots: Lots
    var health: Health
    var positions: seq<Position>
    var byContract: map<Contract, nat>
    var open: set<Contract>
    var closedNow: set<Contract>
    var seen: set<(int, string)>
    var halted: bool
    var unresolved: bool
    var lastSequence: Option<int>
    ghost var trades: seq<Trade>

    ghost function State(): Loop
      reads this
    {
      Loop(lots, health, positions, byContract, open, closedNow, seen, halted, unresolved, lastSequence, trades)
    }

    constructor (lots: Lots)
      ensures State() == Fresh(lots)
    {
      this.lots := lots;
      health, positions, byContract, open, closedNow := FeedReconnect.Disconnected, [], map[], {}, {};
      seen, halted, unresolved, lastSequence, trades := {}, false, false, None, [];
    }

    method CloseOne(id: nat, sequence: int, exit: Exit)
      requires exit.Leave?
      modifies this
      ensures State() == ClosePosition(old(State()), sequence, id, exit)
    {
      if id >= |positions| || positions[id].state.Closed? {
        return;
      }
      var position := positions[id];
      positions := positions[id := position.(state := ExitPending)];
      match exit.outcome {
        case LedgerFailedExit =>
          positions := positions[id := position.(state := Open)];
        case ExitDone =>
          positions := positions[id := position.(state := Closed)];
          trades := trades + [Sold(position.contract, position.quantity, sequence)];
          open := open - {position.contract};
          closedNow := closedNow + {position.contract};
        case _ =>
          positions := positions[id := position.(state := Open)];
          if exit.atClose {
            unresolved, halted := true, true;
            health := FeedReconnect.Degraded;
          }
      }
    }

    method Manage(snapshot: Snapshot)
      modifies this
      ensures State() == ManagePositions(old(State()), snapshot)
    {
      hide Decisions, ClosePosition;
      var ids := Decisions(positions, snapshot.exits);
      if Unresolved(positions, snapshot) {
        unresolved, halted := true, true;
      }
      ghost var marked := State();
      assert ids[0..] == ids;
      for i := 0 to |ids|
        invariant CloseAll(marked, snapshot, ids) == CloseAll(State(), snapshot, ids[i..])
      {
        assert ids[i..][1..] == ids[i + 1..];
        CloseOne(ids[i], snapshot.sequence, snapshot.exits(ids[i]));
      }
      if halted {
        health := FeedReconnect.Degraded;
      }
    }

    predicate IsOpen(contract: Contract)
      reads this
    {
      && contract in byContract && byContract[contract] < |positions|
      && positions[byContract[contract]].state.Open?
    }

    method EvaluateOne(snapshot: Snapshot, target: Target) returns (raised: bool)
      modifies this
      ensures (State(), raised) == Evaluate(old(State()), snapshot, target)
    {
      if (snapshot.sequence, target.symbol) in seen || target.entry.NoTrade? {
        return false;
      }
      var Proposed(direction, c, researched, approved, booked) := target.entry;
      var lot := LotOf(snapshot.lotSizes, c);
      if lot.None? || lot.value < 1 || WrongSide(direction, c.kind) || !researched {
        return false;
      }
      var held := IsOpen(c.contract);
      if c.contract in open || c.contract in closedNow || held || Unenterable(c) || !approved {
        return false;
      }
      if !booked {
        return true;
      }
      var quantity := lots * lot.value;
      trades := trades + [Filled(c.contract, quantity, snapshot.sequence, health, halted, snapshot.timely)];
      seen := seen + {(snapshot.sequence, target.symbol)};
      open := open + {c.contract};
      raised := RegisterOpen(c.contract, c.kind, lot.value, quantity);
    }

    method RegisterOpen(contract: Contract, kind: string, lot: int, quantity: int) returns (raised: bool)
      modifies this
      ensures raised <==> Unregistrable(old(State()), contract, kind, lot, lots, quantity)
      ensures State() == if raised then old(State()) else Register(old(State()), contract, quantity)
    {
      if lot < 1 || lots < 1 || quantity < 1 || quantity != lots * lot || (kind != "CE" && kind != "PE") {
        return true;
      }
      if IsOpen(contract) {
        return true;
      }
      byContract := byContract[contract := |positions|];
      positions := positions + [Position(contract, quantity, Open)];
      return false;
    }

    method EvaluateTargets(snapshot: Snapshot)
      modifies this
      ensures State() == EvaluateAll(old(State()), snapshot, snapshot.targets)
    {
      hide Evaluate;
      var targets := snapshot.targets;
      assert targets[0..] == targets;
      for i := 0 to |targets|
        invariant EvaluateAll(old(State()), snapshot, targets) == EvaluateAll(State(), snapshot, targets[i..])
      {
        assert targets[i..][1..] == targets[i + 1..];
        var raised := EvaluateOne(snapshot, targets[i]);
        if raised {
          return;
        }
      }
    }

    method RunOnce(cycle: Cycle)
      modifies this
      ensures State() == RunCycle(old(State()), cycle)
    {
      hide ManagePositions, EvaluateAll;
      if Down(health) {
        return;
      }
      if cycle.timedOut {
        if AnyOpen(positions) {
          halted, unresolved := true, true;
          health := FeedReconnect.Degraded;
        }
        health := FeedReconnect.Stopped;
        return;
      }
      if cycle.intervalPending || cycle.poll.ControlFrame? {
        return;
      }
      if !cycle.poll.Event? {
        var stopped := cycle.poll.Empty? && cycle.poll.providerStopped;
        health := if stopped then FeedReconnect.Stopped else FeedReconnect.Degraded;
        return;
      }
      OnSnapshot(cycle.poll.snapshot);
    }

    method OnSnapshot(snapshot: Snapshot)
      modifies this
      ensures State() == Normalise(old(State()), snapshot)
    {
      hide ManagePositions, EvaluateAll;
      if Repeated(lastSequence, snapshot) {
        return;
      }
      if Rejected(lastSequence, snapshot) {
        health := FeedReconnect.Degraded;
        return;
      }
      lastSequence := Some(snapshot.sequence);
      if !snapshot.timely {
        health := FeedReconnect.Stale;
        return;
      }
      health := FeedReconnect.Running;
      closedNow := {};
      Manage(snapshot);
      if Healthy(health, snapshot.timely) && !halted && !unresolved && snapshot.entriesAllowed {
        EvaluateTargets(snapshot);
      }
    }
  }
}
