/** Several processes sharing one replay directory, as a transition system over single file-system actions. */
module ReplayProtocol {
  import opened Basics
  import opened ReplayRecords

  type Pid = nat

  /** Where a process stands inside one store call. `Looking` reads without the lock; `Locked` to `Releasing` hold it.
      */
  datatype Phase =
    | Loading(todo: seq<Id>)
    | Idle
    | Looking(id: Id)
    | Missed(id: Id)
    | Found(id: Id, row: Record)
    | Waiting(op: Op)
    | Locked(op: Op)
    | Pending(op: Op, row: Record)
    | Remembering(id: Id, row: Record)
    | Releasing(id: Id, reply: Reply)
    | Replied(reply: Reply)

  datatype Process = Process(memory: Rows, phase: Phase, ticket: nat)

  type Processes = map<Pid, Process>

  /** One logged instant: the operation called as number `ticket` took effect with this answer. */
  datatype Entry = Entry(ticket: nat, op: Op, reply: Reply)

  /** The directory, with its history: operations in call order, the instants they took effect, what they answered
      then. */
  datatype Shared = Shared(disk: Rows, invoked: seq<Op>, log: seq<Entry>, answers: map<nat, Reply>)

  /** `replies` is what the callers got back. */
  datatype System = System(shared: Shared, locks: map<Id, Pid>, procs: Processes, replies: map<nat, Reply>)

  datatype Decision = Keep(row: Record) | Refuse(why: Refusal) | Write(row: Record)

  /** What a lock holder does with the row it has just re-read. */
  function Decide(op: Op, seen: Option<Record>): Decision {
    match op
    case Get(_) => Refuse(UnknownDecision)
    case Append(row) =>
      if seen.None? then Write(row) else if seen.value != row then Refuse(AppendOnly) else Keep(seen.value)
    case RecordCycle(cycle) =>
      if seen.None? then Write(cycle.Entry()) else Keep(seen.value)
    case AttachExit(_, position) =>
      if seen.None? then Refuse(UnknownDecision)
      else if seen.value.exit.Some? || seen.value.pnl.Some? then
        if seen.value.exit == Some(ExitOf(position)) && seen.value.pnl == Some(PnlOf(position))
        then Keep(seen.value) else Refuse(ExitRecorded)
      else if !FillAllows(seen.value, position) then Refuse(PositionMismatch)
      else Write(WithExit(seen.value, position))
  }

  function OnDisk(rows: Rows, id: Id): Option<Record> {
    if id in rows then Some(rows[id]) else None
  }

  // The single actions. `p` is the process that acts.

  function Goto(s: System, p: Pid, phase: Phase): System
    requires p in s.procs
  {
    s.(procs := s.procs[p := s.procs[p].(phase := phase)])
  }

  function Recall(s: System, p: Pid, row: Record, id: Id, phase: Phase): System
    requires p in s.procs
  {
    s.(procs := s.procs[p := Process(s.procs[p].memory[id := row], phase, s.procs[p].ticket)])
  }

  /** The operation of `p` takes effect now, with this answer. */
  function Effect(s: System, p: Pid, op: Op, reply: Reply): System
    requires p in s.procs
  {
    s.(shared := s.shared.(log := s.shared.log + [Entry(s.procs[p].ticket, op, reply)],
                           answers := s.shared.answers[s.procs[p].ticket := reply]))
  }

  function Call(s: System, p: Pid, op: Op): System
    requires p in s.procs
  {
    s.(shared := s.shared.(invoked := s.shared.invoked + [op]),
       procs := s.procs[p := s.procs[p].(ticket := |s.shared.invoked|)])
  }

  predicate TakesLock(op: Op) {
    !op.Get? && (op.AttachExit? ==> op.position.closed)
  }

  function Invoke(s: System, p: Pid, op: Op): System
    requires p in s.procs
  {
    if op.Get? then Goto(Call(s, p, op), p, Looking(op.id))
    else if TakesLock(op) then Goto(Call(s, p, op), p, Waiting(op))
    else Goto(Effect(Call(s, p, op), p, op, Refused(NotClosed)), p, Replied(Refused(NotClosed)))
  }

  function LookUp(s: System, p: Pid, id: Id): System
    requires p in s.procs
  {
    if id in s.shared.disk then Goto(Effect(s, p, Get(id), Row(s.shared.disk[id])), p, Found(id, s.shared.disk[id]))
    else Goto(Effect(s, p, Get(id), Refused(UnknownDecision)), p, Missed(id))
  }

  function FallBack(s: System, p: Pid, id: Id): System
    requires p in s.procs
  {
    Goto(s, p, Replied(if id in s.procs[p].memory then Row(s.procs[p].memory[id]) else Refused(UnknownDecision)))
  }

  function ReadDisk(s: System, p: Pid, op: Op): System
    requires p in s.procs
  {
    match Decide(op, OnDisk(s.shared.disk, op.Key()))
    case Keep(row) => Goto(Effect(s, p, op, Row(row)), p, Remembering(op.Key(), row))
    case Refuse(why) => Goto(Effect(s, p, op, Refused(why)), p, Releasing(op.Key(), Refused(why)))
    case Write(row) => Goto(s, p, Pending(op, row))
  }

  function WriteDisk(s: System, p: Pid, op: Op, row: Record): System
    requires p in s.procs
  {
    var written := s.(shared := s.shared.(disk := s.shared.disk[op.Key() := row]));
    Goto(Effect(written, p, op, Row(row)), p, Remembering(op.Key(), row))
  }

  function LoadOne(s: System, p: Pid, id: Id, rest: seq<Id>): System
    requires p in s.procs
  {
    // A listed file that has gone makes the constructor raise.
    if id in s.shared.disk then Recall(s, p, s.shared.disk[id], s.shared.disk[id].decisionId, Loading(rest))
    else s.(procs := s.procs - {p})
  }

  function Crash(s: System, p: Pid): System {
    s.(procs := s.procs - {p}, locks := map id | id in s.locks && s.locks[id] != p :: s.locks[id])
  }

  datatype Step =
    | Spawn(listing: seq<Id>)
    | Begin(op: Op)
    | Advance
    | Fail
    | Die

  predicate Enabled(s: System, p: Pid, step: Step) {
    if step.Spawn? then p !in s.procs && forall id <- step.listing :: id in s.shared.disk
    else
      p in s.procs &&
      var phase := s.procs[p].phase;
      match step
      case Begin(_) => phase.Idle?
      case Advance => !phase.Idle? && (phase.Waiting? ==> phase.op.Key() !in s.locks)
      case Fail => phase.Looking? || phase.Waiting? || phase.Locked? || phase.Pending?
      case _ => true
  }

  /** The next action of a process that goes on normally. */
  function Advanced(s: System, p: Pid): System
    requires p in s.procs
  {
    match s.procs[p].phase
    case Loading(todo) => if todo == [] then Goto(s, p, Idle) else LoadOne(s, p, todo[0], todo[1..])
    case Idle => s
    case Looking(id) => LookUp(s, p, id)
    case Missed(id) => FallBack(s, p, id)
    case Found(id, row) => Recall(s, p, row, id, Replied(Row(row)))
    case Waiting(op) => Goto(s.(locks := s.locks[op.Key() := p]), p, Locked(op))
    case Locked(op) => ReadDisk(s, p, op)
    case Pending(op, row) => WriteDisk(s, p, op, row)
    case Remembering(id, row) => Recall(s, p, row, id, Releasing(id, Row(row)))
    case Releasing(id, reply) => Goto(s.(locks := s.locks - {id}), p, Replied(reply))
    case Replied(reply) => Goto(s.(replies := s.replies[s.procs[p].ticket := reply]), p, Idle)
  }

  /** The action raises instead: a lock deadline, an unreadable file, a write that never replaced the file. */
  function Failing(s: System, p: Pid): System
    requires p in s.procs
  {
    match s.procs[p].phase
    case Locked(op) => Goto(s, p, Releasing(op.Key(), Failed))
    case Pending(op, _) => Goto(s, p, Releasing(op.Key(), Failed))
    case _ => Goto(s, p, Replied(Failed))
  }

  function Apply(s: System, p: Pid, step: Step): System
    requires Enabled(s, p, step)
  {
    match step
    case Spawn(listing) => s.(procs := s.procs[p := Process(map[], Loading(listing), 0)])
    case Begin(op) => Invoke(s, p, op)
    case Advance => Advanced(s, p)
    case Fail => Failing(s, p)
    case Die => Crash(s, p)
  }

  /** A directory nobody has open yet, filed by decision id. */
  ghost predicate Initial(s: System) {
    && Keyed(s.shared.disk) && s.shared.invoked == [] && s.shared.log == [] && s.shared.answers == map[]
    && s.locks == map[] && s.procs == map[] && s.replies == map[]
  }

  /** Any interleaving: `states[i + 1]` follows from `states[i]` by one enabled action of one process. */
  ghost predicate Run(states: seq<System>, who: seq<Pid>, steps: seq<Step>) {
    && |states| == |steps| + 1 && |who| == |steps|
    && Initial(states[0])
    && forall i :: 0 <= i < |steps| ==>
         Enabled(states[i], who[i], steps[i]) && states[i + 1] == Apply(states[i], who[i], steps[i])
  }

  // The atomic map driven by the log.

  function Replay(start: Rows, log: seq<Entry>): Rows {
    if log == [] then start else Atomic(Replay(start, log[..|log| - 1]), log[|log| - 1].op).0
  }

  /** Executing the logged operations one after another on the atomic map gives the logged answers. */
  ghost predicate Legal(start: Rows, log: seq<Entry>) {
    forall k :: 0 <= k < |log| ==> Atomic(Replay(start, log[..k]), log[k].op).1 == log[k].reply
  }

  lemma LogGrows(start: Rows, log: seq<Entry>, e: Entry)
    requires Legal(start, log)
    requires Atomic(Replay(start, log), e.op).1 == e.reply
    ensures Legal(start, log + [e])
    ensures Replay(start, log + [e]) == Atomic(Replay(start, log), e.op).0
  {
    assert (log + [e])[..|log|] == log;
    forall k | 0 <= k < |log + [e]|
      ensures Atomic(Replay(start, (log + [e])[..k]), (log + [e])[k].op).1 == (log + [e])[k].reply
    {
      assert k <= |log| && (log + [e])[..k] == log[..k];
      assert log[..|log|] == log;
    }
  }

  // The invariant, one conjunct per shared resource.

  function Holds(phase: Phase): Option<Id> {
    match phase
    case Locked(op) => Some(op.Key())
    case Pending(op, _) => Some(op.Key())
    case Remembering(id, _) => Some(id)
    case Releasing(id, _) => Some(id)
    case _ => None
  }

  /** A lock file is held by exactly the process that is inside its critical section. */
  ghost predicate LocksOk(locks: map<Id, Pid>, procs: Processes) {
    && (forall id <- locks :: locks[id] in procs && Holds(procs[locks[id]].phase) == Some(id))
    && (forall p <- procs :: Holds(procs[p].phase).Some? ==>
          Holds(procs[p].phase).value in locks && locks[Holds(procs[p].phase).value] == p)
  }

  predicate Active(phase: Phase) { !phase.Loading? && !phase.Idle? }

  /** Every call in progress has its own number, and its caller has not been answered. */
  ghost predicate TicketsOk(procs: Processes, calls: nat, replied: set<nat>) {
    && (forall p <- procs :: Active(procs[p].phase) ==> procs[p].ticket < calls && procs[p].ticket !in replied)
    && (forall p, q :: p in procs && q in procs && p != q && Active(procs[p].phase) && Active(procs[q].phase)
          ==> procs[p].ticket != procs[q].ticket)
    && (forall t <- replied :: t < calls)
  }

  ghost predicate Behind(disk: Rows, id: Id, row: Record) {
    id in disk && Earlier(row, disk[id])
  }

  /** A finished call: it took effect with this answer, or it failed and never took effect. */
  ghost predicate Outcome(w: Shared, ticket: nat, reply: Reply) {
    && ticket < |w.invoked|
    && (if reply == Failed then ticket !in w.answers else ticket in w.answers && w.answers[ticket] == reply)
    && (reply.Row? ==> Behind(w.disk, w.invoked[ticket].Key(), reply.row))
  }

  /** A call that has not taken effect. */
  ghost predicate NotYet(w: Shared, ticket: nat, op: Op) {
    ticket < |w.invoked| && w.invoked[ticket] == op && ticket !in w.answers
  }

  ghost predicate PhaseOk(w: Shared, memory: Rows, ticket: nat, phase: Phase) {
    match phase
    case Loading(todo) => forall id <- todo :: id in w.disk
    case Idle => true
    case Looking(id) => NotYet(w, ticket, Get(id))
    case Missed(id) => id !in memory && Outcome(w, ticket, Refused(UnknownDecision))
    case Found(id, row) => Outcome(w, ticket, Row(row)) && w.invoked[ticket].Key() == id
    case Waiting(op) => NotYet(w, ticket, op) && TakesLock(op)
    case Locked(op) => NotYet(w, ticket, op) && TakesLock(op)
    case Pending(op, row) =>
      NotYet(w, ticket, op) && TakesLock(op) && Decide(op, OnDisk(w.disk, op.Key())) == Write(row)
    case Remembering(id, row) => Outcome(w, ticket, Row(row)) && w.invoked[ticket].Key() == id
    case Releasing(_, reply) => Outcome(w, ticket, reply)
    case Replied(reply) => Outcome(w, ticket, reply)
  }

  ghost predicate MemoryOk(disk: Rows, memory: Rows) {
    forall id <- memory :: Behind(disk, id, memory[id])
  }

  ghost predicate ProcessOk(w: Shared, proc: Process) {
    MemoryOk(w.disk, proc.memory) && PhaseOk(w, proc.memory, proc.ticket, proc.phase)
  }

  ghost predicate ProcessesOk(w: Shared, procs: Processes) {
    forall p <- procs :: ProcessOk(w, procs[p])
  }

  ghost predicate RepliesOk(w: Shared, replies: map<nat, Reply>) {
    forall t <- replies :: Outcome(w, t, replies[t])
  }

  /** The answers are the log's, and no call is logged twice. */
  ghost predicate Booked(invoked: seq<Op>, log: seq<Entry>, answers: map<nat, Reply>) {
    && (forall k :: 0 <= k < |log| ==> log[k].ticket in answers && answers[log[k].ticket] == log[k].reply)
    && (forall k :: 0 <= k < |log| ==> log[k].ticket < |invoked| && log[k].op == invoked[log[k].ticket])
    && (forall i, j :: 0 <= i < j < |log| ==> log[i].ticket != log[j].ticket)
    && (forall t <- answers :: exists k :: 0 <= k < |log| && log[k].ticket == t)
  }

  /** The log, run on the atomic map, explains the disk. */
  ghost predicate LogOk(start: Rows, w: Shared) {
    && Keyed(w.disk)
    && Legal(start, w.log) && Replay(start, w.log) == w.disk
    && Booked(w.invoked, w.log, w.answers)
  }

  ghost predicate Inv(start: Rows, s: System) {
    && LogOk(start, s.shared)
    && LocksOk(s.locks, s.procs)
    && TicketsOk(s.procs, |s.shared.invoked|, s.replies.Keys)
    && RepliesOk(s.shared, s.replies)
    && ProcessesOk(s.shared, s.procs)
  }

  /** Decide, applied to the row on disk, is the atomic operation. */
  lemma DecideIsAtomic(rows: Rows, op: Op)
    requires TakesLock(op) && Keyed(rows)
    ensures match Decide(op, OnDisk(rows, op.Key()))
            case Keep(row) => Atomic(rows, op) == (rows, Row(row))
            case Refuse(why) => Atomic(rows, op) == (rows, Refused(why))
            case Write(row) => Atomic(rows, op) == (rows[op.Key() := row], Row(row))
  {
  }

  // Locks and tickets.

  lemma LocksMove(locks: map<Id, Pid>, procs: Processes, p: Pid, locks': map<Id, Pid>, proc: Process)
    requires LocksOk(locks, procs) && p in procs
    requires var h, h' := Holds(procs[p].phase), Holds(proc.phase);
             || (h == h' && locks' == locks)
             || (h.None? && h'.Some? && h'.value !in locks && locks' == locks[h'.value := p])
             || (h.Some? && h'.None? && locks' == locks - {h.value})
    ensures LocksOk(locks', procs[p := proc])
  {
  }

  lemma LocksDrop(locks: map<Id, Pid>, procs: Processes, p: Pid)
    requires LocksOk(locks, procs)
    ensures LocksOk(map id | id in locks && locks[id] != p :: locks[id], procs - {p})
    ensures p in procs && Holds(procs[p].phase).None? ==> LocksOk(locks, procs - {p})
  {
  }

  lemma TicketsMove(procs: Processes, calls: nat, replied: set<nat>, p: Pid, proc: Process)
    requires TicketsOk(procs, calls, replied)
    requires Active(proc.phase) ==> p in procs && proc.ticket == procs[p].ticket && Active(procs[p].phase)
    ensures TicketsOk(procs[p := proc], calls, replied)
  {
  }

  lemma TicketsCall(procs: Processes, calls: nat, replied: set<nat>, p: Pid, proc: Process)
    requires TicketsOk(procs, calls, replied) && proc.ticket == calls
    ensures TicketsOk(procs[p := proc], calls + 1, replied)
  {
  }

  lemma TicketsReturn(procs: Processes, calls: nat, replied: set<nat>, p: Pid, proc: Process)
    requires TicketsOk(procs, calls, replied) && p in procs && Active(procs[p].phase) && proc.phase.Idle?
    ensures TicketsOk(procs[p := proc], calls, replied + {procs[p].ticket})
  {
  }

  // What an action of one process leaves true for the others.

  /** From `w` to `v` at most the call `mine` takes effect, and stored rows only extend. */
  ghost predicate Grows(w: Shared, v: Shared, mine: nat) {
    && Extends(w.disk, v.disk)
    && w.invoked <= v.invoked
    && (forall t: nat :: t != mine ==>
          (t in v.answers <==> t in w.answers) && (t in w.answers ==> v.answers[t] == w.answers[t]))
  }

  lemma OutcomeStays(w: Shared, v: Shared, mine: nat, ticket: nat, reply: Reply)
    requires Grows(w, v, mine) && ticket != mine && Outcome(w, ticket, reply)
    ensures Outcome(v, ticket, reply)
  {
    assert v.invoked[ticket] == w.invoked[ticket];
  }

  lemma BystanderStays(w: Shared, v: Shared, mine: nat, proc: Process)
    requires Grows(w, v, mine) && ProcessOk(w, proc)
    requires Active(proc.phase) ==> proc.ticket < |w.invoked| && proc.ticket != mine
    requires proc.phase.Pending? ==> OnDisk(v.disk, proc.phase.op.Key()) == OnDisk(w.disk, proc.phase.op.Key())
    ensures ProcessOk(v, proc)
  {
    forall id <- proc.memory
      ensures Behind(v.disk, id, proc.memory[id])
    {
      assert Behind(w.disk, id, proc.memory[id]);
      assert id in v.disk && Earlier(w.disk[id], v.disk[id]);
    }
    if Active(proc.phase) {
      assert v.invoked[proc.ticket] == w.invoked[proc.ticket];
      match proc.phase
      case Found(_, row) => OutcomeStays(w, v, mine, proc.ticket, Row(row));
      case Remembering(_, row) => OutcomeStays(w, v, mine, proc.ticket, Row(row));
      case Releasing(_, reply) => OutcomeStays(w, v, mine, proc.ticket, reply);
      case Replied(reply) => OutcomeStays(w, v, mine, proc.ticket, reply);
      case Missed(_) => OutcomeStays(w, v, mine, proc.ticket, Refused(UnknownDecision));
      case _ =>
    }
  }

  /** Mutual exclusion at work: a row being decided on by one process is not changed by another. */
  lemma OthersStay(s: System, v: Shared, p: Pid, mine: nat)
    requires ProcessesOk(s.shared, s.procs) && LocksOk(s.locks, s.procs)
    requires TicketsOk(s.procs, |s.shared.invoked|, s.replies.Keys)
    requires Grows(s.shared, v, mine)
    requires mine >= |s.shared.invoked| || (p in s.procs && Active(s.procs[p].phase) && mine == s.procs[p].ticket)
    requires forall id :: OnDisk(v.disk, id) == OnDisk(s.shared.disk, id) || (id in s.locks && s.locks[id] == p)
    ensures forall q <- s.procs :: q != p ==> ProcessOk(v, s.procs[q])
  {
    forall q <- s.procs | q != p
      ensures ProcessOk(v, s.procs[q])
    {
      BystanderStays(s.shared, v, mine, s.procs[q]);
    }
  }

  lemma RepliesStay(s: System, v: Shared, mine: nat)
    requires RepliesOk(s.shared, s.replies) && Grows(s.shared, v, mine) && mine !in s.replies
    ensures RepliesOk(v, s.replies)
  {
    forall t <- s.replies
      ensures Outcome(v, t, s.replies[t])
    {
      OutcomeStays(s.shared, v, mine, t, s.replies[t]);
    }
  }

  /** The moved process, put back among bystanders. */
  lemma Regroup(v: Shared, procs: Processes, p: Pid, proc: Process)
    requires forall q <- procs :: q != p ==> ProcessOk(v, procs[q])
    requires ProcessOk(v, proc)
    ensures ProcessesOk(v, procs[p := proc])
  {
  }

  // Actions that leave the directory alone.

  lemma QuietKeeps(start: Rows, s: System, t: System, p: Pid, proc: Process)
    requires Inv(start, s) && p in s.procs
    requires t.shared == s.shared && t.replies == s.replies && t.procs == s.procs[p := proc]
    requires ProcessOk(s.shared, s.procs[p]) ==> ProcessOk(s.shared, proc)
    requires Active(proc.phase) ==> proc.ticket == s.procs[p].ticket && Active(s.procs[p].phase)
    requires var h, h' := Holds(s.procs[p].phase), Holds(proc.phase);
             || (h == h' && t.locks == s.locks)
             || (h.None? && h'.Some? && h'.value !in s.locks && t.locks == s.locks[h'.value := p])
             || (h.Some? && h'.None? && t.locks == s.locks - {h.value})
    ensures Inv(start, t)
  {
    LocksMove(s.locks, s.procs, p, t.locks, proc);
    TicketsMove(s.procs, |s.shared.invoked|, s.replies.Keys, p, proc);
    Regroup(s.shared, s.procs, p, proc);
  }

  /** A row learnt from the directory enters the memory without overtaking the disk. */
  lemma MemoryLearns(disk: Rows, memory: Rows, id: Id, row: Record)
    requires MemoryOk(disk, memory) && Behind(disk, id, row)
    ensures MemoryOk(disk, memory[id := row])
  {
  }

  // Actions at which an operation takes effect.

  /** The directory after the call `ticket` takes effect as the atomic map says. */
  function After(w: Shared, ticket: nat, op: Op): Shared {
    w.(disk := Atomic(w.disk, op).0,
       log := w.log + [Entry(ticket, op, Atomic(w.disk, op).1)],
       answers := w.answers[ticket := Atomic(w.disk, op).1])
  }

  lemma Book(invoked: seq<Op>, log: seq<Entry>, answers: map<nat, Reply>, e: Entry)
    requires Booked(invoked, log, answers)
    requires e.ticket !in answers && e.ticket < |invoked| && invoked[e.ticket] == e.op
    ensures Booked(invoked, log + [e], answers[e.ticket := e.reply])
  {
    var grown := answers[e.ticket := e.reply];
    forall t <- grown
      ensures exists k :: 0 <= k < |log + [e]| && (log + [e])[k].ticket == t
    {
      if t == e.ticket {
        assert (log + [e])[|log|].ticket == t;
      } else {
        var k :| 0 <= k < |log| && log[k].ticket == t;
        assert (log + [e])[k].ticket == t;
      }
    }
  }

  lemma AfterGrows(w: Shared, ticket: nat, op: Op)
    requires Keyed(w.disk) && NotYet(w, ticket, op)
    ensures Grows(w, After(w, ticket, op), ticket)
    ensures Outcome(After(w, ticket, op), ticket, Atomic(w.disk, op).1)
    ensures Keyed(After(w, ticket, op).disk)
    ensures forall id :: id != op.Key() ==> OnDisk(After(w, ticket, op).disk, id) == OnDisk(w.disk, id)
    ensures !TakesLock(op) ==> After(w, ticket, op).disk == w.disk
  {
    AtomicExtends(w.disk, op);
  }

  lemma AfterLogged(start: Rows, w: Shared, ticket: nat, op: Op)
    requires LogOk(start, w) && NotYet(w, ticket, op) && Keyed(After(w, ticket, op).disk)
    ensures LogOk(start, After(w, ticket, op))
  {
    var e := Entry(ticket, op, Atomic(w.disk, op).1);
    LogGrows(start, w.log, e);
    Book(w.invoked, w.log, w.answers, e);
  }

  /** The active process takes effect and moves on. */
  lemma EffectKeeps(start: Rows, s: System, t: System, p: Pid, op: Op, proc: Process)
    requires Inv(start, s) && p in s.procs && Active(s.procs[p].phase) && NotYet(s.shared, s.procs[p].ticket, op)
    requires t == s.(shared := After(s.shared, s.procs[p].ticket, op), procs := s.procs[p := proc])
    requires Holds(proc.phase) == Holds(s.procs[p].phase)
    requires TakesLock(op) ==> Holds(s.procs[p].phase) == Some(op.Key())
    requires proc.memory == s.procs[p].memory && proc.ticket == s.procs[p].ticket && Active(proc.phase)
    requires PhaseOk(t.shared, proc.memory, proc.ticket, proc.phase)
    ensures Inv(start, t)
  {
    var w, v, ticket := s.shared, t.shared, s.procs[p].ticket;
    AfterGrows(w, ticket, op);
    AfterLogged(start, w, ticket, op);
    OthersStay(s, v, p, ticket);
    RepliesStay(s, v, ticket);
    BystanderStays(w, v, ticket, s.procs[p].(phase := Idle));
    Regroup(v, s.procs, p, proc);
    LocksMove(s.locks, s.procs, p, s.locks, proc);
    TicketsMove(s.procs, |w.invoked|, s.replies.Keys, p, proc);
  }

  // One lemma per kind of step.

  lemma SpawnKeeps(start: Rows, s: System, p: Pid, listing: seq<Id>)
    requires Inv(start, s) && Enabled(s, p, Spawn(listing))
    ensures Inv(start, Apply(s, p, Spawn(listing)))
  {
    var proc := Process(map[], Loading(listing), 0);
    Regroup(s.shared, s.procs, p, proc);
    TicketsMove(s.procs, |s.shared.invoked|, s.replies.Keys, p, proc);
  }

  lemma DieKeeps(start: Rows, s: System, p: Pid)
    requires Inv(start, s) && Enabled(s, p, Die)
    ensures Inv(start, Apply(s, p, Die))
  {
    LocksDrop(s.locks, s.procs, p);
  }

  lemma FailShape(s: System, p: Pid)
    requires Enabled(s, p, Fail)
    ensures var proc, proc' := s.procs[p], Failing(s, p).procs[p];
            && Failing(s, p) == s.(procs := s.procs[p := proc'])
            && Holds(proc'.phase) == Holds(proc.phase)
            && proc'.ticket == proc.ticket && Active(proc.phase)
            && (ProcessOk(s.shared, proc) ==> ProcessOk(s.shared, proc'))
  {
  }

  lemma FailKeeps(start: Rows, s: System, p: Pid)
    requires Inv(start, s) && Enabled(s, p, Fail)
    ensures Inv(start, Apply(s, p, Fail))
  {
    FailShape(s, p);
    QuietKeeps(start, s, Failing(s, p), p, Failing(s, p).procs[p]);
  }

  lemma CallGrows(start: Rows, w: Shared, op: Op)
    requires LogOk(start, w)
    ensures var called := w.(invoked := w.invoked + [op]);
            LogOk(start, called) && Grows(w, called, |w.invoked|) && NotYet(called, |w.invoked|, op)
  {
    assert |w.invoked| !in w.answers;
  }

  /** A new call puts the caller among the bystanders of its own call, whatever the call goes on to do. */
  lemma CallMoves(start: Rows, s: System, t: System, p: Pid, op: Op)
    requires Inv(start, s) && p in s.procs && s.procs[p].phase.Idle? && p in t.procs
    requires t == s.(shared := t.shared, procs := s.procs[p := t.procs[p]])
    requires LogOk(start, t.shared) && |t.shared.invoked| == |s.shared.invoked| + 1
    requires Grows(s.shared, t.shared, |s.shared.invoked|) && t.shared.disk == s.shared.disk
    requires t.procs[p].memory == s.procs[p].memory && t.procs[p].ticket == |s.shared.invoked|
    requires Holds(t.procs[p].phase).None?
    requires PhaseOk(t.shared, t.procs[p].memory, t.procs[p].ticket, t.procs[p].phase)
    ensures Inv(start, t)
  {
    var mine, proc := |s.shared.invoked|, t.procs[p];
    OthersStay(s, t.shared, p, mine);
    RepliesStay(s, t.shared, mine);
    assert ProcessOk(s.shared, s.procs[p]);
    Regroup(t.shared, s.procs, p, proc);
    LocksMove(s.locks, s.procs, p, s.locks, proc);
    TicketsCall(s.procs, mine, s.replies.Keys, p, proc);
  }

  lemma InvokeShape(s: System, p: Pid, op: Op)
    requires Enabled(s, p, Begin(op)) && Keyed(s.shared.disk) && |s.shared.invoked| !in s.shared.answers
    ensures var t, w, mine := Invoke(s, p, op), s.shared, |s.shared.invoked|;
            var called := w.(invoked := w.invoked + [op]);
            && p in t.procs && t == s.(shared := t.shared, procs := s.procs[p := t.procs[p]])
            && t.shared == (if op.Get? || TakesLock(op) then called else After(called, mine, op))
            && t.procs[p].memory == s.procs[p].memory && t.procs[p].ticket == mine
            && Holds(t.procs[p].phase).None?
            && PhaseOk(t.shared, t.procs[p].memory, mine, t.procs[p].phase)
  {
  }

  lemma InvokeKeeps(start: Rows, s: System, p: Pid, op: Op)
    requires Inv(start, s) && Enabled(s, p, Begin(op))
    ensures Inv(start, Apply(s, p, Begin(op)))
  {
    var t, w, mine := Invoke(s, p, op), s.shared, |s.shared.invoked|;
    var called := w.(invoked := w.invoked + [op]);
    CallGrows(start, w, op);
    InvokeShape(s, p, op);
    if !op.Get? && !TakesLock(op) {
      AfterGrows(called, mine, op);
      AfterLogged(start, called, mine, op);
    }
    CallMoves(start, s, t, p, op);
  }

  lemma RepliesAdd(w: Shared, replies: map<nat, Reply>, t: nat, reply: Reply)
    requires RepliesOk(w, replies) && Outcome(w, t, reply)
    ensures RepliesOk(w, replies[t := reply])
    ensures replies[t := reply].Keys == replies.Keys + {t}
  {
  }

  lemma SameHold(a: Process, b: Process)
    requires a.phase.Replied? && b.phase.Idle?
    ensures Holds(a.phase) == Holds(b.phase) == None
  {
  }

  lemma ReturnKeeps(start: Rows, s: System, p: Pid)
    requires Inv(start, s) && p in s.procs && s.procs[p].phase.Replied?
    ensures Inv(start, Advanced(s, p))
  {
    hide LogOk, LocksOk, TicketsOk, RepliesOk, Holds, Outcome, MemoryOk;
    var proc := s.procs[p].(phase := Idle);
    assert ProcessOk(s.shared, s.procs[p]);
    SameHold(s.procs[p], proc);
    Regroup(s.shared, s.procs, p, proc);
    LocksMove(s.locks, s.procs, p, s.locks, proc);
    TicketsReturn(s.procs, |s.shared.invoked|, s.replies.Keys, p, proc);
    RepliesAdd(s.shared, s.replies, proc.ticket, s.procs[p].phase.reply);
  }

  lemma LoadKeeps(start: Rows, s: System, p: Pid)
    requires Inv(start, s) && p in s.procs && s.procs[p].phase.Loading?
    ensures Inv(start, Advanced(s, p))
    ensures p in Advanced(s, p).procs
  {
    var proc, todo := s.procs[p], s.procs[p].phase.todo;
    assert ProcessOk(s.shared, proc);
    if todo != [] {
      assert todo[0] in todo;
      MemoryLearns(s.shared.disk, proc.memory, todo[0], s.shared.disk[todo[0]]);
    }
    var t := Advanced(s, p);
    QuietKeeps(start, s, t, p, t.procs[p]);
  }

  /** The actions between the effect of a call and its answer, as they look to the process. */
  function Moved(proc: Process): Process
    requires proc.phase.Missed? || proc.phase.Found? || proc.phase.Waiting? || proc.phase.Remembering?
             || proc.phase.Releasing?
  {
    match proc.phase
    case Missed(id) =>
      proc.(phase := Replied(if id in proc.memory then Row(proc.memory[id]) else Refused(UnknownDecision)))
    case Found(id, row) => Process(proc.memory[id := row], Replied(Row(row)), proc.ticket)
    case Waiting(op) => proc.(phase := Locked(op))
    case Remembering(id, row) => Process(proc.memory[id := row], Releasing(id, Row(row)), proc.ticket)
    case Releasing(_, reply) => proc.(phase := Replied(reply))
  }

  lemma MovedOk(w: Shared, proc: Process)
    requires proc.phase.Missed? || proc.phase.Found? || proc.phase.Waiting? || proc.phase.Remembering?
             || proc.phase.Releasing?
    ensures ProcessOk(w, proc) ==> ProcessOk(w, Moved(proc))
  {
    if ProcessOk(w, proc) && (proc.phase.Found? || proc.phase.Remembering?) {
      MemoryLearns(w.disk, proc.memory, proc.phase.id, proc.phase.row);
    }
  }

  lemma MovedShape(s: System, p: Pid)
    requires Enabled(s, p, Advance)
    requires var phase := s.procs[p].phase;
             phase.Missed? || phase.Found? || phase.Waiting? || phase.Remembering? || phase.Releasing?
    ensures var proc, proc', locks := s.procs[p], Moved(s.procs[p]), Advanced(s, p).locks;
            var h, h' := Holds(proc.phase), Holds(proc'.phase);
            && Advanced(s, p) == s.(procs := s.procs[p := proc'], locks := locks)
            && (Active(proc'.phase) ==> proc'.ticket == proc.ticket && Active(proc.phase))
            && (|| (h == h' && locks == s.locks)
                || (h.None? && h'.Some? && h'.value !in s.locks && locks == s.locks[h'.value := p])
                || (h.Some? && h'.None? && locks == s.locks - {h.value}))
  {
  }

  lemma LocalKeeps(start: Rows, s: System, p: Pid)
    requires Inv(start, s) && Enabled(s, p, Advance)
    requires var phase := s.procs[p].phase;
             phase.Missed? || phase.Found? || phase.Waiting? || phase.Remembering? || phase.Releasing?
    ensures Inv(start, Advanced(s, p))
  {
    MovedShape(s, p);
    MovedOk(s.shared, s.procs[p]);
    QuietKeeps(start, s, Advanced(s, p), p, Moved(s.procs[p]));
  }

  lemma LookUpKeeps(start: Rows, s: System, p: Pid)
    requires Inv(start, s) && p in s.procs && s.procs[p].phase.Looking?
    ensures Inv(start, Advanced(s, p))
  {
    var t, proc, w := Advanced(s, p), s.procs[p], s.shared;
    assert ProcessOk(w, proc);
    AfterGrows(w, proc.ticket, Get(proc.phase.id));
    assert t.shared == After(w, proc.ticket, Get(proc.phase.id));
    EffectKeeps(start, s, t, p, Get(proc.phase.id), t.procs[p]);
  }

  /** Reading under the lock either only looks, or is the effect of the call. */
  lemma ReadShape(s: System, p: Pid, op: Op)
    requires p in s.procs && s.procs[p].phase == Locked(op) && TakesLock(op) && Keyed(s.shared.disk)
    ensures var w, proc, proc' := s.shared, s.procs[p], Advanced(s, p).procs[p];
            && proc'.memory == proc.memory && proc'.ticket == proc.ticket && Active(proc'.phase)
            && Holds(proc'.phase) == Some(op.Key())
            && match Decide(op, OnDisk(w.disk, op.Key()))
               case Write(row) => proc'.phase == Pending(op, row) && Advanced(s, p) == s.(procs := s.procs[p := proc'])
               case Keep(row) =>
                 && proc'.phase == Remembering(op.Key(), row) && Atomic(w.disk, op).1 == Row(row)
                 && Advanced(s, p) == s.(shared := After(w, proc.ticket, op), procs := s.procs[p := proc'])
               case Refuse(why) =>
                 && proc'.phase == Releasing(op.Key(), Refused(why)) && Atomic(w.disk, op).1 == Refused(why)
                 && Advanced(s, p) == s.(shared := After(w, proc.ticket, op), procs := s.procs[p := proc'])
  {
    DecideIsAtomic(s.shared.disk, op);
  }

  lemma ReadKeeps(start: Rows, s: System, p: Pid)
    requires Inv(start, s) && p in s.procs && s.procs[p].phase.Locked?
    ensures Inv(start, Advanced(s, p))
  {
    var t, proc, w, op := Advanced(s, p), s.procs[p], s.shared, s.procs[p].phase.op;
    assert ProcessOk(w, proc);
    ReadShape(s, p, op);
    if Decide(op, OnDisk(w.disk, op.Key())).Write? {
      QuietKeeps(start, s, t, p, t.procs[p]);
    } else {
      AfterGrows(w, proc.ticket, op);
      EffectKeeps(start, s, t, p, op, t.procs[p]);
    }
  }

  /** The write is still what the atomic map would do: nobody else touched the row since it was read. */
  lemma WriteKeeps(start: Rows, s: System, p: Pid)
    requires Inv(start, s) && p in s.procs && s.procs[p].phase.Pending?
    ensures Inv(start, Advanced(s, p))
  {
    var t, proc, w, op := Advanced(s, p), s.procs[p], s.shared, s.procs[p].phase.op;
    assert ProcessOk(w, proc);
    DecideIsAtomic(w.disk, op);
    AfterGrows(w, proc.ticket, op);
    assert t.shared == After(w, proc.ticket, op);
    EffectKeeps(start, s, t, p, op, t.procs[p]);
  }

  lemma AdvanceKeeps(start: Rows, s: System, p: Pid)
    requires Inv(start, s) && Enabled(s, p, Advance)
    ensures Inv(start, Advanced(s, p))
  {
    match s.procs[p].phase
    case Loading(_) => LoadKeeps(start, s, p);
    case Looking(_) => LookUpKeeps(start, s, p);
    case Missed(_) => LocalKeeps(start, s, p);
    case Found(_, _) => LocalKeeps(start, s, p);
    case Waiting(_) => LocalKeeps(start, s, p);
    case Locked(_) => ReadKeeps(start, s, p);
    case Pending(_, _) => WriteKeeps(start, s, p);
    case Remembering(_, _) => LocalKeeps(start, s, p);
    case Releasing(_, _) => LocalKeeps(start, s, p);
    case Replied(_) => ReturnKeeps(start, s, p);
    case Idle =>
  }

  lemma StepKeeps(start: Rows, s: System, p: Pid, step: Step)
    requires Inv(start, s) && Enabled(s, p, step)
    ensures Inv(start, Apply(s, p, step))
  {
    match step
    case Spawn(listing) => SpawnKeeps(start, s, p, listing);
    case Begin(op) => InvokeKeeps(start, s, p, op);
    case Advance => AdvanceKeeps(start, s, p);
    case Fail => FailKeeps(start, s, p);
    case Die => DieKeeps(start, s, p);
  }
}
