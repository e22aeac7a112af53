/** What every interleaving of the replay protocol guarantees. */
module ReplaySafety {
  import opened ReplayRecords
  import opened ReplayProtocol

  lemma {:induction false} RunInvariant(states: seq<System>, who: seq<Pid>, steps: seq<Step>, i: nat)
    requires Run(states, who, steps) && i < |states|
    ensures Inv(states[0].shared.disk, states[i])
  {
    if i == 0 {
      assert states[0].shared.log == [];
    } else {
      RunInvariant(states, who, steps, i - 1);
      StepKeeps(states[0].shared.disk, states[i - 1], who[i - 1], steps[i - 1]);
    }
  }

  // History only grows.

  lemma StepGrowsHistory(s: System, p: Pid, step: Step)
    requires Enabled(s, p, step)
    ensures var t := Apply(s, p, step); s.shared.log <= t.shared.log && s.shared.invoked <= t.shared.invoked
  {
  }

  lemma StepKeepsReplies(s: System, p: Pid, step: Step)
    requires Enabled(s, p, step) && TicketsOk(s.procs, |s.shared.invoked|, s.replies.Keys)
    ensures forall t <- s.replies :: t in Apply(s, p, step).replies && Apply(s, p, step).replies[t] == s.replies[t]
  {
  }

  lemma {:induction false} HistoryGrows(states: seq<System>, who: seq<Pid>, steps: seq<Step>, i: nat, j: nat)
    requires Run(states, who, steps) && i <= j < |states|
    ensures states[i].shared.log <= states[j].shared.log
    ensures states[i].shared.invoked <= states[j].shared.invoked
    ensures forall t <- states[i].replies :: t in states[j].replies && states[j].replies[t] == states[i].replies[t]
  {
    hide Apply, Enabled, LogOk, LocksOk, TicketsOk, RepliesOk, ProcessesOk, Initial;
    if i < j {
      HistoryGrows(states, who, steps, i, j - 1);
      RunInvariant(states, who, steps, j - 1);
      StepGrowsHistory(states[j - 1], who[j - 1], steps[j - 1]);
      StepKeepsReplies(states[j - 1], who[j - 1], steps[j - 1]);
    }
  }

  /** Running more of a log only extends the rows. */
  lemma {:induction false} ReplayExtends(start: Rows, log: seq<Entry>, i: nat, j: nat)
    requires Keyed(start) && i <= j <= |log|
    ensures Keyed(Replay(start, log[..i])) && Extends(Replay(start, log[..i]), Replay(start, log[..j]))
    decreases j
  {
    if i == j {
      if j > 0 {
        ReplayExtends(start, log, i - 1, j - 1);
        assert log[..j][..j - 1] == log[..j - 1];
        AtomicExtends(Replay(start, log[..j - 1]), log[j - 1].op);
      } else {
        assert log[..0] == [];
      }
    } else {
      ReplayExtends(start, log, i, j - 1);
      ReplayExtends(start, log, j - 1, j - 1);
      assert log[..j][..j - 1] == log[..j - 1];
      AtomicExtends(Replay(start, log[..j - 1]), log[j - 1].op);
      ExtendsTransitive(Replay(start, log[..i]), Replay(start, log[..j - 1]), Replay(start, log[..j]));
    }
  }

  lemma RunKeyed(states: seq<System>, who: seq<Pid>, steps: seq<Step>)
    requires Run(states, who, steps)
    ensures Keyed(states[0].shared.disk)
  {
  }

  /** Append-only: between any two moments of any run no row is removed, no field outside exit and P&L changes, and
      a row that has an exit or a P&L never changes again. */
  lemma RowsAreAppendOnly(states: seq<System>, who: seq<Pid>, steps: seq<Step>, i: nat, j: nat, id: Id)
    requires Run(states, who, steps) && i <= j < |states| && id in states[i].shared.disk
    ensures id in states[j].shared.disk
    ensures states[j].shared.disk[id].Entry() == states[i].shared.disk[id].Entry()
    ensures states[i].shared.disk[id].Settled() ==> states[j].shared.disk[id] == states[i].shared.disk[id]
  {
    hide Run, LocksOk, TicketsOk, RepliesOk, ProcessesOk, Booked, Atomic, Replay, Legal;
    RunInvariant(states, who, steps, i);
    RunInvariant(states, who, steps, j);
    HistoryGrows(states, who, steps, i, j);
    RunKeyed(states, who, steps);
    var start, log := states[0].shared.disk, states[j].shared.log;
    var n := |states[i].shared.log|;
    assert log[..n] == states[i].shared.log && log[..|log|] == log;
    ReplayExtends(start, log, n, |log|);
    assert Earlier(states[i].shared.disk[id], states[j].shared.disk[id]);
  }

  /** Every process remembers, for every row it remembers, an earlier-or-equal version of the row on disk. So when `get`
      finds no file, its fallback to memory finds nothing either and it reports the decision as unknown. */
  lemma MemoryNeverLeads(states: seq<System>, who: seq<Pid>, steps: seq<Step>, i: nat, p: Pid)
    requires Run(states, who, steps) && i < |states| && p in states[i].procs
    ensures forall id <- states[i].procs[p].memory ::
              id in states[i].shared.disk && Earlier(states[i].procs[p].memory[id], states[i].shared.disk[id])
    ensures states[i].procs[p].phase.Missed? ==>
              Advanced(states[i], p).procs[p].phase == Replied(Refused(UnknownDecision))
  {
    RunInvariant(states, who, steps, i);
    assert ProcessOk(states[i].shared, states[i].procs[p]);
    forall id <- states[i].procs[p].memory
      ensures Behind(states[i].shared.disk, id, states[i].procs[p].memory[id])
    {
    }
  }

  /** At most one process is inside the critical section of a decision. */
  lemma MutualExclusion(states: seq<System>, who: seq<Pid>, steps: seq<Step>, i: nat, p: Pid, q: Pid)
    requires Run(states, who, steps) && i < |states| && p in states[i].procs && q in states[i].procs
    requires Holds(states[i].procs[p].phase).Some? && Holds(states[i].procs[p].phase) == Holds(states[i].procs[q].phase)
    ensures p == q
  {
    RunInvariant(states, who, steps, i);
  }

  /** No deadlock: while some process is busy, some process can go on, because a lock holder never waits. */
  lemma SomeoneCanAdvance(states: seq<System>, who: seq<Pid>, steps: seq<Step>, i: nat, p: Pid) returns (q: Pid)
    requires Run(states, who, steps) && i < |states| && p in states[i].procs && !states[i].procs[p].phase.Idle?
    ensures Enabled(states[i], q, Advance)
  {
    RunInvariant(states, who, steps, i);
    var s := states[i];
    if Enabled(s, p, Advance) {
      q := p;
    } else {
      q := s.locks[s.procs[p].phase.op.Key()];
      assert Holds(s.procs[q].phase).Some?;
    }
  }

  /** The position of a call in the log. */
  ghost predicate TookEffect(s: System, ticket: nat, k: nat, reply: Reply) {
    && ticket < |s.shared.invoked| && k < |s.shared.log|
    && s.shared.log[k] == Entry(ticket, s.shared.invoked[ticket], reply)
  }

  /** Linearizability: the logged calls, run one after another on the atomic map from the initial rows, give the disk
      and every logged answer; each call is logged at most once, and only once it has been made; a caller that got an
      answer got the logged one, and a caller that got an exception had no effect at all. */
  lemma EveryCallIsAtomic(states: seq<System>, who: seq<Pid>, steps: seq<Step>, i: nat)
    requires Run(states, who, steps) && i < |states|
    ensures var s, start := states[i], states[0].shared.disk;
            && Legal(start, s.shared.log)
            && Replay(start, s.shared.log) == s.shared.disk
            && (forall k, l :: 0 <= k < l < |s.shared.log| ==> s.shared.log[k].ticket != s.shared.log[l].ticket)
            && (forall k :: 0 <= k < |s.shared.log| ==>
                  TookEffect(s, s.shared.log[k].ticket, k, s.shared.log[k].reply))
            && (forall t <- s.replies :: s.replies[t] == Failed ==>
                  forall k :: 0 <= k < |s.shared.log| ==> s.shared.log[k].ticket != t)
            && (forall t <- s.replies :: s.replies[t] != Failed ==> exists k :: TookEffect(s, t, k, s.replies[t]))
  {
    RunInvariant(states, who, steps, i);
    var s := states[i];
    forall t <- s.replies | s.replies[t] != Failed
      ensures exists k :: TookEffect(s, t, k, s.replies[t])
    {
      assert Outcome(s.shared, t, s.replies[t]);
      var k :| 0 <= k < |s.shared.log| && s.shared.log[k].ticket == t;
      assert TookEffect(s, t, k, s.replies[t]);
    }
    forall t <- s.replies | s.replies[t] == Failed
      ensures forall k :: 0 <= k < |s.shared.log| ==> s.shared.log[k].ticket != t
    {
      assert Outcome(s.shared, t, s.replies[t]);
    }
  }

  /** The instant of an answered call, which is below the present length of the log and so in the common prefix of
      every later log. */
  lemma AnsweredAt(states: seq<System>, who: seq<Pid>, steps: seq<Step>, i: nat, j: nat, ticket: nat) returns (k: nat)
    requires Run(states, who, steps) && i <= j < |states|
    requires ticket in states[i].replies && states[i].replies[ticket] != Failed
    ensures k < |states[i].shared.log| && TookEffect(states[j], ticket, k, states[i].replies[ticket])
  {
    EveryCallIsAtomic(states, who, steps, i);
    HistoryGrows(states, who, steps, i, j);
    k :| TookEffect(states[i], ticket, k, states[i].replies[ticket]);
    assert states[j].shared.log[k] == states[i].shared.log[k];
  }

  lemma OneEffect(states: seq<System>, who: seq<Pid>, steps: seq<Step>, j: nat, k: nat, l: nat)
    requires Run(states, who, steps) && j < |states|
    requires k < |states[j].shared.log| && l < |states[j].shared.log|
    ensures states[j].shared.log[k].ticket == states[j].shared.log[l].ticket ==> k == l
    ensures states[j].shared.log[k].ticket in states[j].replies ==>
              states[j].replies[states[j].shared.log[k].ticket] != Failed
  {
    EveryCallIsAtomic(states, who, steps, j);
  }

  /** A call that has not been made yet has no place in the log so far. */
  lemma NotInPrefix(states: seq<System>, who: seq<Pid>, steps: seq<Step>, i: nat, j: nat, l: nat)
    requires Run(states, who, steps) && i <= j < |states|
    requires l < |states[j].shared.log| && |states[i].shared.invoked| <= states[j].shared.log[l].ticket
    ensures |states[i].shared.log| <= l
  {
    HistoryGrows(states, who, steps, i, j);
    EveryCallIsAtomic(states, who, steps, i);
    forall m | 0 <= m < |states[i].shared.log|
      ensures states[j].shared.log[m].ticket < |states[i].shared.invoked|
    {
      assert TookEffect(states[i], states[i].shared.log[m].ticket, m, states[i].shared.log[m].reply);
    }
  }

  /** The log respects real time: a call answered before another was made takes effect before it. */
  lemma EffectsFollowRealTime(states: seq<System>, who: seq<Pid>, steps: seq<Step>, i: nat, j: nat, k: nat, l: nat)
    requires Run(states, who, steps) && i <= j < |states|
    requires k < |states[j].shared.log| && states[j].shared.log[k].ticket in states[i].replies
    requires l < |states[j].shared.log| && |states[i].shared.invoked| <= states[j].shared.log[l].ticket
    ensures k < l
  {
    var ticket := states[j].shared.log[k].ticket;
    HistoryGrows(states, who, steps, i, j);
    OneEffect(states, who, steps, j, k, k);
    var k' := AnsweredAt(states, who, steps, i, j, ticket);
    OneEffect(states, who, steps, j, k, k');
    NotInPrefix(states, who, steps, i, j, l);
  }

  /** Across processes nobody reads backwards: a row returned by a call made after another call on the same decision had
      returned a row is that row or a later version of it. */
  lemma AnswersNeverGoBack(states: seq<System>, who: seq<Pid>, steps: seq<Step>, i: nat, j: nat, first: nat,
                           second: nat)
    requires Run(states, who, steps) && i <= j < |states|
    requires first in states[i].replies && states[i].replies[first].Row?
    requires second in states[j].replies && states[j].replies[second].Row? && |states[i].shared.invoked| <= second
    requires first < |states[j].shared.invoked| && second < |states[j].shared.invoked|
    requires states[j].shared.invoked[first].Key() == states[j].shared.invoked[second].Key()
    ensures Earlier(states[i].replies[first].row, states[j].replies[second].row)
  {
    var start, log := states[0].shared.disk, states[j].shared.log;
    EveryCallIsAtomic(states, who, steps, j);
    var k := AnsweredAt(states, who, steps, i, j, first);
    var l := AnsweredAt(states, who, steps, j, j, second);
    NotInPrefix(states, who, steps, i, j, l);
    LaterRow(start, log, k, l);
  }

  lemma LaterRow(start: Rows, log: seq<Entry>, k: nat, l: nat)
    requires Keyed(start) && Legal(start, log) && k < l < |log|
    requires log[k].reply.Row? && log[l].reply.Row? && log[k].op.Key() == log[l].op.Key()
    ensures Earlier(log[k].reply.row, log[l].reply.row)
  {
    hide Atomic, Legal, Replay;
    RowAfter(start, log, k);
    RowAfter(start, log, l);
    ReplayExtends(start, log, k + 1, l + 1);
  }

  /** An answer with a row is the row the map holds right after the effect. */
  lemma RowAfter(start: Rows, log: seq<Entry>, k: nat)
    requires Keyed(start) && Legal(start, log) && k < |log| && log[k].reply.Row?
    ensures var rows := Replay(start, log[..k + 1]);
            log[k].op.Key() in rows && rows[log[k].op.Key()] == log[k].reply.row
  {
    assert log[..k + 1][..k] == log[..k];
    ReplayExtends(start, log, k, k);
    AtomicExtends(Replay(start, log[..k]), log[k].op);
  }

  lemma {:induction false} ReplayKeepsExits(start: Rows, log: seq<Entry>)
    requires ExitsAreTheirFills(start)
    requires forall k :: 0 <= k < |log| && log[k].op.Append? ==> ExitIsItsFills(log[k].op.row)
    ensures ExitsAreTheirFills(Replay(start, log))
    decreases |log|
  {
    hide ExitsAreTheirFills, ExitIsItsFills, Atomic;
    if log != [] {
      ReplayKeepsExits(start, log[..|log| - 1]);
      AtomicKeepsExits(Replay(start, log[..|log| - 1]), log[|log| - 1].op);
    }
  }

  /** On every interleaving: if the directory began so, and no row is appended that says otherwise, every exit on disk
      is the exit of the position that the fill of its decision names. */
  lemma ExitsMatchFills(states: seq<System>, who: seq<Pid>, steps: seq<Step>, i: nat)
    requires Run(states, who, steps) && i < |states|
    requires ExitsAreTheirFills(states[0].shared.disk)
    requires forall op <- states[i].shared.invoked :: op.Append? ==> ExitIsItsFills(op.row)
    ensures ExitsAreTheirFills(states[i].shared.disk)
  {
    hide Run, ExitsAreTheirFills, ExitIsItsFills, LocksOk, TicketsOk, RepliesOk, ProcessesOk, Legal;
    RunInvariant(states, who, steps, i);
    var w := states[i].shared;
    forall k | 0 <= k < |w.log| && w.log[k].op.Append?
      ensures ExitIsItsFills(w.log[k].op.row)
    {
      assert w.log[k].op == w.invoked[w.log[k].ticket];
    }
    ReplayKeepsExits(states[0].shared.disk, w.log);
  }

  /** A process can crash at any moment. It then holds no lock, and disk, history and the other processes are as they
      were. */
  lemma CrashAnywhere(s: System, p: Pid)
    requires p in s.procs
    ensures Enabled(s, p, Die)
    ensures var after := Apply(s, p, Die);
            && after.shared == s.shared && after.replies == s.replies
            && p !in after.procs && (forall q <- s.procs :: q != p ==> q in after.procs && after.procs[q] == s.procs[q])
            && (forall id :: id in after.locks <==> id in s.locks && s.locks[id] != p)
            && (forall id <- after.locks :: after.locks[id] == s.locks[id])
  {
  }
}
