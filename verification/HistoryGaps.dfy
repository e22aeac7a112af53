/** A dataset with a missing quote that the quality gate approves without a warning. */
module HistoryGaps {
  import opened Basics
  import opened Ordering
  import opened HistoryRows
  import opened HistoryStore
  import opened HistoryCoverage

  /** Ten in the morning. */
  const TEN: nat := 600

  function MomentOf(i: nat): Time { SlotTime(i, TEN) }

  function SessionOfDay(i: nat): Session { Session(i, MomentOf(i), MomentOf(i), "OPEN", "") }

  function BarOfDay(i: nat): Bar { Bar("NIFTY", "D1", MomentOf(i), MomentOf(i), 1, 1, 1, 1, 0, "v", MomentOf(i), "") }

  function QuoteOfDay(i: nat): Quote {
    Quote("c", MomentOf(i), Some(1), Some(1), Some(1), Some(1), Some(1), Some(1), "v", MomentOf(i), "")
  }

  /** One value for each of the first `n` days. */
  function EachDay<T>(n: nat, f: nat -> T): (xs: seq<T>)
    ensures |xs| == n && forall i :: 0 <= i < n ==> xs[i] == f(i)
  {
    seq(n, i requires 0 <= i => f(i))
  }

  /** The one contract, listed from the first to the last of the days. */
  function OneContract(n: nat): Contract {
    Contract("NIFTY", n, 1, "CE", "c", "c", Some(1), "WEEKLY", 0, MomentOf(n), "v", "", "")
  }

  const CLAIMS_EVERYTHING := Meta("v", "", "Asia/Kolkata", "", "", true, true, true, true, false, false, [TEN], [],
                                  "EXACT", 0, "CANDIDATE", "")

  /** One session a day, each with a bar, one stamp and one contract, quoted on every day but the last. */
  function OneGap(n: nat): Store
    requires n >= 1
  {
    Store(CLAIMS_EVERYTHING, EachDay(n, SessionOfDay), EachDay(n, BarOfDay), [OneContract(n)],
          EachDay(n - 1, QuoteOfDay), false)
  }

  lemma NiftyIsAllowed()
    ensures !Forbidden("NIFTY")
  {
    UpperFixed("NIFTY");
  }

  lemma MomentsGrow(i: nat, j: nat)
    requires i < j
    ensures MomentOf(i) < MomentOf(j) && DayOf(MomentOf(i)) == i
  {
  }

  lemma GapStoreIsConsistent(n: nat)
    requires n >= 1
    ensures Consistent(OneGap(n))
  {
    hide Forbidden;
    NiftyIsAllowed();
    assert OneContract(n) in OneGap(n).contracts && ContractKeyOf(OneContract(n)) == "c";
  }

  function SlotOfDay(i: nat): Slot { Slot("c", MomentOf(i)) }

  lemma OneSlotADay(n: nat, i: nat)
    requires i < n
    ensures SessionSlots(SessionOfDay(i), [TEN], [OneContract(n)]) == [SlotOfDay(i)]
  {
    var session, contract := SessionOfDay(i), OneContract(n);
    MomentsGrow(i, n);
    FlatMapStep((c: Contract) => if Listed(c, MomentOf(i)) then [Slot(c.contractId, MomentOf(i))] else [],
                [contract], 0);
    assert [contract][..1] == [contract] && [contract][..0] == [];
    FlatMapStep((stamp: nat) => StampSlots(session, stamp, [contract]), [TEN], 0);
    assert [TEN][..1] == [TEN] && [TEN][..0] == [];
  }

  lemma {:induction false} SlotsOfDays(n: nat, m: nat)
    requires m <= n
    ensures Slots(EachDay(m, SessionOfDay), [TEN], [OneContract(n)]) == EachDay(m, SlotOfDay)
    decreases m
  {
    hide SessionSlots, SessionOfDay, OneContract;
    if m > 0 {
      SlotsOfDays(n, m - 1);
      OneSlotADay(n, m - 1);
      assert EachDay(m, SessionOfDay)[..m - 1] == EachDay(m - 1, SessionOfDay);
      assert EachDay(m, SlotOfDay) == EachDay(m - 1, SlotOfDay) + [SlotOfDay(m - 1)];
    }
  }

  lemma GapSlots(n: nat)
    requires n >= 1
    ensures SlotsOf(OneGap(n)) == EachDay(n, SlotOfDay)
  {
    hide Slots;
    SlotsOfDays(n, n);
    FilterAll(EachDay(n, SessionOfDay), IsOpen);
  }

  lemma QuotedDays(n: nat, i: nat)
    requires i < n
    ensures Quoted(EachDay(n - 1, QuoteOfDay), SlotOfDay(i)) <==> i < n - 1
  {
    var quotes := EachDay(n - 1, QuoteOfDay);
    if i < n - 1 {
      assert quotes[i] in quotes && quotes[i] == QuoteOfDay(i);
    }
  }

  lemma GapIsMissing(n: nat)
    requires n >= 1
    ensures Missing(SlotsOf(OneGap(n)), OneGap(n).quotes) == [SlotOfDay(n - 1)]
  {
    hide Filter, Quoted, SlotsOf;
    GapSlots(n);
    var quotes, front := EachDay(n - 1, QuoteOfDay), EachDay(n - 1, SlotOfDay);
    assert EachDay(n, SlotOfDay) == front + [SlotOfDay(n - 1)];
    FilterConcat(front, [SlotOfDay(n - 1)], (slot: Slot) => !Quoted(quotes, slot));
    forall slot <- front
      ensures Quoted(quotes, slot)
    {
      var i :| 0 <= i < n - 1 && front[i] == slot;
      QuotedDays(n, i);
    }
    FilterNone(front, (slot: Slot) => !Quoted(quotes, slot));
    QuotedDays(n, n - 1);
    FilterOne(SlotOfDay(n - 1), (slot: Slot) => !Quoted(quotes, slot));
  }

  lemma EveryDayHasABar(n: nat)
    requires n >= 1
    ensures MissingDays(OpenSessions(OneGap(n).sessions), OneGap(n).bars) == []
    ensures BarDays(OpenSessions(OneGap(n).sessions), OneGap(n).bars) != {}
  {
    hide Filter, SortBy;
    var sessions, bars := OneGap(n).sessions, OneGap(n).bars;
    FilterAll(sessions, IsOpen);
    forall i | 0 <= i < n
      ensures HasBars(bars, i)
    {
      MomentsGrow(i, n);
      assert bars[i] in bars;
    }
    forall day <- SortBy(Days(sessions), DayLeq)
      ensures HasBars(bars, day)
    {
      SortedMember(Days(sessions), DayLeq, day);
    }
    FilterNone(SortBy(Days(sessions), DayLeq), (day: Day) => !HasBars(bars, day));
    assert Days(sessions)[0] == 0;
    assert 0 in BarDays(sessions, bars);
  }

  lemma EveryQuoteIsFull(n: nat)
    requires n >= 2
    ensures var quotes := OneGap(n).quotes;
            NearlyAll(quotes, HasBidAsk) && NearlyAll(quotes, HasOi) && NearlyAll(quotes, HasVolume)
            && NearlyAll(quotes, HasIv)
  {
    hide Filter;
    var quotes := OneGap(n).quotes;
    FilterAll(quotes, HasBidAsk);
    FilterAll(quotes, HasOi);
    FilterAll(quotes, HasVolume);
    FilterAll(quotes, HasIv);
  }

  /** For every number of slots there is a dataset of valid rows in which exactly one of them is missing; from twenty
      thousand slots on, the gate raises no warning about it and approves the dataset as if it were complete. */
  lemma OneGapGoesUnflagged(n: nat)
    requires n >= 1
    ensures var s := OneGap(n);
            var gated := Gate(s.meta, Coverage(s));
            && Consistent(s) && Coverage(s).expected == n && |Missing(SlotsOf(s), s.quotes)| == 1
            && (OptionSnapshotGaps in gated.warnings <==> n < 2 * WHOLE)
            && (n >= 2 * WHOLE ==> gated.qualityStatus == "APPROVED")
  {
    hide Gate, Missing, SlotsOf, MissingDays, BarDays, NearlyAll, Consistent, Observed, OpenSessions, Ratio, Share;
    var s := OneGap(n);
    GapStoreIsConsistent(n);
    GapSlots(n);
    GapIsMissing(n);
    GapsAreFlagged(s);
    if n >= 2 * WHOLE {
      EveryDayHasABar(n);
      EveryQuoteIsFull(n);
      ObservedAndMissing(SlotsOf(s), s.quotes);
      VerdictExactlyWhen(s);
    }
  }
}
