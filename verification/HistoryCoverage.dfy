/** Coverage of a dataset and the quality gate that reads it. */
module HistoryCoverage {
  import opened Basics
  import opened Ordering
  import opened HistoryRows
  import opened HistoryStore

  /** One expected observation: this contract at this moment. */
  datatype Slot = Slot(contractId: string, at: Time)

  function SlotTime(day: Day, stamp: nat): Time { day * DAY_SECONDS + stamp * 60 }

  predicate Listed(contract: Contract, at: Time) { contract.firstSeen <= at <= contract.lastSeen }

  /** The slots of one moment: every contract listed then. */
  function SlotsAt(contracts: seq<Contract>, at: Time): seq<Slot> {
    FlatMap((c: Contract) => if Listed(c, at) then [Slot(c.contractId, at)] else [], contracts)
  }

  /** A cadence stamp outside the trading hours of the session expects nothing. */
  function StampSlots(session: Session, stamp: nat, contracts: seq<Contract>): seq<Slot> {
    var at := SlotTime(session.date, stamp);
    if at < session.openAt || at > session.closeAt then [] else SlotsAt(contracts, at)
  }

  function SessionSlots(session: Session, cadence: seq<nat>, contracts: seq<Contract>): seq<Slot> {
    FlatMap((stamp: nat) => StampSlots(session, stamp, contracts), cadence)
  }

  function OpenSessions(sessions: seq<Session>): seq<Session> { Filter(sessions, IsOpen) }

  /** Every expected observation of the dataset. */
  function Slots(open: seq<Session>, cadence: seq<nat>, contracts: seq<Contract>): seq<Slot> {
    FlatMap((session: Session) => SessionSlots(session, cadence, contracts), open)
  }

  /** A linear scan of the quotes. */
  predicate Quoted(quotes: seq<Quote>, slot: Slot) {
    exists q <- quotes :: q.contractId == slot.contractId && q.timestamp == slot.at
  }

  function Missing(slots: seq<Slot>, quotes: seq<Quote>): seq<Slot> {
    Filter(slots, (slot: Slot) => !Quoted(quotes, slot))
  }

  function Observed(slots: seq<Slot>, quotes: seq<Quote>): seq<Slot> {
    Filter(slots, (slot: Slot) => Quoted(quotes, slot))
  }

  lemma {:induction false} ObservedAndMissing(slots: seq<Slot>, quotes: seq<Quote>)
    ensures |Observed(slots, quotes)| + |Missing(slots, quotes)| == |slots|
  {
    hide Quoted;
    if slots != [] {
      ObservedAndMissing(slots[1..], quotes);
    }
  }

  /** A completeness of 1.0000. */
  const WHOLE := 10000

  /** `round(count / total, 4)` in units of 0.0001, ties to even; 0 for an empty total. */
  function Ratio(count: nat, total: nat): nat {
    if total == 0 then 0
    else
      var q, r := count * WHOLE / total, count * WHOLE % total;
      if 2 * r < total then q
      else if 2 * r > total then q + 1
      else if q % 2 == 0 then q else q + 1
  }

  /** Only zero has a multiple smaller than the divisor on both sides. */
  lemma SmallMultiple(d: int, n: int)
    requires n > 0 && -n < d * n < n
    ensures d == 0
  {
    assert d >= 1 ==> d * n >= n;
    assert d <= -1 ==> d * n <= -n;
  }

  lemma DivisionBy(a: int, n: int, q: int, r: int)
    requires 0 <= r < n && a == q * n + r
    ensures a / n == q && a % n == r
  {
    assert a == (a / n) * n + a % n;
    assert (a / n - q) * n == (a / n) * n - q * n;
    SmallMultiple(a / n - q, n);
  }

  lemma QuotientBound(a: int, n: int, q: int)
    requires n > 0
    ensures a / n < q <==> a < q * n
  {
    var k := a / n;
    assert a == k * n + a % n;
    assert (q - k) * n == q * n - k * n;
    assert q - k >= 1 ==> (q - k) * n >= n;
    assert q - k <= 0 ==> (q - k) * n <= 0;
  }

  /** Rounding to four decimals hides a gap exactly when at most one slot in twenty thousand is missing. */
  lemma RatioIsWhole(count: nat, total: nat)
    requires count <= total
    ensures Ratio(count, total) <= WHOLE
    ensures Ratio(count, total) == WHOLE <==> total > 0 && 2 * WHOLE * (total - count) <= total
  {
    if total > 0 {
      var gap := total - count;
      var a := count * WHOLE;
      assert a == WHOLE * total - WHOLE * gap;
      if gap == 0 {
        DivisionBy(a, total, WHOLE, 0);
      } else if WHOLE * gap <= total {
        DivisionBy(a, total, WHOLE - 1, total - WHOLE * gap);
      } else {
        QuotientBound(a, total, WHOLE - 1);
      }
    }
  }

  // The report and the gate.

  datatype Report = Report(version: string, expectedSessions: nat, actualSessions: nat, missingSessions: seq<Day>,
                           missingSnapshots: seq<Slot>, expected: nat, observed: nat, quotes: nat, bidAsk: nat,
                           oi: nat, volume: nat, iv: nat, greeks: nat)

  predicate HasBars(bars: seq<Bar>, day: Day) { exists bar <- bars :: DayOf(bar.timestamp) == day }

  function Days(sessions: seq<Session>): seq<Day> { Map(SessionKeyOf, sessions) }

  predicate DayLeq(a: Day, b: Day) { a <= b }

  function MissingDays(open: seq<Session>, bars: seq<Bar>): seq<Day> {
    Filter(SortBy(Days(open), DayLeq), (day: Day) => !HasBars(bars, day))
  }

  function BarDays(open: seq<Session>, bars: seq<Bar>): set<Day> {
    set day <- Days(open) | HasBars(bars, day)
  }

  predicate HasBidAsk(q: Quote) { q.bid.Some? && q.ask.Some? }

  predicate HasOi(q: Quote) { q.openInterest.Some? }

  predicate HasVolume(q: Quote) { q.volume.Some? }

  predicate HasIv(q: Quote) { q.iv.Some? }

  predicate HasGreeks(q: Quote) { q.delta.Some? }

  function Share(quotes: seq<Quote>, has: Quote -> bool): nat { Ratio(|Filter(quotes, has)|, |quotes|) }

  function FirstTwenty(slots: seq<Slot>): seq<Slot> { if |slots| <= 20 then slots else slots[..20] }

  function SlotsOf(s: Store): seq<Slot> { Slots(OpenSessions(s.sessions), s.meta.cadence, s.contracts) }

  function Coverage(s: Store): Report {
    var open, slots := OpenSessions(s.sessions), SlotsOf(s);
    var observed := |Observed(slots, s.quotes)|;
    Report(s.meta.version, |open|, |BarDays(open, s.bars)|, MissingDays(open, s.bars),
           FirstTwenty(Missing(slots, s.quotes)), |slots|, observed, Ratio(observed, |slots|),
           Share(s.quotes, HasBidAsk), Share(s.quotes, HasOi), Share(s.quotes, HasVolume),
           Share(s.quotes, HasIv), Share(s.quotes, HasGreeks))
  }

  /** Coverage counting is exact, whatever is cut from the list that is shown. */
  lemma CoverageIsExact(s: Store)
    ensures Coverage(s).observed + |Missing(SlotsOf(s), s.quotes)| == Coverage(s).expected
    ensures Coverage(s).missingSnapshots <= Missing(SlotsOf(s), s.quotes)
    ensures |Coverage(s).missingSnapshots| == Min(20, |Missing(SlotsOf(s), s.quotes)|)
  {
    hide Slots, OpenSessions, Observed, Missing, Ratio, MissingDays, BarDays, Share;
    ObservedAndMissing(SlotsOf(s), s.quotes);
  }

  function Raise(condition: bool, warning: Warning): seq<Warning> { if condition then [warning] else [] }

  /** The alphabetical order of the warning ids. */
  function Rank(w: Warning): nat {
    match w
    case BidAskGaps => 0
    case MissingIv => 1
    case MissingOi => 2
    case MissingSessions => 3
    case MissingVolume => 4
    case OptionSnapshotGaps => 5
    case Unknown(_) => 6
  }

  predicate WarningLeq(a: Warning, b: Warning) { Rank(a) <= Rank(b) }

  function Raised(meta: Meta, report: Report): seq<Warning> {
    Raise(report.missingSessions != [], MissingSessions)
    + Raise(report.expected == 0 || report.quotes < WHOLE, OptionSnapshotGaps)
    + Raise(meta.bidAsk && report.bidAsk < WHOLE, BidAskGaps)
    + Raise(meta.oi && report.oi < WHOLE, MissingOi)
    + Raise(meta.volume && report.volume < WHOLE, MissingVolume)
    + Raise(meta.iv && report.iv < WHOLE, MissingIv)
  }

  function Coded(meta: Meta, report: Report): seq<Warning> { SortBy(Raised(meta, report), WarningLeq) }

  function Gate(meta: Meta, report: Report): Meta {
    var coded := Coded(meta, report);
    if meta.frameworkOnly || meta.fixture then
      meta.(qualityStatus := "SYNTHETIC", licenseStatus := "NOT_APPROVED", warnings := coded)
    else if report.observed == 0 || report.actualSessions == 0 then
      meta.(qualityStatus := "REJECTED", warnings := coded)
    else if coded != [] then meta.(qualityStatus := "APPROVED_WITH_WARNINGS", warnings := coded)
    else meta.(qualityStatus := "APPROVED", warnings := [])
  }

  lemma SortedMember<T>(xs: seq<T>, leq: (T, T) -> bool, x: T)
    ensures x in SortBy(xs, leq) <==> x in xs
  {
    assert x in SortBy(xs, leq) <==> x in multiset(SortBy(xs, leq));
  }

  lemma RaisedMembers(meta: Meta, report: Report, w: Warning)
    requires w in Raised(meta, report)
    ensures !w.Unknown?
    ensures w.OptionSnapshotGaps? ==> report.expected == 0 || report.quotes < WHOLE
  {
  }

  lemma GapsRaised(meta: Meta, report: Report)
    ensures OptionSnapshotGaps in Raised(meta, report) <==> report.expected == 0 || report.quotes < WHOLE
  {
    if report.expected == 0 || report.quotes < WHOLE {
      var a := Raise(report.missingSessions != [], MissingSessions);
      assert Raised(meta, report)[|a|] == OptionSnapshotGaps;
    } else if OptionSnapshotGaps in Raised(meta, report) {
      RaisedMembers(meta, report, OptionSnapshotGaps);
    }
  }

  lemma GateWarnings(meta: Meta, report: Report)
    ensures Gate(meta, report).warnings == Coded(meta, report)
  {
    hide Coded;
  }

  /** The option-gap warning is raised exactly when nothing was expected or more than one slot in twenty thousand is
      missing: below twenty thousand expected slots a single missing quote always raises it. */
  lemma GapsAreFlagged(s: Store)
    ensures var expected, missing := |SlotsOf(s)|, |Missing(SlotsOf(s), s.quotes)|;
            OptionSnapshotGaps in Gate(s.meta, Coverage(s)).warnings <==>
              expected == 0 || 2 * WHOLE * missing > expected
  {
    hide Slots, OpenSessions, Observed, Missing, Ratio, MissingDays, BarDays, Share, SortBy, SlotsOf, Raised, Gate;
    var report := Coverage(s);
    CoverageIsExact(s);
    RatioIsWhole(report.observed, report.expected);
    GateWarnings(s.meta, report);
    GapsRaised(s.meta, report);
    SortedMember(Raised(s.meta, report), WarningLeq, OptionSnapshotGaps);
  }

  lemma OneGapOfFewIsFlagged(s: Store, slot: Slot)
    requires |SlotsOf(s)| < 2 * WHOLE && slot in SlotsOf(s) && !Quoted(s.quotes, slot)
    ensures OptionSnapshotGaps in Gate(s.meta, Coverage(s)).warnings
  {
    hide SlotsOf, Coverage, Gate, Quoted;
    GapsAreFlagged(s);
    assert slot in Missing(SlotsOf(s), s.quotes);
  }

  lemma CodedDependsOn(a: Meta, b: Meta, ra: Report, rb: Report)
    requires a.bidAsk == b.bidAsk && a.oi == b.oi && a.volume == b.volume && a.iv == b.iv
    requires ra.(missingSnapshots := []) == rb.(missingSnapshots := [])
    ensures Coded(a, ra) == Coded(b, rb)
  {
    hide SortBy, Raise;
    assert Raised(a, ra) == Raised(b, rb);
  }

  /** Gating a gated version against the same report changes nothing. */
  lemma GateIsIdempotent(meta: Meta, report: Report)
    ensures Gate(Gate(meta, report), report) == Gate(meta, report)
  {
    hide Coded;
    CodedDependsOn(Gate(meta, report), meta, report, report);
  }

  lemma GateKnowsItsWarnings(meta: Meta, report: Report)
    ensures forall w <- Gate(meta, report).warnings :: !w.Unknown?
  {
    hide Gate, Raised, SortBy;
    GateWarnings(meta, report);
    forall w <- Coded(meta, report)
      ensures !w.Unknown?
    {
      SortedMember(Raised(meta, report), WarningLeq, w);
      RaisedMembers(meta, report, w);
    }
  }

  // The report does not depend on the order the rows were added in.

  ghost predicate SameRows(a: Store, b: Store) {
    && multiset(a.sessions) == multiset(b.sessions) && multiset(a.bars) == multiset(b.bars)
    && multiset(a.contracts) == multiset(b.contracts) && multiset(a.quotes) == multiset(b.quotes)
  }

  lemma SlotsAtReordered(a: seq<Contract>, b: seq<Contract>, at: Time)
    requires multiset(a) == multiset(b)
    ensures multiset(SlotsAt(a, at)) == multiset(SlotsAt(b, at))
  {
    var f := (c: Contract) => if Listed(c, at) then [Slot(c.contractId, at)] else [];
    FlatMapPermutation(f, f, a, b);
  }

  lemma StampSlotsReordered(session: Session, stamp: nat, a: seq<Contract>, b: seq<Contract>)
    requires multiset(a) == multiset(b)
    ensures multiset(StampSlots(session, stamp, a)) == multiset(StampSlots(session, stamp, b))
  {
    hide SlotsAt;
    SlotsAtReordered(a, b, SlotTime(session.date, stamp));
  }

  lemma SessionSlotsReordered(session: Session, cadence: seq<nat>, a: seq<Contract>, b: seq<Contract>)
    requires multiset(a) == multiset(b)
    ensures multiset(SessionSlots(session, cadence, a)) == multiset(SessionSlots(session, cadence, b))
  {
    hide StampSlots;
    forall stamp <- cadence
      ensures multiset(StampSlots(session, stamp, a)) == multiset(StampSlots(session, stamp, b))
    {
      StampSlotsReordered(session, stamp, a, b);
    }
    FlatMapPermutation((stamp: nat) => StampSlots(session, stamp, a), (stamp: nat) => StampSlots(session, stamp, b),
                       cadence, cadence);
  }

  lemma SlotsReordered(open: seq<Session>, open': seq<Session>, cadence: seq<nat>, a: seq<Contract>, b: seq<Contract>)
    requires multiset(open) == multiset(open') && multiset(a) == multiset(b)
    ensures multiset(Slots(open, cadence, a)) == multiset(Slots(open', cadence, b))
  {
    hide SessionSlots;
    forall session <- open
      ensures multiset(SessionSlots(session, cadence, a)) == multiset(SessionSlots(session, cadence, b))
    {
      SessionSlotsReordered(session, cadence, a, b);
    }
    FlatMapPermutation((x: Session) => SessionSlots(x, cadence, a), (x: Session) => SessionSlots(x, cadence, b),
                       open, open');
  }

  lemma QuotedReordered(a: seq<Quote>, b: seq<Quote>, slot: Slot)
    requires multiset(a) == multiset(b)
    ensures Quoted(a, slot) == Quoted(b, slot)
  {
    PermutationMembers(a, b);
  }

  lemma ObservedReordered(s: seq<Slot>, t: seq<Slot>, a: seq<Quote>, b: seq<Quote>)
    requires multiset(s) == multiset(t) && multiset(a) == multiset(b)
    ensures |Observed(s, a)| == |Observed(t, b)|
  {
    hide Quoted, Filter;
    forall slot
      ensures Quoted(a, slot) == Quoted(b, slot)
    {
      QuotedReordered(a, b, slot);
    }
    FilterCongruence(s, (slot: Slot) => Quoted(a, slot), (slot: Slot) => Quoted(b, slot));
    FilterPermutation(s, t, (slot: Slot) => Quoted(b, slot));
    SameCount(Observed(s, a), Observed(t, b));
  }

  lemma ShareReordered(a: seq<Quote>, b: seq<Quote>, has: Quote -> bool)
    requires multiset(a) == multiset(b)
    ensures Share(a, has) == Share(b, has)
  {
    hide Filter;
    FilterPermutation(a, b, has);
    SameCount(Filter(a, has), Filter(b, has));
    SameCount(a, b);
  }

  lemma DaysReordered(a: seq<Session>, b: seq<Session>)
    requires multiset(a) == multiset(b)
    ensures multiset(Days(a)) == multiset(Days(b)) && SortBy(Days(a), DayLeq) == SortBy(Days(b), DayLeq)
  {
    hide SortBy, Map;
    MapPermutation(SessionKeyOf, a, b);
    SortOrderIndependent(Days(a), Days(b), DayLeq);
  }

  lemma HasBarsReordered(a: seq<Bar>, b: seq<Bar>, day: Day)
    requires multiset(a) == multiset(b)
    ensures HasBars(a, day) == HasBars(b, day)
  {
    PermutationMembers(a, b);
  }

  lemma BarDaysReordered(open: seq<Session>, open': seq<Session>, a: seq<Bar>, b: seq<Bar>)
    requires multiset(open) == multiset(open') && multiset(a) == multiset(b)
    ensures BarDays(open, a) == BarDays(open', b) && MissingDays(open, a) == MissingDays(open', b)
  {
    hide HasBars, Days, SortBy, Filter;
    DaysReordered(open, open');
    PermutationMembers(Days(open), Days(open'));
    forall day
      ensures HasBars(a, day) == HasBars(b, day)
    {
      HasBarsReordered(a, b, day);
    }
    FilterCongruence(SortBy(Days(open), DayLeq), (day: Day) => !HasBars(a, day), (day: Day) => !HasBars(b, day));
  }

  /** Only the truncated list of missing snapshots can depend on insertion order. */
  lemma CoverageReordered(a: Store, b: Store)
    requires SameRows(a, b) && a.meta.cadence == b.meta.cadence && a.meta.version == b.meta.version
    ensures Coverage(a).(missingSnapshots := []) == Coverage(b).(missingSnapshots := [])
  {
    hide Filter, Slots, Observed, Missing, Ratio, MissingDays, BarDays, Share, FirstTwenty;
    FilterPermutation(a.sessions, b.sessions, IsOpen);
    var open, open' := OpenSessions(a.sessions), OpenSessions(b.sessions);
    SameCount(open, open');
    SlotsReordered(open, open', a.meta.cadence, a.contracts, b.contracts);
    SameCount(SlotsOf(a), SlotsOf(b));
    ObservedReordered(SlotsOf(a), SlotsOf(b), a.quotes, b.quotes);
    BarDaysReordered(open, open', a.bars, b.bars);
    ShareReordered(a.quotes, b.quotes, HasBidAsk);
    ShareReordered(a.quotes, b.quotes, HasOi);
    ShareReordered(a.quotes, b.quotes, HasVolume);
    ShareReordered(a.quotes, b.quotes, HasIv);
    ShareReordered(a.quotes, b.quotes, HasGreeks);
  }

  /** The gate does not look at the list of missing snapshots. */
  lemma GateIgnoresSnapshots(meta: Meta, report: Report, report': Report)
    requires report.(missingSnapshots := []) == report'.(missingSnapshots := [])
    ensures Gate(meta, report) == Gate(meta, report')
  {
    hide Coded;
    CodedDependsOn(meta, meta, report, report');
  }

  // What is expected and what counts as missing.

  /** An observation is expected exactly for an open session, a cadence stamp within its hours and a contract listed
      then. */
  lemma SlotsMeaning(s: Store, slot: Slot)
    ensures slot in SlotsOf(s) <==>
            exists session <- s.sessions, stamp <- s.meta.cadence, c <- s.contracts ::
              Expects(session, stamp, c, slot)
  {
    hide Expects, Filter, IsOpen, FlatMap, SessionSlots;
    var open := OpenSessions(s.sessions);
    FlatMapMembers((x: Session) => SessionSlots(x, s.meta.cadence, s.contracts), open, slot);
    forall session: Session
      ensures IsOpen(session) && slot in SessionSlots(session, s.meta.cadence, s.contracts) <==>
              exists stamp <- s.meta.cadence, c <- s.contracts :: Expects(session, stamp, c, slot)
    {
      SessionSlotsMeaning(session, s.meta.cadence, s.contracts, slot);
    }
  }

  predicate Expects(session: Session, stamp: nat, c: Contract, slot: Slot) {
    && IsOpen(session) && session.openAt <= SlotTime(session.date, stamp) <= session.closeAt
    && Listed(c, SlotTime(session.date, stamp)) && slot == Slot(c.contractId, SlotTime(session.date, stamp))
  }

  lemma SessionSlotsMeaning(session: Session, cadence: seq<nat>, contracts: seq<Contract>, slot: Slot)
    ensures IsOpen(session) && slot in SessionSlots(session, cadence, contracts) <==>
            exists stamp <- cadence, c <- contracts :: Expects(session, stamp, c, slot)
  {
    hide IsOpen, FlatMap, SlotsAt;
    FlatMapMembers((stamp: nat) => StampSlots(session, stamp, contracts), cadence, slot);
    forall stamp: nat
      ensures IsOpen(session) && slot in StampSlots(session, stamp, contracts) <==>
              exists c <- contracts :: Expects(session, stamp, c, slot)
    {
      MomentSlotsMeaning(contracts, SlotTime(session.date, stamp), slot);
    }
  }

  lemma MomentSlotsMeaning(contracts: seq<Contract>, at: Time, slot: Slot)
    ensures slot in SlotsAt(contracts, at) <==> exists c <- contracts :: Listed(c, at) && slot == Slot(c.contractId, at)
  {
    hide FlatMap, Listed;
    FlatMapMembers((c: Contract) => if Listed(c, at) then [Slot(c.contractId, at)] else [], contracts, slot);
  }

  /** The missing sessions are exactly the open days without a bar, in date order. */
  lemma MissingDaysAre(open: seq<Session>, bars: seq<Bar>)
    ensures forall day :: day in MissingDays(open, bars) <==>
              (exists session <- open :: session.date == day) && forall bar <- bars :: DayOf(bar.timestamp) != day
    ensures Sorted(MissingDays(open, bars), DayLeq)
  {
    hide SortBy, Filter, Map;
    SortBySorted(Days(open), DayLeq);
    FilterSorted(SortBy(Days(open), DayLeq), DayLeq, (day: Day) => !HasBars(bars, day));
    PermutationMembers(SortBy(Days(open), DayLeq), Days(open));
    forall day
      ensures day in Days(open) <==> exists session <- open :: session.date == day
    {
      MapMembers(SessionKeyOf, open, day);
    }
  }

  // The verdicts of the gate, in terms of the rows.

  /** At most one quote in twenty thousand lacks what `has` asks for. */
  predicate NearlyAll(quotes: seq<Quote>, has: Quote -> bool) {
    quotes != [] && 2 * WHOLE * (|quotes| - |Filter(quotes, has)|) <= |quotes|
  }

  lemma {:induction false} FilterIsShorter<T>(xs: seq<T>, keep: T -> bool)
    ensures |Filter(xs, keep)| <= |xs|
  {
    if xs != [] {
      FilterIsShorter(xs[1..], keep);
    }
  }

  lemma ShareIsWhole(quotes: seq<Quote>, has: Quote -> bool)
    ensures Share(quotes, has) <= WHOLE && (Share(quotes, has) == WHOLE <==> NearlyAll(quotes, has))
  {
    hide Filter, Ratio;
    FilterIsShorter(quotes, has);
    RatioIsWhole(|Filter(quotes, has)|, |quotes|);
  }

  predicate Synthetic(meta: Meta) { meta.frameworkOnly || meta.fixture }

  lemma NothingCoded(meta: Meta, report: Report)
    ensures Coded(meta, report) == [] <==>
            && report.missingSessions == [] && report.expected > 0 && report.quotes >= WHOLE
            && (meta.bidAsk ==> report.bidAsk >= WHOLE) && (meta.oi ==> report.oi >= WHOLE)
            && (meta.volume ==> report.volume >= WHOLE) && (meta.iv ==> report.iv >= WHOLE)
  {
    hide SortBy;
    var raised := Raised(meta, report);
    assert |multiset(SortBy(raised, WarningLeq))| == |multiset(raised)|;
    SameCount(SortBy(raised, WarningLeq), raised);
  }

  lemma GateStatus(meta: Meta, report: Report)
    ensures var status := Gate(meta, report).qualityStatus;
            && (status == "SYNTHETIC" <==> Synthetic(meta))
            && (status == "REJECTED" <==> !Synthetic(meta) && (report.observed == 0 || report.actualSessions == 0))
            && (status == "APPROVED" <==>
                  !Synthetic(meta) && report.observed > 0 && report.actualSessions > 0 && Coded(meta, report) == [])
  {
    hide Coded;
  }

  /** A dataset is rejected exactly when nothing expected was observed or no open session has a bar, and approved
      without warnings exactly when no open session lacks bars and at most one in twenty thousand of the expected
      quotes, and of every quote field the dataset claims to have, is missing. */
  lemma VerdictExactlyWhen(s: Store)
    requires !Synthetic(s.meta)
    ensures var status, open, slots := Gate(s.meta, Coverage(s)).qualityStatus, OpenSessions(s.sessions), SlotsOf(s);
            && (status == "REJECTED" <==> Observed(slots, s.quotes) == [] || BarDays(open, s.bars) == {})
            && (status == "APPROVED" <==>
                  && Observed(slots, s.quotes) != [] && BarDays(open, s.bars) != {} && MissingDays(open, s.bars) == []
                  && 2 * WHOLE * |Missing(slots, s.quotes)| <= |slots|
                  && (s.meta.bidAsk ==> NearlyAll(s.quotes, HasBidAsk)) && (s.meta.oi ==> NearlyAll(s.quotes, HasOi))
                  && (s.meta.volume ==> NearlyAll(s.quotes, HasVolume)) && (s.meta.iv ==> NearlyAll(s.quotes, HasIv)))
  {
    hide Gate, Observed, Missing, Share, NearlyAll, OpenSessions, BarDays, MissingDays, Slots, Ratio, Coded,
      FirstTwenty;
    var report := Coverage(s);
    GateStatus(s.meta, report);
    NothingCoded(s.meta, report);
    CoverageIsExact(s);
    RatioIsWhole(report.observed, report.expected);
    ShareIsWhole(s.quotes, HasBidAsk);
    ShareIsWhole(s.quotes, HasOi);
    ShareIsWhole(s.quotes, HasVolume);
    ShareIsWhole(s.quotes, HasIv);
  }
}
