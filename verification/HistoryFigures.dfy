/** The coverage report, the verdict and the expiry universe of a dataset in the fields of its rows. */
module HistoryFigures {
  import opened Basics
  import opened Ordering
  import opened HistoryRows
  import opened HistoryStore
  import opened HistoryCoverage
  import opened HistoryExpiry

  // The report.

  /** An open session has a cadence stamp, in minutes of the day and within its hours, when the contract is listed. */
  ghost predicate Expected(s: Store, id: string, at: Time) {
    exists session <- s.sessions, stamp <- s.meta.cadence, c <- s.contracts ::
      ExpectedBy(session, stamp, c, id, at)
  }

  predicate ExpectedBy(session: Session, stamp: nat, c: Contract, id: string, at: Time) {
    && session.status == "OPEN" && at == session.date * 86400 + stamp * 60
    && session.openAt <= at <= session.closeAt && c.firstSeen <= at <= c.lastSeen && c.contractId == id
  }

  /** What is expected, observed and missing. */
  lemma SlotsInFields(s: Store, slot: Slot)
    ensures slot in SlotsOf(s) <==> Expected(s, slot.contractId, slot.at)
    ensures slot in Missing(SlotsOf(s), s.quotes) <==>
              && Expected(s, slot.contractId, slot.at)
              && forall q <- s.quotes :: q.contractId != slot.contractId || q.timestamp != slot.at
    ensures slot in Observed(SlotsOf(s), s.quotes) <==>
              && Expected(s, slot.contractId, slot.at)
              && exists q <- s.quotes :: q.contractId == slot.contractId && q.timestamp == slot.at
  {
    hide SlotsOf, Filter, Expects, ExpectedBy;
    SlotsMeaning(s, slot);
    forall session: Session, stamp: nat, c: Contract
      ensures Expects(session, stamp, c, slot) <==> ExpectedBy(session, stamp, c, slot.contractId, slot.at)
    {
      ExpectsMeaning(session, stamp, c, slot);
    }
  }

  lemma ExpectsMeaning(session: Session, stamp: nat, c: Contract, slot: Slot)
    ensures Expects(session, stamp, c, slot) <==> ExpectedBy(session, stamp, c, slot.contractId, slot.at)
  {
  }

  /** A ratio is the quotient in units of 0.0001, rounded to the nearest one and on a tie to the even one. */
  lemma RatioMeaning(count: nat, total: nat)
    ensures var r, n: int := Ratio(count, total), total;
            var off := 10000 * count - r * n;
            if n == 0 then r == 0 else -n <= 2 * off <= n && (2 * off == n || 2 * off == -n ==> r % 2 == 0)
  {
    if total > 0 {
      var q := count * WHOLE / total;
      assert count * WHOLE == q * total + count * WHOLE % total;
      assert (q + 1) * total == q * total + total;
    }
  }

  /** The shares of the quotes that have both prices, and each of the other figures. */
  lemma SharesInFields(s: Store)
    ensures var r, n := Coverage(s), |s.quotes|;
            && r.bidAsk == Ratio(|Filter(s.quotes, (q: Quote) => q.bid.Some? && q.ask.Some?)|, n)
            && r.oi == Ratio(|Filter(s.quotes, (q: Quote) => q.openInterest.Some?)|, n)
            && r.volume == Ratio(|Filter(s.quotes, (q: Quote) => q.volume.Some?)|, n)
            && r.iv == Ratio(|Filter(s.quotes, (q: Quote) => q.iv.Some?)|, n)
            && r.greeks == Ratio(|Filter(s.quotes, (q: Quote) => q.delta.Some?)|, n)
  {
    hide Filter, Ratio, SlotsOf, MissingDays, BarDays, Missing, Observed;
    FilterCongruence(s.quotes, HasBidAsk, (q: Quote) => q.bid.Some? && q.ask.Some?);
    FilterCongruence(s.quotes, HasOi, (q: Quote) => q.openInterest.Some?);
    FilterCongruence(s.quotes, HasVolume, (q: Quote) => q.volume.Some?);
    FilterCongruence(s.quotes, HasIv, (q: Quote) => q.iv.Some?);
    FilterCongruence(s.quotes, HasGreeks, (q: Quote) => q.delta.Some?);
  }

  /** The session has a bar. */
  predicate Covered(s: Store, day: Day) { exists bar <- s.bars :: bar.timestamp / 86400 == day }

  /** Sessions: the open ones are expected, those with a bar are there and the others are listed in date order. */
  lemma SessionsInFields(s: Store)
    ensures var r := Coverage(s);
            && r.expectedSessions == |Filter(s.sessions, (x: Session) => x.status == "OPEN")|
            && (forall day :: day in r.missingSessions <==>
                  !Covered(s, day) && exists x <- s.sessions :: x.status == "OPEN" && x.date == day)
            && (forall i, j :: 0 <= i < j < |r.missingSessions| ==> r.missingSessions[i] <= r.missingSessions[j])
            && (r.actualSessions == 0 <==> forall x <- s.sessions :: x.status == "OPEN" ==> !Covered(s, x.date))
  {
    hide Filter, Ratio, SlotsOf, MissingDays, Missing, Observed, Share, Map;
    FilterCongruence(s.sessions, IsOpen, (x: Session) => x.status == "OPEN");
    var open := OpenSessions(s.sessions);
    MissingDaysAre(open, s.bars);
    forall day
      ensures day in Days(open) <==> exists x <- s.sessions :: x.status == "OPEN" && x.date == day
    {
      MapMembers(SessionKeyOf, open, day);
    }
    forall x <- s.sessions | x.status == "OPEN" && Covered(s, x.date)
      ensures BarDays(open, s.bars) != {}
    {
      assert x.date in BarDays(open, s.bars);
    }
    if BarDays(open, s.bars) != {} {
      var day :| day in BarDays(open, s.bars);
      assert Covered(s, day);
    }
  }

  // The warnings.

  /** More than one in twenty thousand is lacking, or there is nothing at all. */
  predicate Lacking(quotes: seq<Quote>, has: Quote -> bool) {
    quotes == [] || 20000 * (|quotes| - |Filter(quotes, has)|) > |quotes|
  }

  /** When a dataset earns each warning. */
  ghost predicate Due(s: Store, w: Warning) {
    match w
    case MissingSessions => exists x <- s.sessions :: x.status == "OPEN" && !Covered(s, x.date)
    case OptionSnapshotGaps =>
      SlotsOf(s) == [] || 20000 * |Missing(SlotsOf(s), s.quotes)| > |SlotsOf(s)|
    case BidAskGaps => s.meta.bidAsk && Lacking(s.quotes, (q: Quote) => q.bid.Some? && q.ask.Some?)
    case MissingOi => s.meta.oi && Lacking(s.quotes, (q: Quote) => q.openInterest.Some?)
    case MissingVolume => s.meta.volume && Lacking(s.quotes, (q: Quote) => q.volume.Some?)
    case MissingIv => s.meta.iv && Lacking(s.quotes, (q: Quote) => q.iv.Some?)
    case Unknown(_) => false
  }

  lemma LackingMeaning(quotes: seq<Quote>, has: Quote -> bool)
    ensures Lacking(quotes, has) <==> Ratio(|Filter(quotes, has)|, |quotes|) < 10000
  {
    hide Filter, Ratio;
    FilterIsShorter(quotes, has);
    RatioIsWhole(|Filter(quotes, has)|, |quotes|);
  }

  lemma RaisedExactlyWhen(s: Store, w: Warning)
    ensures w in Raised(s.meta, Coverage(s)) <==> Due(s, w)
  {
    hide Filter, Ratio, SlotsOf, Missing, Covered, Lacking;
    var report := Coverage(s);
    LackingMeaning(s.quotes, (q: Quote) => q.bid.Some? && q.ask.Some?);
    LackingMeaning(s.quotes, (q: Quote) => q.openInterest.Some?);
    LackingMeaning(s.quotes, (q: Quote) => q.volume.Some?);
    LackingMeaning(s.quotes, (q: Quote) => q.iv.Some?);
    SharesInFields(s);
    SessionsInFields(s);
    GapsMeaning(s);
    MissingListed(s);
    RaisedMeaning(s.meta, report, w);
  }

  lemma GapsMeaning(s: Store)
    ensures var n := |SlotsOf(s)|;
            Coverage(s).expected == 0 || Coverage(s).quotes < 10000 <==>
              n == 0 || 20000 * |Missing(SlotsOf(s), s.quotes)| > n
  {
    hide Ratio, SlotsOf, Missing, Observed, MissingDays, BarDays, Share;
    CoverageIsExact(s);
    RatioIsWhole(Coverage(s).observed, Coverage(s).expected);
  }

  lemma MissingListed(s: Store)
    ensures Coverage(s).missingSessions != [] <==>
              exists x <- s.sessions :: x.status == "OPEN" && !Covered(s, x.date)
  {
    hide Coverage, Covered;
    SessionsInFields(s);
    if x :| x in s.sessions && x.status == "OPEN" && !Covered(s, x.date) {
      assert x.date in Coverage(s).missingSessions;
    }
    if Coverage(s).missingSessions != [] {
      var day := Coverage(s).missingSessions[0];
      assert day in Coverage(s).missingSessions;
      var x :| x in s.sessions && x.status == "OPEN" && x.date == day;
      assert !Covered(s, x.date);
    }
  }

  lemma RaisedMeaning(meta: Meta, r: Report, w: Warning)
    ensures w in Raised(meta, r) <==>
              match w
              case MissingSessions => r.missingSessions != []
              case OptionSnapshotGaps => r.expected == 0 || r.quotes < 10000
              case BidAskGaps => meta.bidAsk && r.bidAsk < 10000
              case MissingOi => meta.oi && r.oi < 10000
              case MissingVolume => meta.volume && r.volume < 10000
              case MissingIv => meta.iv && r.iv < 10000
              case Unknown(_) => false
  {
    RaiseMember(r.missingSessions != [], MissingSessions, w);
    RaiseMember(r.expected == 0 || r.quotes < WHOLE, OptionSnapshotGaps, w);
    RaiseMember(meta.bidAsk && r.bidAsk < WHOLE, BidAskGaps, w);
    RaiseMember(meta.oi && r.oi < WHOLE, MissingOi, w);
    RaiseMember(meta.volume && r.volume < WHOLE, MissingVolume, w);
    RaiseMember(meta.iv && r.iv < WHOLE, MissingIv, w);
  }

  lemma RaiseMember(condition: bool, warning: Warning, w: Warning)
    ensures w in Raise(condition, warning) <==> condition && w == warning
  {
  }

  /** The warnings of a gated dataset are exactly those that are due, in the order of their ids. */
  lemma WarningsExactlyWhen(s: Store)
    ensures var warnings := Gate(s.meta, Coverage(s)).warnings;
            && (forall w :: w in warnings <==> Due(s, w))
            && (forall i, j :: 0 <= i < j < |warnings| ==> Rank(warnings[i]) < Rank(warnings[j]))
    ensures Rank(BidAskGaps) < Rank(MissingIv) < Rank(MissingOi) < Rank(MissingSessions) < Rank(MissingVolume)
    ensures Rank(MissingVolume) < Rank(OptionSnapshotGaps)
  {
    hide Raised, Coverage, SortBy, Due, Gate;
    var raised := Raised(s.meta, Coverage(s));
    GateWarnings(s.meta, Coverage(s));
    forall w
      ensures w in Coded(s.meta, Coverage(s)) <==> Due(s, w)
    {
      SortedMember(raised, WarningLeq, w);
      RaisedExactlyWhen(s, w);
    }
    RanksOrder();
    SortBySorted(raised, WarningLeq);
    RaisedOnce(s.meta, Coverage(s));
    PermutationMembers(SortBy(raised, WarningLeq), raised);
    NoRepeats(raised, SortBy(raised, WarningLeq));
    var warnings := Coded(s.meta, Coverage(s));
    forall i, j | 0 <= i < j < |warnings|
      ensures Rank(warnings[i]) < Rank(warnings[j])
    {
      assert WarningLeq(warnings[i], warnings[j]) && warnings[i] != warnings[j];
      assert warnings[i] in raised && warnings[j] in raised;
      RaisedMembers(s.meta, Coverage(s), warnings[i]);
      RaisedMembers(s.meta, Coverage(s), warnings[j]);
    }
  }

  lemma RanksOrder()
    ensures TotalPreorder(WarningLeq)
  {
  }

  predicate Once(ws: seq<Warning>) { forall i, j :: 0 <= i < j < |ws| ==> ws[i] != ws[j] }

  lemma OneMore(ws: seq<Warning>, condition: bool, w: Warning)
    requires Once(ws) && w !in ws
    ensures Once(ws + Raise(condition, w)) && forall x <- ws + Raise(condition, w) :: x in ws || x == w
  {
  }

  lemma RaisedOnce(meta: Meta, r: Report)
    ensures Once(Raised(meta, r))
  {
    hide Raise, Once;
    var a := Raise(r.missingSessions != [], MissingSessions);
    FirstOnce(r.missingSessions != [], MissingSessions);
    OneMore(a, r.expected == 0 || r.quotes < WHOLE, OptionSnapshotGaps);
    var b := a + Raise(r.expected == 0 || r.quotes < WHOLE, OptionSnapshotGaps);
    OneMore(b, meta.bidAsk && r.bidAsk < WHOLE, BidAskGaps);
    var c := b + Raise(meta.bidAsk && r.bidAsk < WHOLE, BidAskGaps);
    OneMore(c, meta.oi && r.oi < WHOLE, MissingOi);
    var d := c + Raise(meta.oi && r.oi < WHOLE, MissingOi);
    OneMore(d, meta.volume && r.volume < WHOLE, MissingVolume);
    OneMore(d + Raise(meta.volume && r.volume < WHOLE, MissingVolume), meta.iv && r.iv < WHOLE, MissingIv);
  }

  lemma FirstOnce(condition: bool, w: Warning)
    ensures Once(Raise(condition, w)) && forall x <- Raise(condition, w) :: x == w
  {
  }

  // The expiry universe.

  /** A contract of the underlying, expiry and class. */
  predicate Belongs(c: Contract, underlying: string, key: Key) {
    c.underlying == underlying && c.expiry == key.expiry && c.expiryClass == key.klass
  }

  /** A key has a record exactly when some contract has it; the record spans from the first sighting of any of its
      contracts to the last sighting of any. */
  lemma RecordsInFields(contracts: seq<Contract>, underlying: string, r: ExpiryRecord)
    ensures r in Records(contracts, underlying) ==>
              && r.underlying == underlying
              && (exists c <- contracts :: Belongs(c, underlying, r.key) && c.firstSeen == r.firstSeen)
              && (exists c <- contracts :: Belongs(c, underlying, r.key) && c.lastSeen == r.lastSeen)
              && forall c <- contracts | Belongs(c, underlying, r.key) ::
                   r.firstSeen <= c.firstSeen && c.lastSeen <= r.lastSeen
    ensures forall c <- contracts | c.underlying == underlying ::
              exists x <- Records(contracts, underlying) :: x.key == Key(c.expiry, c.expiryClass)
  {
    hide Records, Filter, Earliest, LastOf;
    RecordsMeaning(contracts, underlying, r);
    var items := Of(contracts, underlying);
    forall key, c: Contract
      ensures c in Group(items, key) <==> c in contracts && Belongs(c, underlying, key)
    {
    }
    if r in Records(contracts, underlying) {
      var first :| first in Group(items, r.key) && first.firstSeen == r.firstSeen;
      var last :| last in Group(items, r.key) && last.lastSeen == r.lastSeen;
      assert Belongs(first, underlying, r.key) && Belongs(last, underlying, r.key);
    }
    forall c <- contracts | c.underlying == underlying
      ensures exists x <- Records(contracts, underlying) :: x.key == Key(c.expiry, c.expiryClass)
    {
      var key := Key(c.expiry, c.expiryClass);
      assert c in Group(items, key);
      var x := Hull(underlying, key, Group(items, key));
      RecordsMeaning(contracts, underlying, x);
      assert x.key == key;
    }
  }

  lemma {:induction false} HullsOnce(items: seq<Contract>, underlying: string, keys: seq<Key>)
    requires forall i, j :: 0 <= i < j < |keys| ==> keys[i] != keys[j]
    ensures var hulls := FlatMap((key: Key) => HullOf(items, underlying, key), keys);
            && (forall r <- hulls :: r.key in keys)
            && (forall i, j :: 0 <= i < j < |hulls| ==> hulls[i] != hulls[j])
    decreases |keys|
  {
    hide Group, Earliest, LastOf;
    if keys != [] {
      HullsOnce(items, underlying, keys[..|keys| - 1]);
    }
  }

  /** There is one record for each key, by expiry and then by class. */
  lemma RecordsInOrder(contracts: seq<Contract>, underlying: string, i: nat, j: nat)
    requires i < j < |Records(contracts, underlying)|
    ensures var a, b := Records(contracts, underlying)[i].key, Records(contracts, underlying)[j].key;
            a.expiry < b.expiry || (a.expiry == b.expiry && a.klass != b.klass && TextLeq(a.klass, b.klass))
  {
    hide Of, Group, Keys, FlatMap, SortBy, TextLeq, Hull;
    var items, records := Of(contracts, underlying), Records(contracts, underlying);
    var hulls := FlatMap((key: Key) => HullOf(items, underlying, key), Keys(items));
    RecordOrder();
    SortBySorted(hulls, RecordLeq);
    HullsOnce(items, underlying, Keys(items));
    NoRepeats(hulls, records);
    assert RecordLeq(records[i], records[j]) && records[i] != records[j];
    assert records[i] in records && records[j] in records;
    RecordsMeaning(contracts, underlying, records[i]);
    RecordsMeaning(contracts, underlying, records[j]);
  }

  lemma RecordOrder()
    ensures TotalPreorder(RecordLeq)
  {
    hide TextLeq;
    TextOrder();
  }

  /** The universe of a moment holds the records whose span contains it. */
  lemma UniverseInFields(contracts: seq<Contract>, underlying: string, moment: Time, r: ExpiryRecord)
    ensures r in UniverseAt(contracts, underlying, moment) <==>
              r in Records(contracts, underlying) && r.firstSeen <= moment <= r.lastSeen
  {
    hide Records, Filter;
  }
}
