/** The planner of live subscriptions. Prices are in units of 0.0001; distances are measured in strike steps. */
module Subscriptions {
  import opened Basics
  import opened Ordering

  type Day = int

  datatype Row = Row(symbol: string, canonical: string, expiry: Option<Day>, strike: Option<int>, kind: Option<string>)

  datatype Request = Request(catalog: seq<Row>, spots: map<string, int>, expiries: map<string, Day>, window: real,
                             maxSymbols: int, active: seq<string>)

  /** Rank 0 for an index, 1 for an option. */
  datatype Desired = Desired(rank: nat, distance: real, symbol: string)

  datatype Error = SubscriptionLimit

  // The strike grid.

  predicate IntLeq(a: int, b: int) { a <= b }

  function SortedStrikes(strikes: seq<int>): (r: seq<int>) { SortBy(Distinct(strikes), IntLeq) }

  function Gaps(unique: seq<int>): (gaps: seq<int>)
    requires unique != []
    ensures |gaps| == |unique| - 1
    ensures forall i :: 0 <= i < |gaps| ==> gaps[i] == unique[i + 1] - unique[i]
  {
    if |unique| == 1 then [] else Gaps(unique[..|unique| - 1]) + [unique[|unique| - 1] - unique[|unique| - 2]]
  }

  const DEFAULT_STEP := 500000

  function StepOf(strikes: seq<int>): int {
    var unique := SortedStrikes(strikes);
    if |unique| < 2 then DEFAULT_STEP
    else
      var gaps := SortBy(Gaps(unique), IntLeq);
      assert |gaps| == |multiset(gaps)| == |multiset(Gaps(unique))| == |Gaps(unique)|;
      gaps[|gaps| / 2]
  }

  method StrikeStep(strikes: seq<int>) returns (step: int)
    ensures step == StepOf(strikes)
  {
    hide SortBy, Distinct, Gaps;
    var unique := SortBy(Distinct(strikes), IntLeq);
    if |unique| < 2 {
      return DEFAULT_STEP;
    }
    var diffs := [];
    FirstGaps(unique);
    for i := 0 to |unique| - 1
      invariant diffs == Gaps(unique[..i + 1])
    {
      NextGap(unique, i);
      diffs := diffs + [unique[i + 1] - unique[i]];
    }
    assert unique[..|unique|] == unique;
    var gaps := SortBy(diffs, IntLeq);
    assert |gaps| == |multiset(gaps)| == |multiset(diffs)| == |diffs|;
    return gaps[|gaps| / 2];
  }

  lemma FirstGaps(unique: seq<int>)
    requires unique != []
    ensures Gaps(unique[..1]) == []
  {
  }

  lemma NextGap(unique: seq<int>, i: nat)
    requires i + 1 < |unique|
    ensures Gaps(unique[..i + 2]) == Gaps(unique[..i + 1]) + [unique[i + 1] - unique[i]]
  {
    assert unique[..i + 2][..i + 1] == unique[..i + 1];
  }

  lemma OrderOfInts()
    ensures TotalPreorder(IntLeq)
  {
  }

  lemma SortedStrikesAscend(strikes: seq<int>)
    ensures var unique := SortedStrikes(strikes);
            && (forall i, j :: 0 <= i < j < |unique| ==> unique[i] < unique[j])
            && (forall x :: x in unique <==> x in strikes)
  {
    hide SortBy, Distinct, TotalPreorder;
    var unique := SortedStrikes(strikes);
    OrderOfInts();
    SortBySorted(Distinct(strikes), IntLeq);
    PermutationMembers(unique, Distinct(strikes));
    NoRepeats(Distinct(strikes), unique);
  }

  /** The step is a gap between two neighbouring listed strikes, so it is positive and the grid never divides by zero.
      */
  lemma StepIsAGap(strikes: seq<int>)
    ensures StepOf(strikes) > 0
    ensures var unique := SortedStrikes(strikes);
            if |unique| < 2 then StepOf(strikes) == DEFAULT_STEP
            else exists i :: 0 <= i < |unique| - 1 && StepOf(strikes) == unique[i + 1] - unique[i]
  {
    hide SortBy, SortedStrikes;
    var unique := SortedStrikes(strikes);
    SortedStrikesAscend(strikes);
    if |unique| >= 2 {
      var gaps := SortBy(Gaps(unique), IntLeq);
      PermutationMembers(gaps, Gaps(unique));
      assert gaps[|gaps| / 2] in gaps;
      var i :| 0 <= i < |unique| - 1 && Gaps(unique)[i] == gaps[|gaps| / 2];
      assert StepOf(strikes) == unique[i + 1] - unique[i];
    }
  }

  /** `round(spot / step) * step`, ties to the even multiple. */
  function AtmStrike(spot: int, step: int): int
    requires step > 0
  {
    var q, r := spot / step, spot % step;
    step * (if 2 * r < step then q else if 2 * r > step then q + 1 else if q % 2 == 0 then q else q + 1)
  }

  /** No multiple of the step is nearer to spot. */
  lemma AtmIsNearest(spot: int, step: int, k: int)
    requires step > 0
    ensures Apart(spot, AtmStrike(spot, step)) <= Apart(spot, step * k)
  {
    var q, r := spot / step, spot % step;
    var m := q - k;
    assert spot == step * q + r;
    assert step * (q + 1) == step * q + step;
    assert step * k == step * q - step * m;
    Multiple(step, m);
    NearestOf(spot, step, step * q, r, step * m);
  }

  lemma Multiple(step: int, m: int)
    requires step > 0
    ensures m >= 0 ==> step * m >= 0
    ensures m <= -1 ==> step * m <= -step
  {
  }

  /** The arithmetic of `AtmIsNearest`, with every product named: `base` is the multiple below spot, `shift` the way
      from another multiple to it. */
  lemma NearestOf(spot: int, step: int, base: int, r: int, shift: int)
    requires step > 0 && 0 <= r < step && spot == base + r && (shift >= 0 || shift <= -step)
    ensures forall atm :: (atm == base && 2 * r <= step) || (atm == base + step && 2 * r >= step) ==>
              Apart(spot, atm) <= Apart(spot, base - shift)
  {
  }

  function Apart(a: int, b: int): nat { if a < b then b - a else a - b }

  function Distance(strike: int, atm: int, step: int): real
    requires step > 0
  {
    ((if strike < atm then atm - strike else strike - atm) as real) / (step as real)
  }

  // Collecting what is wanted.

  datatype Wanted = Wanted(desired: seq<Desired>, used: set<string>)

  predicate IsOption(row: Row) { row.kind == Some("CE") || row.kind == Some("PE") }

  function ExpiryOf(q: Request, underlying: string): Option<Day> {
    if underlying in q.expiries then Some(q.expiries[underlying]) else None
  }

  function OptionRows(q: Request, underlying: string): seq<Row> {
    Filter(q.catalog,
           (row: Row) => row.canonical == underlying && IsOption(row) && row.expiry == ExpiryOf(q, underlying))
  }

  function IndexRows(q: Request, underlying: string): seq<Row> {
    Filter(q.catalog, (row: Row) => row.canonical == underlying && row.kind.None?)
  }

  function Want(w: Wanted, d: Desired): Wanted {
    if d.symbol in w.used then w else Wanted(w.desired + [d], w.used + {d.symbol})
  }

  function WantIndex(q: Request, w: Wanted, underlying: string): Wanted {
    var rows := IndexRows(q, underlying);
    if rows == [] then w else Want(w, Desired(0, 0.0, rows[0].symbol))
  }

  predicate InWindow(q: Request, row: Row, atm: int, step: int)
    requires step > 0
  {
    row.strike.Some? && Distance(row.strike.value, atm, step) <= q.window
  }

  function WantOptions(q: Request, w: Wanted, rows: seq<Row>, atm: int, step: int): Wanted
    requires step > 0
  {
    if rows == [] then w
    else
      var before, row := WantOptions(q, w, rows[..|rows| - 1], atm, step), rows[|rows| - 1];
      if !InWindow(q, row, atm, step) then before
      else Want(before, Desired(1, Distance(row.strike.value, atm, step), row.symbol))
  }

  function Strikes(rows: seq<Row>): seq<int> {
    FlatMap((row: Row) => if row.strike.Some? then [row.strike.value] else [], rows)
  }

  function GridStep(q: Request, underlying: string): (step: int)
    ensures step > 0
  {
    StepIsAGap(Strikes(OptionRows(q, underlying)));
    StepOf(Strikes(OptionRows(q, underlying)))
  }

  predicate HasOptions(q: Request, underlying: string) {
    OptionRows(q, underlying) != [] && underlying in q.spots && underlying in q.expiries
  }

  function Atm(q: Request, underlying: string): int
    requires underlying in q.spots
  {
    AtmStrike(q.spots[underlying], GridStep(q, underlying))
  }

  function WantUnderlying(q: Request, w: Wanted, underlying: string): Wanted {
    var indexed := WantIndex(q, w, underlying);
    if !HasOptions(q, underlying) then indexed
    else WantOptions(q, indexed, OptionRows(q, underlying), Atm(q, underlying), GridStep(q, underlying))
  }

  function WantAll(q: Request, active: seq<string>): Wanted {
    if active == [] then Wanted([], {})
    else WantUnderlying(q, WantAll(q, active[..|active| - 1]), active[|active| - 1])
  }

  // Ordering and capping.

  predicate DesiredLeq(a: Desired, b: Desired) {
    if a.rank != b.rank then a.rank < b.rank
    else if a.distance != b.distance then a.distance < b.distance
    else TextLeq(a.symbol, b.symbol)
  }

  predicate IsIndex(d: Desired) { d.rank == 0 }

  predicate IsRankOne(d: Desired) { d.rank == 1 }

  function Cap(desired: seq<Desired>, maxSymbols: int): seq<Desired> {
    if |desired| <= maxSymbols then desired
    else
      var index, options := Filter(desired, IsIndex), Filter(desired, IsRankOne);
      var room := if maxSymbols > |index| then maxSymbols - |index| else 0;
      index + if room < |options| then options[..room] else options
  }

  function Symbols(desired: seq<Desired>): seq<string> { Map((d: Desired) => d.symbol, desired) }

  function Kept(q: Request): seq<Desired> {
    Cap(SortBy(WantAll(q, q.active).desired, DesiredLeq), q.maxSymbols)
  }

  function Plan(q: Request): Result<seq<string>, Error> {
    if q.maxSymbols < 1 || |Kept(q)| > q.maxSymbols then Err(SubscriptionLimit) else Ok(Symbols(Kept(q)))
  }

  // The planner.

  method PlanSubscriptions(q: Request) returns (result: Result<seq<string>, Error>)
    ensures result == Plan(q)
  {
    hide WantUnderlying, SortBy, Cap, Map;
    if q.maxSymbols < 1 {
      return Err(SubscriptionLimit);
    }
    var w := Wanted([], {});
    for i := 0 to |q.active|
      invariant w == WantAll(q, q.active[..i])
    {
      assert q.active[..i + 1][..i] == q.active[..i];
      w := PlanUnderlying(q, w, q.active[i]);
    }
    assert q.active[..|q.active|] == q.active;
    var kept := Cap(SortBy(w.desired, DesiredLeq), q.maxSymbols);
    if |kept| > q.maxSymbols {
      return Err(SubscriptionLimit);
    }
    return Ok(Symbols(kept));
  }

  method PlanUnderlying(q: Request, w: Wanted, underlying: string) returns (after: Wanted)
    ensures after == WantUnderlying(q, w, underlying)
  {
    hide StepOf, AtmStrike, Distance, IndexRows, OptionRows, Strikes;
    var options, indexRows := OptionRows(q, underlying), IndexRows(q, underlying);
    var desired, used := w.desired, w.used;
    if indexRows != [] {
      var symbol := indexRows[0].symbol;
      if symbol !in used {
        desired, used := desired + [Desired(0, 0.0, symbol)], used + {symbol};
      }
    }
    if options == [] || underlying !in q.spots || underlying !in q.expiries {
      return Wanted(desired, used);
    }
    var step := StrikeStep(Strikes(options));
    StepIsAGap(Strikes(options));
    after := PlanOptions(q, Wanted(desired, used), options, AtmStrike(q.spots[underlying], step), step);
  }

  method PlanOptions(q: Request, w: Wanted, options: seq<Row>, atm: int, step: int) returns (after: Wanted)
    requires step > 0
    ensures after == WantOptions(q, w, options, atm, step)
  {
    hide Distance;
    var desired, used := w.desired, w.used;
    for i := 0 to |options|
      invariant Wanted(desired, used) == WantOptions(q, w, options[..i], atm, step)
    {
      var row := options[i];
      assert options[..i + 1][..i] == options[..i];
      if row.strike.None? || row.symbol in used {
        continue;
      }
      var distance := Distance(row.strike.value, atm, step);
      if distance > q.window {
        continue;
      }
      desired, used := desired + [Desired(1, distance, row.symbol)], used + {row.symbol};
    }
    assert options[..|options|] == options;
    return Wanted(desired, used);
  }

  // What every plan is like.

  /** The wanted symbols are all different and are exactly the used ones; indexes have rank 0, options rank 1. */
  ghost predicate WantedOk(w: Wanted) {
    && (forall i, j :: 0 <= i < j < |w.desired| ==> w.desired[i].symbol != w.desired[j].symbol)
    && (forall d <- w.desired :: d.symbol in w.used && d.rank <= 1)
    && (forall s <- w.used :: exists d <- w.desired :: d.symbol == s)
  }

  lemma WantKeeps(w: Wanted, d: Desired)
    requires WantedOk(w) && d.rank <= 1
    ensures WantedOk(Want(w, d))
  {
    if d.symbol !in w.used {
      var after := Want(w, d);
      assert after.desired[|w.desired|] == d;
      forall s <- after.used
        ensures exists x <- after.desired :: x.symbol == s
      {
        if s != d.symbol {
          var x :| x in w.desired && x.symbol == s;
          assert x in after.desired;
        }
      }
    }
  }

  lemma {:induction false} WantOptionsKeeps(q: Request, w: Wanted, rows: seq<Row>, atm: int, step: int)
    requires step > 0 && WantedOk(w)
    ensures WantedOk(WantOptions(q, w, rows, atm, step))
    decreases |rows|
  {
    hide WantedOk, Want, Distance;
    if rows != [] {
      var before, row := WantOptions(q, w, rows[..|rows| - 1], atm, step), rows[|rows| - 1];
      WantOptionsKeeps(q, w, rows[..|rows| - 1], atm, step);
      if InWindow(q, row, atm, step) {
        WantKeeps(before, Desired(1, Distance(row.strike.value, atm, step), row.symbol));
      }
    }
  }

  lemma {:induction false} WantAllOk(q: Request, active: seq<string>)
    ensures WantedOk(WantAll(q, active))
    decreases |active|
  {
    hide WantedOk, Want, WantOptions, IndexRows, OptionRows;
    if active == [] {
      NothingWanted();
    } else {
      var w, underlying := WantAll(q, active[..|active| - 1]), active[|active| - 1];
      WantAllOk(q, active[..|active| - 1]);
      var rows := IndexRows(q, underlying);
      if rows != [] {
        WantKeeps(w, Desired(0, 0.0, rows[0].symbol));
      }
      if HasOptions(q, underlying) {
        WantOptionsKeeps(q, WantIndex(q, w, underlying), OptionRows(q, underlying), Atm(q, underlying),
                         GridStep(q, underlying));
      }
    }
  }

  lemma NothingWanted()
    ensures WantedOk(Wanted([], {}))
  {
  }

  lemma {:induction false} UsedGrows(q: Request, w: Wanted, rows: seq<Row>, atm: int, step: int)
    requires step > 0
    ensures w.used <= WantOptions(q, w, rows, atm, step).used
    ensures forall row <- rows :: InWindow(q, row, atm, step) ==> row.symbol in WantOptions(q, w, rows, atm, step).used
    decreases |rows|
  {
    hide Distance, InWindow;
    if rows != [] {
      UsedGrows(q, w, rows[..|rows| - 1], atm, step);
      assert rows == rows[..|rows| - 1] + [rows[|rows| - 1]];
    }
  }

  lemma {:induction false} EverythingIsWanted(q: Request, active: seq<string>, i: nat)
    requires i < |active|
    ensures var used := WantAll(q, active).used;
            && (IndexRows(q, active[i]) != [] ==> IndexRows(q, active[i])[0].symbol in used)
            && (HasOptions(q, active[i]) ==> forall row <- OptionRows(q, active[i]) ::
                  InWindow(q, row, Atm(q, active[i]), GridStep(q, active[i])) ==> row.symbol in used)
    decreases |active|
  {
    hide IndexRows, OptionRows, InWindow, WantOptions, GridStep, Atm;
    var w, last := WantAll(q, active[..|active| - 1]), active[|active| - 1];
    if HasOptions(q, last) {
      UsedGrows(q, WantIndex(q, w, last), OptionRows(q, last), Atm(q, last), GridStep(q, last));
    }
    if i < |active| - 1 {
      EverythingIsWanted(q, active[..|active| - 1], i);
      assert active[..|active| - 1][i] == active[i];
    }
  }

  /** Every wanted symbol has a reason: it is the first index row of an active underlying, or an in-window option of its
      selected expiry at that distance. */
  ghost predicate Justified(q: Request, active: seq<string>, d: Desired) {
    || (d.rank == 0 && exists u <- active :: IndexRows(q, u) != [] && IndexRows(q, u)[0].symbol == d.symbol)
    || (d.rank == 1 && exists u <- active, row: Row :: JustifiedBy(q, u, row, d))
  }

  ghost predicate JustifiedBy(q: Request, u: string, row: Row, d: Desired) {
    && HasOptions(q, u) && row in OptionRows(q, u) && row.symbol == d.symbol
    && InWindow(q, row, Atm(q, u), GridStep(q, u))
    && Distance(row.strike.value, Atm(q, u), GridStep(q, u)) == d.distance
  }

  lemma {:induction false} OptionsJustified(q: Request, w: Wanted, rows: seq<Row>, atm: int, step: int, d: Desired)
    requires step > 0 && d in WantOptions(q, w, rows, atm, step).desired && d !in w.desired
    ensures d.rank == 1
    ensures exists row <- rows :: InWindow(q, row, atm, step) && row.symbol == d.symbol
                               && Distance(row.strike.value, atm, step) == d.distance
    decreases |rows|
  {
    hide Distance, InWindow;
    if rows != [] {
      var front, last := rows[..|rows| - 1], rows[|rows| - 1];
      assert rows == front + [last];
      if d in WantOptions(q, w, front, atm, step).desired {
        OptionsJustified(q, w, front, atm, step, d);
      }
    }
  }

  lemma {:induction false} WantedIsJustified(q: Request, active: seq<string>, d: Desired)
    requires d in WantAll(q, active).desired
    ensures Justified(q, active, d)
    decreases |active|
  {
    hide IndexRows, OptionRows, WantOptions, GridStep, Atm, Distance;
    if active != [] {
      var front, last := active[..|active| - 1], active[|active| - 1];
      var w := WantAll(q, front);
      assert active == front + [last];
      if d in w.desired {
        WantedIsJustified(q, front, d);
      } else if d in WantIndex(q, w, last).desired {
        assert last in active;
      } else {
        OptionsJustified(q, WantIndex(q, w, last), OptionRows(q, last), Atm(q, last), GridStep(q, last), d);
        var row :| row in OptionRows(q, last) && row.symbol == d.symbol
                   && InWindow(q, row, Atm(q, last), GridStep(q, last))
                   && Distance(row.strike.value, Atm(q, last), GridStep(q, last)) == d.distance;
        assert JustifiedBy(q, last, row, d);
      }
    }
  }

  // The cap.

  lemma RankOrder()
    ensures TotalPreorder(DesiredLeq)
  {
    hide TextLeq;
    TextOrder();
  }

  /** What the cap of a sorted list of different symbols gives. */
  ghost predicate Capped(desired: seq<Desired>, kept: seq<Desired>, maxSymbols: int) {
    && (forall i, j :: 0 <= i < j < |kept| ==> kept[i].symbol != kept[j].symbol)
    && (forall d <- kept :: d in desired)
    && (forall d <- desired :: IsIndex(d) ==> d in kept)
    && (forall d <- desired, k <- kept :: d !in kept && !IsIndex(k) ==> DesiredLeq(k, d))
    && |kept| == (if |desired| <= maxSymbols then |desired|
                  else if |Filter(desired, IsIndex)| <= maxSymbols then maxSymbols else |Filter(desired, IsIndex)|)
  }

  lemma RankFirst(a: Desired, b: Desired)
    requires DesiredLeq(a, b)
    ensures a.rank <= b.rank
  {
  }

  lemma SortedRanks(desired: seq<Desired>)
    requires Sorted(desired, DesiredLeq) && desired != [] && desired[0].rank == 1
    ensures forall d <- desired :: !IsIndex(d)
  {
    hide DesiredLeq;
    forall d <- desired
      ensures !IsIndex(d)
    {
      var i :| 0 <= i < |desired| && desired[i] == d;
      if i > 0 {
        RankFirst(desired[0], desired[i]);
      }
    }
  }

  lemma IndexHead(desired: seq<Desired>)
    requires desired != [] && desired[0].rank == 0
    ensures Filter(desired, IsIndex) == [desired[0]] + Filter(desired[1..], IsIndex)
    ensures Filter(desired, IsRankOne) == Filter(desired[1..], IsRankOne)
  {
  }

  /** Sorting puts the indexes in front. */
  lemma {:induction false} IndexesFirst(desired: seq<Desired>)
    requires Sorted(desired, DesiredLeq) && forall d <- desired :: d.rank <= 1
    ensures desired == Filter(desired, IsIndex) + Filter(desired, IsRankOne)
    decreases |desired|
  {
    hide DesiredLeq, Filter;
    if desired == [] {
      FilterNone(desired, IsIndex);
      FilterNone(desired, IsRankOne);
    } else {
      if desired[0].rank == 1 {
        SortedRanks(desired);
        FilterNone(desired, IsIndex);
        FilterAll(desired, IsRankOne);
      } else {
        IndexesFirst(desired[1..]);
        IndexHead(desired);
      }
    }
  }

  lemma CapMeaning(desired: seq<Desired>, maxSymbols: int)
    requires Sorted(desired, DesiredLeq) && maxSymbols >= 1
    requires forall d <- desired :: d.rank <= 1
    requires forall i, j :: 0 <= i < j < |desired| ==> desired[i].symbol != desired[j].symbol
    ensures Cap(desired, maxSymbols) <= desired && Capped(desired, Cap(desired, maxSymbols), maxSymbols)
  {
    hide Filter, DesiredLeq;
    var index, options := Filter(desired, IsIndex), Filter(desired, IsRankOne);
    var kept := Cap(desired, maxSymbols);
    IndexesFirst(desired);
    var n := |kept|;
    assert kept == desired[..n];
    PrefixIsCapped(desired, n);
    forall d <- desired | IsIndex(d)
      ensures d in kept
    {
      var i :| 0 <= i < |index| && index[i] == d;
      assert n >= |index| && kept[i] == d;
    }
  }

  lemma PrefixIsCapped(desired: seq<Desired>, n: nat)
    requires Sorted(desired, DesiredLeq) && n <= |desired|
    ensures forall d <- desired[..n] :: d in desired
    ensures forall d <- desired, k <- desired[..n] :: d !in desired[..n] ==> DesiredLeq(k, d)
  {
    hide DesiredLeq;
    forall d <- desired, k <- desired[..n] | d !in desired[..n]
      ensures DesiredLeq(k, d)
    {
      var i :| 0 <= i < |desired| && desired[i] == d;
      var j :| 0 <= j < n && desired[j] == k;
      assert forall x :: 0 <= x < n ==> desired[..n][x] == desired[x];
    }
  }

  /** Everything that is wanted, in planning order. */
  function Ranked(q: Request): seq<Desired> { SortBy(WantAll(q, q.active).desired, DesiredLeq) }

  lemma RankedOk(q: Request)
    ensures Sorted(Ranked(q), DesiredLeq)
    ensures forall i, j :: 0 <= i < j < |Ranked(q)| ==> Ranked(q)[i].symbol != Ranked(q)[j].symbol
    ensures forall d <- Ranked(q) :: d.rank <= 1
    ensures forall d :: d in Ranked(q) <==> d in WantAll(q, q.active).desired
  {
    hide SortBy, DesiredLeq, WantAll, TotalPreorder;
    var desired := WantAll(q, q.active).desired;
    RankOrder();
    WantAllOk(q, q.active);
    SortBySorted(desired, DesiredLeq);
    PermutationMembers(Ranked(q), desired);
    MapPermutation((d: Desired) => d.symbol, desired, Ranked(q));
    NoRepeats(Symbols(desired), Symbols(Ranked(q)));
    forall i, j | 0 <= i < j < |Ranked(q)|
      ensures Ranked(q)[i].symbol != Ranked(q)[j].symbol
    {
      assert Symbols(Ranked(q))[i] != Symbols(Ranked(q))[j];
    }
  }

  /** Main result. A plan has no duplicates, at most `maxSymbols` symbols, and no fewer than it could have; every
      index that is wanted is in it; a wanted symbol is left out only if it ranks after every option that is kept, by
      distance and then name. Planning fails exactly when not even the indexes fit. */
  lemma PlanMeaning(q: Request)
    ensures Plan(q).Err? <==> q.maxSymbols < 1 || |Filter(Ranked(q), IsIndex)| > q.maxSymbols
    ensures Plan(q).Ok? ==>
              && Plan(q).value == Symbols(Kept(q))
              && |Plan(q).value| == (if |Ranked(q)| <= q.maxSymbols then |Ranked(q)| else q.maxSymbols)
              && (forall i, j :: 0 <= i < j < |Plan(q).value| ==> Plan(q).value[i] != Plan(q).value[j])
              && (forall d <- Kept(q) :: d in Ranked(q))
              && (forall d <- Ranked(q) :: IsIndex(d) ==> d in Kept(q))
              && (forall d <- Ranked(q), k <- Kept(q) :: d !in Kept(q) && !IsIndex(k) ==> DesiredLeq(k, d))
  {
    hide SortBy, DesiredLeq, WantAll, Cap, Filter;
    if q.maxSymbols >= 1 {
      RankedOk(q);
      CapMeaning(Ranked(q), q.maxSymbols);
      FewerIndexes(Ranked(q));
    }
  }

  lemma FewerIndexes(desired: seq<Desired>)
    requires Sorted(desired, DesiredLeq) && forall d <- desired :: d.rank <= 1
    ensures |Filter(desired, IsIndex)| <= |desired|
  {
    hide Filter, DesiredLeq;
    IndexesFirst(desired);
  }

  /** What may be in a plan at all: exactly the first index row of each active underlying and the options of its
      selected expiry within the window, under whichever of these reasons claimed the symbol first. */
  lemma RankedMeaning(q: Request)
    ensures forall d <- Ranked(q) :: Justified(q, q.active, d)
    ensures forall u <- q.active ::
              && (IndexRows(q, u) != [] ==> exists d <- Ranked(q) :: d.symbol == IndexRows(q, u)[0].symbol)
              && (HasOptions(q, u) ==> forall row <- OptionRows(q, u) ::
                    InWindow(q, row, Atm(q, u), GridStep(q, u)) ==> exists d <- Ranked(q) :: d.symbol == row.symbol)
  {
    hide WantAll, IndexRows, OptionRows, InWindow, Atm, GridStep, Justified, SortBy, Ranked;
    RankedOk(q);
    WantAllOk(q, q.active);
    forall d <- Ranked(q)
      ensures Justified(q, q.active, d)
    {
      WantedIsJustified(q, q.active, d);
    }
    forall u <- q.active
      ensures IndexRows(q, u) != [] ==> exists d <- Ranked(q) :: d.symbol == IndexRows(q, u)[0].symbol
      ensures HasOptions(q, u) ==> forall row <- OptionRows(q, u) ::
                InWindow(q, row, Atm(q, u), GridStep(q, u)) ==> exists d <- Ranked(q) :: d.symbol == row.symbol
    {
      var i :| 0 <= i < |q.active| && q.active[i] == u;
      EverythingIsWanted(q, q.active, i);
    }
  }

  // The plan in the fields of the catalogue.

  /** The grid strike is a multiple of the step within half a step of spot; between two as near, the even multiple. */
  lemma AtmMeaning(spot: int, step: int) returns (q: int)
    requires step > 0
    ensures AtmStrike(spot, step) == step * q && -step <= 2 * (spot - step * q) <= step
    ensures 2 * (spot - step * q) == step || 2 * (spot - step * q) == -step ==> q % 2 == 0
  {
    var low, r := spot / step, spot % step;
    assert spot == step * low + r;
    assert step * (low + 1) == step * low + step;
    q := if 2 * r < step || (2 * r == step && low % 2 == 0) then low else low + 1;
  }

  /** The step is the upper median of the gaps: at most half of them are smaller and more than half are not larger. */
  lemma StepIsMedian(strikes: seq<int>)
    ensures var unique := SortedStrikes(strikes);
            if |unique| < 2 then StepOf(strikes) == 500000
            else
              var gaps, step := Gaps(unique), StepOf(strikes);
              && |Filter(gaps, (gap: int) => gap < step)| <= |gaps| / 2
              && |Filter(gaps, (gap: int) => gap <= step)| > |gaps| / 2
  {
    hide SortBy, SortedStrikes, Filter;
    var unique := SortedStrikes(strikes);
    if |unique| >= 2 {
      var gaps, sorted := Gaps(unique), SortBy(Gaps(unique), IntLeq);
      var k, step := |gaps| / 2, StepOf(strikes);
      PermutationMembers(sorted, gaps);
      OrderOfInts();
      SortBySorted(gaps, IntLeq);
      assert sorted[k] == step && sorted == sorted[..k] + sorted[k..] && sorted == sorted[..k + 1] + sorted[k + 1..];
      assert forall i :: 0 <= i < |sorted| ==> if i <= k then IntLeq(sorted[i], step) else IntLeq(step, sorted[i]);
      CountBelow(sorted, gaps, k, step);
      CountUpTo(sorted, gaps, k, step);
    }
  }

  lemma CountBelow(sorted: seq<int>, gaps: seq<int>, k: nat, step: int)
    requires k <= |sorted| && multiset(sorted) == multiset(gaps) && forall i :: k <= i < |sorted| ==> step <= sorted[i]
    ensures |Filter(gaps, (gap: int) => gap < step)| <= k
  {
    hide Filter;
    var below := (gap: int) => gap < step;
    assert sorted == sorted[..k] + sorted[k..];
    FilterConcat(sorted[..k], sorted[k..], below);
    FilterNone(sorted[k..], below);
    NoMore(sorted[..k], below);
    FilterPermutation(sorted, gaps, below);
    SameCount(Filter(sorted, below), Filter(gaps, below));
  }

  lemma CountUpTo(sorted: seq<int>, gaps: seq<int>, k: nat, step: int)
    requires k < |sorted| && multiset(sorted) == multiset(gaps) && forall i :: 0 <= i <= k ==> sorted[i] <= step
    ensures |Filter(gaps, (gap: int) => gap <= step)| > k
  {
    hide Filter;
    var upTo := (gap: int) => gap <= step;
    assert sorted == sorted[..k + 1] + sorted[k + 1..];
    FilterConcat(sorted[..k + 1], sorted[k + 1..], upTo);
    FilterAll(sorted[..k + 1], upTo);
    FilterPermutation(sorted, gaps, upTo);
    SameCount(Filter(sorted, upTo), Filter(gaps, upTo));
  }

  lemma {:induction false} NoMore<T>(xs: seq<T>, keep: T -> bool)
    ensures |Filter(xs, keep)| <= |xs|
  {
    if xs != [] {
      NoMore(xs[1..], keep);
    }
  }

  predicate IndexRow(row: Row, u: string) { row.canonical == u && row.kind == None }

  /** The first index row of the underlying has this symbol. */
  ghost predicate IndexOf(q: Request, u: string, symbol: string) {
    exists i :: 0 <= i < |q.catalog| && IndexRow(q.catalog[i], u) && q.catalog[i].symbol == symbol
             && forall j :: 0 <= j < i ==> !IndexRow(q.catalog[j], u)
  }

  /** A call or put of the underlying, of its selected expiry and with its spot known. */
  predicate OptionOf(q: Request, u: string, row: Row) {
    && row in q.catalog && row.canonical == u && (row.kind == Some("CE") || row.kind == Some("PE"))
    && u in q.expiries && u in q.spots && row.expiry == Some(q.expiries[u])
  }

  /** How far its strike is from the grid strike, in steps. */
  ghost predicate IsApart(q: Request, u: string, row: Row, distance: real)
    requires u in q.spots
  {
    && row.strike.Some?
    && var off := row.strike.value - Atm(q, u);
       distance * GridStep(q, u) as real == (if off >= 0 then off else -off) as real
  }

  /** Why a symbol is wanted. */
  ghost predicate WantedFor(q: Request, d: Desired) {
    || (d.rank == 0 && exists u <- q.active :: IndexOf(q, u, d.symbol))
    || (d.rank == 1 && exists u <- q.active, row: Row :: WantedBy(q, u, row, d))
  }

  ghost predicate WantedBy(q: Request, u: string, row: Row, d: Desired) {
    OptionOf(q, u, row) && row.symbol == d.symbol && IsApart(q, u, row, d.distance) && d.distance <= q.window
  }

  lemma DistanceMeaning(q: Request, u: string, row: Row, distance: real)
    requires u in q.spots && row.strike.Some?
    ensures Distance(row.strike.value, Atm(q, u), GridStep(q, u)) == distance <==> IsApart(q, u, row, distance)
  {
    hide GridStep, Atm;
    var off, step := row.strike.value - Atm(q, u), GridStep(q, u) as real;
    var apart := (if off >= 0 then off else -off) as real;
    assert Distance(row.strike.value, Atm(q, u), GridStep(q, u)) == apart / step;
    assert apart / step * step == apart;
    if distance * step == apart {
      assert distance == apart / step;
    }
  }

  lemma {:induction false} FilterHead<T>(xs: seq<T>, keep: T -> bool) returns (i: nat)
    ensures i <= |xs| && forall j :: 0 <= j < i ==> !keep(xs[j])
    ensures if i < |xs| then keep(xs[i]) && Filter(xs, keep) != [] && Filter(xs, keep)[0] == xs[i]
            else Filter(xs, keep) == []
  {
    i := 0;
    if xs != [] && !keep(xs[0]) {
      var later := FilterHead(xs[1..], keep);
      i := later + 1;
    }
  }

  lemma IndexMeaning(q: Request, u: string, symbol: string)
    ensures IndexRows(q, u) != [] && IndexRows(q, u)[0].symbol == symbol <==> IndexOf(q, u, symbol)
  {
    hide Filter;
    var i := FilterHead(q.catalog, (row: Row) => row.canonical == u && row.kind.None?);
    if i < |q.catalog| {
      assert IndexRow(q.catalog[i], u);
    }
  }

  lemma OptionMeaning(q: Request, u: string, row: Row)
    ensures HasOptions(q, u) && row in OptionRows(q, u) <==> OptionOf(q, u, row)
  {
    hide Filter;
  }

  /** What is wanted, in fields: the first index row of each active underlying, and the options of its selected expiry
      that are within the window of the grid strike; whatever is wanted is wanted for one of these. */
  lemma RankedInFields(q: Request)
    ensures forall d <- Ranked(q) :: WantedFor(q, d)
    ensures forall u <- q.active, symbol :: IndexOf(q, u, symbol) ==> exists d <- Ranked(q) :: d.symbol == symbol
    ensures forall u <- q.active, row: Row, d: Desired ::
              WantedBy(q, u, row, d) ==> exists x <- Ranked(q) :: x.symbol == row.symbol
  {
    hide Ranked, IndexRows, OptionRows, HasOptions, OptionOf, IndexOf, IsApart, Distance, GridStep, Atm;
    RankedMeaning(q);
    forall d <- Ranked(q)
      ensures WantedFor(q, d)
    {
      JustifiedMeaning(q, d);
    }
    forall u <- q.active, symbol | IndexOf(q, u, symbol)
      ensures exists d <- Ranked(q) :: d.symbol == symbol
    {
      IndexMeaning(q, u, symbol);
    }
    forall u <- q.active, row: Row, d: Desired | WantedBy(q, u, row, d)
      ensures exists x <- Ranked(q) :: x.symbol == row.symbol
    {
      OptionMeaning(q, u, row);
      SpotKnown(q, u, row);
      HasStrike(q, u, row, d.distance);
      DistanceMeaning(q, u, row, d.distance);
      assert InWindow(q, row, Atm(q, u), GridStep(q, u));
    }
  }

  lemma SpotKnown(q: Request, u: string, row: Row)
    requires OptionOf(q, u, row)
    ensures u in q.spots
  {
  }

  lemma HasStrike(q: Request, u: string, row: Row, distance: real)
    requires u in q.spots && IsApart(q, u, row, distance)
    ensures row.strike.Some?
  {
  }

  lemma JustifiedMeaning(q: Request, d: Desired)
    requires Justified(q, q.active, d)
    ensures WantedFor(q, d)
  {
    hide IndexRows, OptionRows, HasOptions, OptionOf, IndexOf, IsApart, Distance, GridStep, Atm;
    if d.rank == 0 {
      var u :| u in q.active && IndexRows(q, u) != [] && IndexRows(q, u)[0].symbol == d.symbol;
      IndexMeaning(q, u, d.symbol);
    } else {
      var u: string, row: Row :| u in q.active && JustifiedBy(q, u, row, d);
      OptionMeaning(q, u, row);
      SpotKnown(q, u, row);
      DistanceMeaning(q, u, row, d.distance);
      assert WantedBy(q, u, row, d);
    }
  }

  /** The planning order: indexes, then options by distance, then by symbol. */
  lemma PlanningOrder(a: Desired, b: Desired)
    requires a.rank <= 1 && b.rank <= 1
    ensures DesiredLeq(a, b) <==>
              || (a.rank == 0 && b.rank == 1)
              || (a.rank == b.rank && a.distance < b.distance)
              || (a.rank == b.rank && a.distance == b.distance && TextLeq(a.symbol, b.symbol))
  {
    hide TextLeq;
  }

  // Moving from one set of subscriptions to the next.

  function ToAdd(previous: seq<string>, plan: seq<string>): seq<string> {
    Filter(plan, (s: string) => s !in previous)
  }

  function ToDrop(previous: seq<string>, plan: seq<string>): seq<string> {
    Filter(previous, (s: string) => s !in plan)
  }

  /** Dropping and adding turns any previous set into exactly the plan, without dropping or adding anything in vain. */
  lemma ResubscribeReachesPlan(previous: seq<string>, plan: seq<string>)
    ensures var add, drop := ToAdd(previous, plan), ToDrop(previous, plan);
            && (set s <- previous | s !in drop) + (set s <- add) == (set s <- plan)
            && (forall s <- add :: s !in previous) && (forall s <- drop :: s in previous && s !in plan)
  {
    hide Filter;
  }
}
