/** Walk-forward windows over a list of sessions. */
module WalkForward {
  import opened Basics
  import opened HistoryRows
  import opened BacktestLedger
  import opened BacktestPipeline
  import opened BacktestRunner

  /** Half-open index ranges of one window. */
  datatype Window = Window(trainStart: int, trainEnd: int, validateStart: int, validateEnd: int, testStart: int,
                           testEnd: int)

  /** The settings of the splitter, which the configuration does not check. */
  datatype Plan = Plan(train: int, validate: int, test: int, step: int, embargo: int)
  {
    predicate NonNegative() { train >= 0 && validate >= 0 && test >= 0 && step >= 0 && embargo >= 0 }

    predicate Valid() { train >= 1 && validate >= 1 && test >= 1 && step >= 1 && embargo >= 0 }

    function Block(): int { train + embargo + validate + embargo + test }
  }

  function WindowAt(p: Plan, i: int): Window {
    var v0 := i + p.train + p.embargo;
    var s0 := v0 + p.validate + p.embargo;
    Window(i, i + p.train, v0, v0 + p.validate, s0, s0 + p.test)
  }

  /** The first and last session of each part, as the window is reported. */
  datatype Dates = Dates(train: (Day, Day), validate: (Day, Day), test: (Day, Day))

  /** Indexing a tuple of the source: a negative index counts from the end. */
  function At(sessions: seq<Day>, k: int): Option<Day> {
    if 0 <= k < |sessions| then Some(sessions[k])
    else if -|sessions| <= k < 0 then Some(sessions[|sessions| + k])
    else None
  }

  /** The dates of the window at `i`; none when an index is out of range. */
  function Look(sessions: seq<Day>, p: Plan, i: int): Option<Dates> {
    var w := WindowAt(p, i);
    var t0, t1 := At(sessions, w.trainStart), At(sessions, w.trainEnd - 1);
    var v0, v1 := At(sessions, w.validateStart), At(sessions, w.validateEnd - 1);
    var s0, s1 := At(sessions, w.testStart), At(sessions, w.testEnd - 1);
    if t0.Some? && t1.Some? && v0.Some? && v1.Some? && s0.Some? && s1.Some? then
      Some(Dates((t0.value, t1.value), (v0.value, v1.value), (s0.value, s1.value)))
    else None
  }

  /** With no part empty and no setting negative, exactly the windows that fit can be looked up, and their dates are
      those of their own sessions. */
  lemma ValidPlansLookUp(sessions: seq<Day>, p: Plan, i: nat)
    requires p.Valid()
    ensures Look(sessions, p, i).Some? <==> i + p.Block() <= |sessions|
    ensures i + p.Block() <= |sessions| ==>
              var w := WindowAt(p, i);
              Look(sessions, p, i) == Some(Dates((sessions[w.trainStart], sessions[w.trainEnd - 1]),
                                                 (sessions[w.validateStart], sessions[w.validateEnd - 1]),
                                                 (sessions[w.testStart], sessions[w.testEnd - 1])))
  {
  }

  /** Without negative settings, a window that fits has an index out of range exactly when its test part is empty and it
      ends with the sessions. */
  lemma LookFailsExactlyWhen(sessions: seq<Day>, p: Plan, i: nat)
    requires p.NonNegative() && i + p.Block() <= |sessions|
    ensures Look(sessions, p, i).None? <==> p.test == 0 && i + p.Block() == |sessions|
  {
  }

  /** Where window `k` starts. */
  function Start(p: Plan, k: nat): int { k * p.step }

  lemma NextStart(p: Plan, k: nat)
    ensures Start(p, k + 1) == Start(p, k) + p.step && Start(p, 0) == 0
  {
  }

  lemma {:induction false} StartsApart(p: Plan, k: nat, l: nat)
    requires k < l && p.step >= 0
    ensures Start(p, l) >= Start(p, k) + p.step
    decreases l
  {
    hide Start;
    NextStart(p, l - 1);
    if k < l - 1 {
      StartsApart(p, k, l - 1);
    }
  }

  /** Window `k` is at least `k` sessions away from the first. */
  lemma {:induction false} StartsMove(p: Plan, k: nat)
    ensures p.step >= 1 ==> Start(p, k) >= k
    ensures p.step <= -1 ==> Start(p, k) + k <= 0
    decreases k
  {
    hide Start;
    if k > 0 {
      NextStart(p, k - 1);
      StartsMove(p, k - 1);
    } else {
      NextStart(p, 0);
    }
  }

  // When the splitting loop ends.

  predicate Fits(sessions: seq<Day>, p: Plan, k: nat) { Start(p, k) + p.Block() <= |sessions| }

  /** Iteration `k` is the last one: its window does not fit, or looking it up raises. */
  predicate EndsAt(sessions: seq<Day>, p: Plan, k: nat) {
    !Fits(sessions, p, k) || Look(sessions, p, Start(p, k)).None?
  }

  /** The loop moves on, never starts, or raises at once. */
  predicate Ends(sessions: seq<Day>, p: Plan) {
    p.step != 0 || |sessions| < p.Block() || Look(sessions, p, 0).None?
  }

  /** The loop of the source ends exactly under the condition `SplitWindows` asks for: with a step of zero and a first
      window that fits and can be looked up it would report that window for ever. A negative step ends in an index out
      of range. */
  lemma EndsExactlyWhen(sessions: seq<Day>, p: Plan)
    ensures (exists k: nat :: EndsAt(sessions, p, k)) <==> Ends(sessions, p)
  {
    var far := |sessions| + (if p.Block() < 0 then -p.Block() else 0) + 1;
    StartsMove(p, far);
    if p.step != 0 {
      assert EndsAt(sessions, p, far);
    } else {
      assert forall k: nat :: Start(p, k) == 0;
      assert EndsAt(sessions, p, 0) <==> Ends(sessions, p);
    }
  }

  /** How many windows fit. */
  function Count(p: Plan, n: nat): nat
    requires p.step >= 1
  {
    if n < p.Block() then 0 else (n - p.Block()) / p.step + 1
  }

  datatype Error = IndexOutOfRange | TestWindowTuning

  /** The first window that cannot be looked up, with every window up to it fitting. */
  predicate RaisesAt(sessions: seq<Day>, p: Plan, k: nat) {
    && Look(sessions, p, Start(p, k)).None?
    && (forall j: nat :: j <= k ==> Fits(sessions, p, j))
    && (forall j: nat :: j < k ==> Look(sessions, p, Start(p, j)).Some?)
  }

  /** The windows of the plan, up to the first that does not fit. */
  predicate AreWindows(sessions: seq<Day>, p: Plan, windows: seq<Dates>) {
    && !Fits(sessions, p, |windows|)
    && forall k :: 0 <= k < |windows| ==>
         Fits(sessions, p, k) && Look(sessions, p, Start(p, k)) == Some(windows[k])
  }

  /** The splitting loop, whenever it ends: it raises exactly when a window that fits cannot be looked up before one
      does not fit; else it produces exactly the windows that fit, as many as the formula says. */
  method SplitWindows(sessions: seq<Day>, p: Plan) returns (result: Result<seq<Dates>, Error>)
    requires Ends(sessions, p)
    ensures result.Err? <==> exists k: nat :: RaisesAt(sessions, p, k)
    ensures result.Err? ==> result == Err(IndexOutOfRange)
    ensures result.Ok? ==>
              AreWindows(sessions, p, result.value) && (p.step >= 1 ==> |result.value| == Count(p, |sessions|))
    ensures p.Valid() ==> result.Ok?
  {
    hide Start, Count, Look;
    var windows: seq<Dates> := [];
    var i, block := 0, p.Block();
    NextStart(p, 0);
    while i + block <= |sessions|
      invariant i == Start(p, |windows|) && (p.step == 0 ==> i == 0) && (p.step >= 0 ==> i >= 0)
      invariant forall k :: 0 <= k < |windows| ==>
                  Fits(sessions, p, k) && Look(sessions, p, Start(p, k)) == Some(windows[k])
      decreases if p.step >= 0 then |sessions| - block - i else i + |sessions|
    {
      var dates := Look(sessions, p, i);
      if dates.None? {
        assert RaisesAt(sessions, p, |windows|);
        if p.Valid() {
          ValidPlansLookUp(sessions, p, i);
        }
        return Err(IndexOutOfRange);
      }
      LooksInRange(sessions, p, i);
      NextStart(p, |windows|);
      windows := windows + [dates.value];
      i := i + p.step;
    }
    if p.step >= 1 {
      CountIs(p, |sessions|, |windows|);
    }
    WindowsDoNotRaise(sessions, p, windows);
    return Ok(windows);
  }

  lemma WindowsDoNotRaise(sessions: seq<Day>, p: Plan, windows: seq<Dates>)
    requires AreWindows(sessions, p, windows)
    ensures forall k: nat :: !RaisesAt(sessions, p, k)
  {
    hide Look, Start;
    forall k: nat
      ensures !RaisesAt(sessions, p, k)
    {
      if k < |windows| {
        assert Look(sessions, p, Start(p, k)).Some?;
      } else {
        assert !Fits(sessions, p, |windows|);
      }
    }
  }

  lemma LooksInRange(sessions: seq<Day>, p: Plan, i: int)
    requires Look(sessions, p, i).Some?
    ensures i >= -|sessions|
  {
  }

  /** The loop stops at the number of windows the formula gives. */
  lemma CountIs(p: Plan, n: nat, count: nat)
    requires p.step >= 1
    requires Start(p, count) + p.Block() > n
    requires count > 0 ==> Start(p, count - 1) + p.Block() <= n
    ensures Count(p, n) == count
  {
    if count > 0 {
      NextStart(p, count - 1);
      StartsMove(p, count - 1);
      var room := n - p.Block();
      var q, r := room / p.step, room % p.step;
      assert room == q * p.step + r;
      assert (count - 1 - q) * p.step == (count - 1) * p.step - q * p.step;
      NoOtherMultiple(count - 1 - q, p.step, r);
    }
  }

  lemma NoOtherMultiple(d: int, step: int, r: int)
    requires step >= 1 && 0 <= r < step && -step < d * step - r <= 0
    ensures d == 0
  {
    assert d >= 1 ==> d * step >= step;
    assert d <= -1 ==> d * step <= -step;
  }

  // The reported dates against the sessions.

  ghost predicate Ascending(sessions: seq<Day>) {
    forall i, j :: 0 <= i < j < |sessions| ==> sessions[i] < sessions[j]
  }

  /** A slice holds the elements at its own positions. */
  lemma InSlice(sessions: seq<Day>, i: nat, j: nat, day: Day) returns (k: nat)
    requires i <= j <= |sessions| && day in sessions[i..j]
    ensures i <= k < j && sessions[k] == day
  {
    var n :| 0 <= n < j - i && sessions[i..j][n] == day;
    k := i + n;
  }

  lemma ThreeParts(sessions: seq<Day>, i: nat, j: nat)
    requires i <= j <= |sessions|
    ensures sessions == sessions[0..i] + sessions[i..j] + sessions[j..|sessions|]
  {
  }

  /** A condition that holds of a slice and of nothing around it picks out the slice. */
  lemma SliceIsFiltered(sessions: seq<Day>, i: nat, j: nat, keep: Day -> bool)
    requires i <= j <= |sessions|
    requires forall k :: 0 <= k < |sessions| ==> (keep(sessions[k]) <==> i <= k < j)
    ensures Filter(sessions, keep) == sessions[i..j]
  {
    hide Filter;
    forall x <- sessions[0..i] ensures !keep(x) { var k := InSlice(sessions, 0, i, x); }
    forall x <- sessions[i..j] ensures keep(x) { var k := InSlice(sessions, i, j, x); }
    forall x <- sessions[j..|sessions|] ensures !keep(x) { var k := InSlice(sessions, j, |sessions|, x); }
    FilterMiddle(sessions[0..i], sessions[i..j], sessions[j..|sessions|], keep);
    ThreeParts(sessions, i, j);
  }

  /** The calendar between two days, both included. */
  function SessionsWithin(sessions: seq<Day>, first: Day, last: Day): seq<Day> {
    Filter(sessions, (day: Day) => first <= day <= last)
  }

  /** The sessions strictly between two days. */
  function SessionsBetween(sessions: seq<Day>, first: Day, last: Day): seq<Day> {
    Filter(sessions, (day: Day) => first < day < last)
  }

  /** The calendar between two sessions is the slice from the one to the other. */
  lemma CalendarOfSlice(sessions: seq<Day>, i: nat, j: nat)
    requires Ascending(sessions) && i < j <= |sessions|
    ensures SessionsWithin(sessions, sessions[i], sessions[j - 1]) == sessions[i..j]
  {
    SliceIsFiltered(sessions, i, j, (day: Day) => sessions[i] <= day <= sessions[j - 1]);
  }

  lemma GapOfSlice(sessions: seq<Day>, i: nat, j: nat)
    requires Ascending(sessions) && 1 <= i <= j < |sessions|
    ensures SessionsBetween(sessions, sessions[i - 1], sessions[j]) == sessions[i..j]
  {
    SliceIsFiltered(sessions, i, j, (day: Day) => sessions[i - 1] < day < sessions[j]);
  }

  /** What the reported dates promise: train, validate and test follow each other in time, exactly `embargo` sessions
      lie strictly between the last day of one part and the first day of the next, and each part spans exactly its own
      number of sessions. */
  lemma EmbargoIsKept(sessions: seq<Day>, p: Plan, k: nat, d: Dates)
    requires p.Valid() && Ascending(sessions) && Look(sessions, p, Start(p, k)) == Some(d)
    ensures d.train.0 <= d.train.1 < d.validate.0 <= d.validate.1 < d.test.0 <= d.test.1
    ensures |SessionsBetween(sessions, d.train.1, d.validate.0)| == p.embargo
    ensures |SessionsBetween(sessions, d.validate.1, d.test.0)| == p.embargo
    ensures |SessionsWithin(sessions, d.train.0, d.train.1)| == p.train
    ensures |SessionsWithin(sessions, d.validate.0, d.validate.1)| == p.validate
    ensures |SessionsWithin(sessions, d.test.0, d.test.1)| == p.test
  {
    hide SessionsWithin, SessionsBetween, Start, Look;
    StartsMove(p, k);
    ValidPlansLookUp(sessions, p, Start(p, k));
    var w := WindowAt(p, Start(p, k));
    CalendarOfSlice(sessions, w.trainStart, w.trainEnd);
    CalendarOfSlice(sessions, w.validateStart, w.validateEnd);
    CalendarOfSlice(sessions, w.testStart, w.testEnd);
    GapOfSlice(sessions, w.trainEnd, w.validateStart);
    GapOfSlice(sessions, w.validateEnd, w.testStart);
  }

  predicate InTest(p: Plan, k: nat, session: int) {
    var w := WindowAt(p, Start(p, k));
    w.testStart <= session < w.testEnd
  }

  /** No session is in two test parts exactly when the step covers a test, or there are no two windows. */
  lemma TestsAreDisjoint(p: Plan, n: nat)
    requires p.Valid()
    ensures (forall k: nat, l: nat, session: int ::
               k < l < Count(p, n) && InTest(p, k, session) ==> !InTest(p, l, session))
       <==> (p.step >= p.test || Count(p, n) < 2)
  {
    hide Start, Count;
    if p.step >= p.test {
      forall k: nat, l: nat, session: int | k < l < Count(p, n) && InTest(p, k, session)
        ensures !InTest(p, l, session)
      {
        StartsApart(p, k, l);
      }
    } else if Count(p, n) >= 2 {
      NextStart(p, 0);
      var session := WindowAt(p, Start(p, 1)).testStart;
      assert InTest(p, 0, session) && InTest(p, 1, session);
    }
  }

  // The walk-forward run.

  function TestSessions(sessions: seq<Day>, p: Plan, k: nat): seq<Day>
    requires p.Valid() && Fits(sessions, p, k)
  {
    StartsMove(p, k);
    var w := WindowAt(p, Start(p, k));
    sessions[w.testStart..w.testEnd]
  }

  /** The net result of a fresh run of one variant over some sessions. */
  ghost function NetOf(e: Engines, variant: Ablation, cash: int, days: seq<Day>, names: seq<string>): int {
    Sum(Nets(Played(e.(ablation := variant), Opened(cash), Points(days, names)).trades))
  }

  /** The net result of one window: a run of the full variant between its reported test dates. */
  ghost function NetOfTest(e: Engines, cash: int, sessions: seq<Day>, window: Dates, names: seq<string>): int {
    NetOf(e, Full, cash, SessionsWithin(sessions, window.test.0, window.test.1), names)
  }

  method NetOfRun(e: Engines, variant: Ablation, cash: int, days: seq<Day>, names: seq<string>) returns (net: int)
    ensures net == NetOf(e, variant, cash, days, names)
  {
    hide Played, Points, Sum;
    var ledger, report := Run(e.(ablation := variant), cash, days, names);
    net := report.metrics.net;
  }

  /** `ablations` compares the variants over the whole span of the tests. */
  datatype WalkForwardResult = WalkForwardResult(windows: seq<Dates>, nets: seq<int>, combined: int,
                                                 ablations: Option<(int, int, int)>)

  /** From the first day of the first test to the last day of the last one. */
  function TestSpan(sessions: seq<Day>, windows: seq<Dates>): seq<Day>
    requires windows != []
  {
    SessionsWithin(sessions, windows[0].test.0, windows[|windows| - 1].test.1)
  }

  /** Tuning on the test windows is refused before anything is run; otherwise each window is a fresh run over the
      calendar between its reported test dates. */
  method RunTests(e: Engines, cash: int, sessions: seq<Day>, p: Plan, names: seq<string>, tuneOnTest: bool)
    returns (result: Result<WalkForwardResult, Error>)
    requires Ends(sessions, p)
    ensures tuneOnTest ==> result == Err(TestWindowTuning)
    ensures !tuneOnTest && result.Err? ==> result == Err(IndexOutOfRange) && exists k: nat :: RaisesAt(sessions, p, k)
    ensures !tuneOnTest && p.Valid() ==> result.Ok?
    ensures result.Ok? ==>
              var r := result.value;
              && AreWindows(sessions, p, r.windows) && (p.step >= 1 ==> |r.windows| == Count(p, |sessions|))
              && |r.nets| == |r.windows|
              && (forall k :: 0 <= k < |r.nets| ==> r.nets[k] == NetOfTest(e, cash, sessions, r.windows[k], names))
              && r.combined == Sum(r.nets)
              && (r.windows == [] ==> r.ablations == None)
              && (r.windows != [] ==>
                    var span := TestSpan(sessions, r.windows);
                    r.ablations == Some((NetOf(e, AlwaysNoTrade, cash, span, names),
                                         NetOf(e, SkipCeo, cash, span, names), NetOf(e, Full, cash, span, names))))
  {
    hide Count, Sum, NetOf, Start, Look, SessionsWithin;
    if tuneOnTest {
      return Err(TestWindowTuning);
    }
    var split := SplitWindows(sessions, p);
    if split.Err? {
      return Err(split.error);
    }
    var windows := split.value;
    var nets: seq<int> := [];
    for k := 0 to |windows|
      invariant |nets| == k
      invariant forall j :: 0 <= j < k ==> nets[j] == NetOfTest(e, cash, sessions, windows[j], names)
    {
      var (first, last) := windows[k].test;
      var net := NetOfRun(e, Full, cash, SessionsWithin(sessions, first, last), names);
      nets := nets + [net];
    }
    if windows == [] {
      return Ok(WalkForwardResult(windows, nets, Sum(nets), None));
    }
    var span := TestSpan(sessions, windows);
    var none := NetOfRun(e, AlwaysNoTrade, cash, span, names);
    var skip := NetOfRun(e, SkipCeo, cash, span, names);
    var full := NetOfRun(e, Full, cash, span, names);
    return Ok(WalkForwardResult(windows, nets, Sum(nets), Some((none, skip, full))));
  }

  /** With no empty part, the run between the reported dates is a run over exactly the sessions of the test part. */
  lemma TestRunsItsSessions(e: Engines, cash: int, sessions: seq<Day>, p: Plan, k: nat, d: Dates, names: seq<string>)
    requires p.Valid() && Ascending(sessions) && Fits(sessions, p, k) && Look(sessions, p, Start(p, k)) == Some(d)
    ensures NetOfTest(e, cash, sessions, d, names) == NetOf(e, Full, cash, TestSessions(sessions, p, k), names)
  {
    hide NetOf, Start, Look, SessionsWithin;
    StartsMove(p, k);
    ValidPlansLookUp(sessions, p, Start(p, k));
    var w := WindowAt(p, Start(p, k));
    CalendarOfSlice(sessions, w.testStart, w.testEnd);
  }

  /** With a step of at least one test, no session's decisions enter the combined figure twice: the sessions of two
      different tests have none in common. */
  lemma NoSessionTwice(sessions: seq<Day>, p: Plan, k: nat, l: nat, day: Day)
    requires p.Valid() && Ascending(sessions) && p.step >= p.test && k < l
    requires Fits(sessions, p, k) && Fits(sessions, p, l)
    requires day in TestSessions(sessions, p, k)
    ensures day !in TestSessions(sessions, p, l)
  {
    hide Start;
    StartsApart(p, k, l);
    StartsMove(p, k);
    var w, v := WindowAt(p, Start(p, k)), WindowAt(p, Start(p, l));
    var i :| 0 <= i < p.test && sessions[w.testStart..w.testEnd][i] == day;
    forall j | 0 <= j < p.test
      ensures sessions[v.testStart..v.testEnd][j] != day
    {
      assert sessions[w.testStart + i] < sessions[v.testStart + j];
    }
  }
}
