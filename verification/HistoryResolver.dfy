/** `resolve_nearest_expiry`, and when its answer over the universe of a moment can be changed by later contracts. */
module HistoryResolver {
  import opened Basics
  import opened Ordering
  import opened HistoryRows
  import opened HistoryExpiry

  datatype Profile = MonthlyOnly | WeeklyThenMonthly | WeeklyPreferred | CustomHistorical | Unnamed(name: string)

  datatype ProfileError = CustomUnimplemented | UnknownExpiryProfile(name: string)

  const WEEKLY := "WEEKLY"
  const MONTHLY := "MONTHLY"

  function ClassesFor(profile: Profile): Result<seq<string>, ProfileError> {
    match profile
    case MonthlyOnly => Ok([MONTHLY])
    case WeeklyThenMonthly => Ok([WEEKLY, MONTHLY])
    case WeeklyPreferred => Ok([WEEKLY])
    case CustomHistorical => Err(CustomUnimplemented)
    case Unnamed(name) => Err(UnknownExpiryProfile(name))
  }

  datatype Why = NotListedYet | DataUnavailable | Expired | SameDayForbidden | DisallowedClass

  datatype Reason = Excluded(key: Key, why: Why) | NoEligibleExpiry

  /** `preferred` lists the classes of the profile, best first. */
  datatype Query = Query(underlying: string, moment: Time, preferred: seq<string>, sameDay: bool)

  datatype Resolution = Resolution(discovered: seq<Key>, excluded: seq<Key>, reasons: seq<Reason>,
                                   selected: Option<Key>)

  function WhyNot(q: Query, r: ExpiryRecord): Option<Why> {
    var today := DayOf(q.moment);
    if r.firstSeen > q.moment then Some(NotListedYet)
    else if r.lastSeen < q.moment then Some(DataUnavailable)
    else if r.key.expiry < today then Some(Expired)
    else if r.key.expiry == today && !q.sameDay then Some(SameDayForbidden)
    else if r.key.klass !in q.preferred then Some(DisallowedClass)
    else None
  }

  predicate Mine(q: Query, r: ExpiryRecord) { r.underlying == q.underlying }

  predicate Open(q: Query, r: ExpiryRecord) { Mine(q, r) && WhyNot(q, r).None? }

  predicate InPool(q: Query, r: ExpiryRecord, klass: string) { Open(q, r) && r.key.klass == klass }

  function Pool(q: Query, records: seq<ExpiryRecord>, klass: string): seq<ExpiryRecord> {
    Filter(records, (r: ExpiryRecord) => InPool(q, r, klass))
  }

  function Nearest(pool: seq<ExpiryRecord>): (best: ExpiryRecord)
    requires pool != []
    ensures best in pool
    ensures forall r <- pool :: best.key.expiry <= r.key.expiry
  {
    var last := pool[|pool| - 1];
    if |pool| == 1 then last
    else
      assert pool == pool[..|pool| - 1] + [last];
      var best := Nearest(pool[..|pool| - 1]);
      if !RecordLeq(best, last) then last else best
  }

  function Choose(q: Query, records: seq<ExpiryRecord>, classes: seq<string>): Option<Key> {
    if classes == [] then None
    else
      var pool := Pool(q, records, classes[0]);
      if pool != [] then Some(Nearest(pool).key) else Choose(q, records, classes[1..])
  }

  predicate KeyLeq(a: Key, b: Key) {
    if a.expiry == b.expiry then TextLeq(a.klass, b.klass) else a.expiry < b.expiry
  }

  function Discovered(q: Query, records: seq<ExpiryRecord>): seq<Key> {
    SortBy(Map((r: ExpiryRecord) => r.key, Filter(records, (r: ExpiryRecord) => Mine(q, r))), KeyLeq)
  }

  function ExcludedOne(q: Query, r: ExpiryRecord): seq<Key> {
    if Mine(q, r) && WhyNot(q, r).Some? then [r.key] else []
  }

  function ReasonOne(q: Query, r: ExpiryRecord): seq<Reason> {
    if Mine(q, r) && WhyNot(q, r).Some? then [Excluded(r.key, WhyNot(q, r).value)] else []
  }

  function Resolve(q: Query, records: seq<ExpiryRecord>): Resolution {
    var selected := Choose(q, records, q.preferred);
    var reasons := FlatMap((r: ExpiryRecord) => ReasonOne(q, r), records);
    Resolution(Discovered(q, records),
               FlatMap((r: ExpiryRecord) => ExcludedOne(q, r), records),
               if selected.None? then reasons + [NoEligibleExpiry] else reasons,
               selected)
  }

  /** The loops of the resolver. The identifier it hashes from the payload is opaque and left out. */
  method ResolveNearestExpiry(underlying: string, moment: Time, records: seq<ExpiryRecord>, profile: Profile,
                              allowSameDay: bool) returns (result: Result<Resolution, ProfileError>)
    ensures result == match ClassesFor(profile)
                      case Err(error) => Err(error)
                      case Ok(preferred) => Ok(Resolve(Query(underlying, moment, preferred, allowSameDay), records))
  {
    hide WhyNot, Mine, Choose, Discovered, ClassesFor, Pool, FlatMap;
    var classes := ClassesFor(profile);
    if classes.Err? {
      return Err(classes.error);
    }
    var q := Query(underlying, moment, classes.value, allowSameDay);
    var excluded, reasons, byClass := SortOut(q, records);
    var selected := PickFrom(q, records, byClass);
    if selected.None? {
      reasons := reasons + [NoEligibleExpiry];
    }
    return Ok(Resolution(Discovered(q, records), excluded, reasons, selected));
  }

  ghost predicate Pooled(q: Query, records: seq<ExpiryRecord>, byClass: map<string, seq<ExpiryRecord>>) {
    && (forall klass <- q.preferred :: klass in byClass && byClass[klass] == Pool(q, records, klass))
    && (forall klass <- byClass :: klass in q.preferred)
  }

  method SortOut(q: Query, records: seq<ExpiryRecord>)
    returns (excluded: seq<Key>, reasons: seq<Reason>, byClass: map<string, seq<ExpiryRecord>>)
    ensures excluded == FlatMap((r: ExpiryRecord) => ExcludedOne(q, r), records)
    ensures reasons == FlatMap((r: ExpiryRecord) => ReasonOne(q, r), records)
    ensures Pooled(q, records, byClass)
  {
    hide FlatMap, Pool;
    ghost var f := (r: ExpiryRecord) => ExcludedOne(q, r);
    ghost var g := (r: ExpiryRecord) => ReasonOne(q, r);
    excluded, reasons, byClass := [], [], map klass <- q.preferred :: [];
    EmptyFlatMap(f);
    EmptyFlatMap(g);
    EmptyPools(q);
    for i := 0 to |records|
      invariant excluded == FlatMap(f, records[..i]) && reasons == FlatMap(g, records[..i])
      invariant Pooled(q, records[..i], byClass)
    {
      var r := records[i];
      FlatMapStep(f, records, i);
      FlatMapStep(g, records, i);
      assert records[..i + 1] == records[..i] + [r];
      byClass := AddToPool(q, records[..i], byClass, r);
      var why := WhyNot(q, r);
      if Mine(q, r) && why.Some? {
        excluded, reasons := excluded + [r.key], reasons + [Excluded(r.key, why.value)];
      }
    }
    assert records[..|records|] == records;
  }

  lemma EmptyPools(q: Query)
    ensures forall klass :: Pool(q, [], klass) == []
  {
  }

  lemma PoolGrows(q: Query, records: seq<ExpiryRecord>, r: ExpiryRecord, klass: string)
    ensures Pool(q, records + [r], klass)
         == if InPool(q, r, klass) then Pool(q, records, klass) + [r] else Pool(q, records, klass)
  {
    hide InPool;
    FilterConcat(records, [r], (x: ExpiryRecord) => InPool(q, x, klass));
    FilterOne(r, (x: ExpiryRecord) => InPool(q, x, klass));
  }

  method AddToPool(q: Query, ghost before: seq<ExpiryRecord>, byClass: map<string, seq<ExpiryRecord>>, r: ExpiryRecord)
    returns (after: map<string, seq<ExpiryRecord>>)
    requires Pooled(q, before, byClass)
    ensures Pooled(q, before + [r], after)
  {
    hide Pool;
    forall klass
      ensures Pool(q, before + [r], klass)
           == if InPool(q, r, klass) then Pool(q, before, klass) + [r] else Pool(q, before, klass)
    {
      PoolGrows(q, before, r, klass);
    }
    after := byClass;
    if Mine(q, r) && WhyNot(q, r).None? {
      after := byClass[r.key.klass := byClass[r.key.klass] + [r]];
    }
  }

  method PickFrom(q: Query, ghost records: seq<ExpiryRecord>, byClass: map<string, seq<ExpiryRecord>>)
    returns (selected: Option<Key>)
    requires Pooled(q, records, byClass)
    ensures selected == Choose(q, records, q.preferred)
  {
    hide Pool;
    selected := None;
    for i := 0 to |q.preferred|
      invariant Choose(q, records, q.preferred) == Choose(q, records, q.preferred[i..])
    {
      var pool := byClass[q.preferred[i]];
      assert q.preferred[i..][1..] == q.preferred[i + 1..];
      if pool != [] {
        return Some(Nearest(pool).key);
      }
    }
  }

  // What the answer means.

  /** The position of a class in the preference list; its length for a class that is not in it. */
  function Rank(classes: seq<string>, klass: string): (n: nat)
    ensures n <= |classes| && (n < |classes| ==> classes[n] == klass)
    ensures klass in classes <==> n < |classes|
  {
    if classes == [] then 0 else if classes[0] == klass then 0 else 1 + Rank(classes[1..], klass)
  }

  predicate Beats(classes: seq<string>, a: Key, b: Key) {
    || Rank(classes, a.klass) < Rank(classes, b.klass)
    || (a.klass == b.klass && a.expiry < b.expiry)
  }

  /** `best` is the unbeaten one among the keys that satisfy `p`, and absent only if there is none. */
  ghost predicate IsBest(classes: seq<string>, best: Option<Key>, p: Key -> bool) {
    if best.None? then forall key: Key :: !p(key)
    else p(best.value) && forall key: Key :: p(key) ==> !Beats(classes, key, best.value)
  }

  lemma BestIsUnique(classes: seq<string>, a: Option<Key>, b: Option<Key>, p: Key -> bool)
    requires IsBest(classes, a, p) && IsBest(classes, b, p)
    requires forall key: Key :: p(key) ==> key.klass in classes
    ensures a == b
  {
  }

  lemma SameBest(classes: seq<string>, best: Option<Key>, p: Key -> bool, p': Key -> bool)
    requires IsBest(classes, best, p) && forall key: Key :: p(key) <==> p'(key)
    ensures IsBest(classes, best, p')
  {
  }

  lemma OpenKey(q: Query, records: seq<ExpiryRecord>, key: Key, klass: string)
    ensures (exists r <- records :: Open(q, r) && r.key == key && key.klass == klass)
       <==> (exists r <- Pool(q, records, klass) :: r.key == key)
  {
    hide Open;
    if exists r <- records :: Open(q, r) && r.key == key && key.klass == klass {
      var r :| r in records && Open(q, r) && r.key == key && key.klass == klass;
      assert r in Pool(q, records, klass);
    }
  }

  ghost predicate OpenAmong(q: Query, records: seq<ExpiryRecord>, classes: seq<string>, key: Key) {
    key.klass in classes && exists r <- records :: Open(q, r) && r.key == key
  }

  lemma BestLater(classes: seq<string>, best: Option<Key>, p: Key -> bool, p': Key -> bool)
    requires classes != [] && IsBest(classes[1..], best, p')
    requires forall key: Key :: p(key) <==> p'(key)
    requires forall key: Key :: p(key) ==> key.klass != classes[0]
    ensures IsBest(classes, best, p)
  {
  }

  lemma BestHere(classes: seq<string>, best: Key, p: Key -> bool)
    requires classes != [] && best.klass == classes[0] && p(best)
    requires forall key: Key :: p(key) && key.klass == classes[0] ==> best.expiry <= key.expiry
    ensures IsBest(classes, Some(best), p)
  {
  }

  lemma {:induction false} ChooseIsBest(q: Query, records: seq<ExpiryRecord>, classes: seq<string>)
    ensures IsBest(classes, Choose(q, records, classes), (key: Key) => OpenAmong(q, records, classes, key))
  {
    hide Open, Pool, IsBest, Rank;
    var p := (key: Key) => OpenAmong(q, records, classes, key);
    if classes == [] {
      NoneIsBest(p);
    } else {
      var klass := classes[0];
      var pool := Pool(q, records, klass);
      assert classes == [klass] + classes[1..];
      forall key: Key
        ensures (exists r <- records :: Open(q, r) && r.key == key && key.klass == klass)
           <==> (exists r <- pool :: r.key == key)
      {
        OpenKey(q, records, key, klass);
      }
      if pool == [] {
        ChooseIsBest(q, records, classes[1..]);
        BestLater(classes, Choose(q, records, classes), p, (key: Key) => OpenAmong(q, records, classes[1..], key));
      } else {
        var best := Nearest(pool);
        assert exists r <- pool :: r.key == best.key;
        BestHere(classes, best.key, p);
      }
    }
  }

  lemma NoneIsBest(p: Key -> bool)
    requires forall key: Key :: !p(key)
    ensures IsBest([], None, p)
  {
  }

  lemma {:induction false} ExcludedOrOpen(q: Query, records: seq<ExpiryRecord>)
    ensures |FlatMap((r: ExpiryRecord) => ExcludedOne(q, r), records)|
            + |Filter(records, (r: ExpiryRecord) => Open(q, r))|
         == |Filter(records, (r: ExpiryRecord) => Mine(q, r))|
    ensures |FlatMap((r: ExpiryRecord) => ReasonOne(q, r), records)|
         == |FlatMap((r: ExpiryRecord) => ExcludedOne(q, r), records)|
    decreases |records|
  {
    hide WhyNot, Mine, Filter;
    if records == [] {
      hide *;
      EmptyFilters(q);
    } else {
      var front, last := records[..|records| - 1], records[|records| - 1];
      ExcludedOrOpen(q, front);
      assert records == front + [last];
      FilterConcat(front, [last], (r: ExpiryRecord) => Open(q, r));
      FilterOne(last, (r: ExpiryRecord) => Open(q, r));
      FilterConcat(front, [last], (r: ExpiryRecord) => Mine(q, r));
      FilterOne(last, (r: ExpiryRecord) => Mine(q, r));
    }
  }

  lemma EmptyFilters(q: Query)
    ensures Filter([], (r: ExpiryRecord) => Open(q, r)) == [] && Filter([], (r: ExpiryRecord) => Mine(q, r)) == []
    ensures FlatMap((r: ExpiryRecord) => ExcludedOne(q, r), []) == []
    ensures FlatMap((r: ExpiryRecord) => ReasonOne(q, r), []) == []
  {
  }

  /** Every record of the underlying is either eligible or excluded with one reason, and nothing is selected exactly
      when none is eligible. */
  lemma EveryRecordIsAccountedFor(q: Query, records: seq<ExpiryRecord>)
    ensures var r := Resolve(q, records);
            && |r.excluded| + |Filter(records, (x: ExpiryRecord) => Open(q, x))|
               == |Filter(records, (x: ExpiryRecord) => Mine(q, x))|
            && |r.reasons| == |r.excluded| + (if r.selected.None? then 1 else 0)
            && (r.selected.None? <==> forall x <- records :: !Open(q, x))
  {
    hide Filter, FlatMap, Choose, Discovered, Mine;
    ExcludedOrOpen(q, records);
    ChooseIsBest(q, records, q.preferred);
    var selected := Choose(q, records, q.preferred);
    var p := (key: Key) => OpenAmong(q, records, q.preferred, key);
    if selected.None? {
      forall x <- records
        ensures !Open(q, x)
      {
        assert !p(x.key);
      }
    } else {
      assert p(selected.value);
    }
  }

  // The answer in the terms of the records.

  /** The record can be traded at the moment: listed then, and not expired; on the day itself only if allowed. */
  predicate Tradable(underlying: string, moment: Time, sameDay: bool, r: ExpiryRecord) {
    && r.underlying == underlying && r.firstSeen <= moment <= r.lastSeen
    && (r.key.expiry > moment / 86400 || (sameDay && r.key.expiry == moment / 86400))
  }

  /** The earliest key of a class that can be traded, and none only if there is none. */
  ghost predicate EarliestTradable(underlying: string, moment: Time, sameDay: bool, records: seq<ExpiryRecord>,
                                   klass: string, selected: Option<Key>)
  {
    match selected
    case None => forall r <- records :: Tradable(underlying, moment, sameDay, r) ==> r.key.klass != klass
    case Some(key) =>
      && key.klass == klass && (exists r <- records :: Tradable(underlying, moment, sameDay, r) && r.key == key)
      && forall r <- records :: Tradable(underlying, moment, sameDay, r) && r.key.klass == klass ==>
           key.expiry <= r.key.expiry
  }

  ghost predicate SomeOf(underlying: string, moment: Time, sameDay: bool, records: seq<ExpiryRecord>, klass: string) {
    exists r <- records :: Tradable(underlying, moment, sameDay, r) && r.key.klass == klass
  }

  lemma OpenIsTradable(q: Query, r: ExpiryRecord)
    ensures Open(q, r) <==> Tradable(q.underlying, q.moment, q.sameDay, r) && r.key.klass in q.preferred
  {
  }

  lemma PoolIsTradable(q: Query, records: seq<ExpiryRecord>, klass: string, r: ExpiryRecord)
    requires klass in q.preferred
    ensures r in Pool(q, records, klass) <==>
              r in records && Tradable(q.underlying, q.moment, q.sameDay, r) && r.key.klass == klass
  {
    hide Tradable, Open;
    OpenIsTradable(q, r);
  }

  lemma NearestIsEarliest(q: Query, records: seq<ExpiryRecord>, klass: string)
    requires klass in q.preferred
    ensures var pool := Pool(q, records, klass);
            && EarliestTradable(q.underlying, q.moment, q.sameDay, records, klass,
                                if pool == [] then None else Some(Nearest(pool).key))
            && (pool != [] <==> SomeOf(q.underlying, q.moment, q.sameDay, records, klass))
  {
    hide Tradable, Pool, Nearest;
    forall r: ExpiryRecord
      ensures r in Pool(q, records, klass) <==>
                r in records && Tradable(q.underlying, q.moment, q.sameDay, r) && r.key.klass == klass
    {
      PoolIsTradable(q, records, klass, r);
    }
    if Pool(q, records, klass) != [] {
      assert Nearest(Pool(q, records, klass)) in Pool(q, records, klass);
      assert Pool(q, records, klass)[0] in Pool(q, records, klass);
    }
  }

  /** What each profile selects: the earliest tradable monthly, the earliest tradable weekly, or the latter and only if
      there is no tradable weekly the former; the other profiles are refused. */
  lemma ProfilesSelect(underlying: string, moment: Time, records: seq<ExpiryRecord>, profile: Profile, sameDay: bool)
    ensures profile.CustomHistorical? || profile.Unnamed? <==> ClassesFor(profile).Err?
    ensures ClassesFor(profile).Ok? ==>
              var selected := Resolve(Query(underlying, moment, ClassesFor(profile).value, sameDay), records).selected;
              var klass := if profile.MonthlyOnly? then "MONTHLY"
                           else if profile.WeeklyPreferred? then "WEEKLY"
                           else if SomeOf(underlying, moment, sameDay, records, "WEEKLY") then "WEEKLY"
                           else "MONTHLY";
              EarliestTradable(underlying, moment, sameDay, records, klass, selected)
  {
    hide Pool, Nearest, EarliestTradable, SomeOf, FlatMap, Discovered;
    if ClassesFor(profile).Ok? {
      var q := Query(underlying, moment, ClassesFor(profile).value, sameDay);
      match profile
      case MonthlyOnly =>
        NearestIsEarliest(q, records, MONTHLY);
        ChooseOne(q, records, MONTHLY);
      case WeeklyPreferred =>
        NearestIsEarliest(q, records, WEEKLY);
        ChooseOne(q, records, WEEKLY);
      case WeeklyThenMonthly =>
        NearestIsEarliest(q, records, WEEKLY);
        NearestIsEarliest(q, records, MONTHLY);
        ChooseOne(q, records, MONTHLY);
        assert q.preferred[1..] == [MONTHLY];
    }
  }

  lemma ChooseOne(q: Query, records: seq<ExpiryRecord>, klass: string)
    ensures var pool := Pool(q, records, klass);
            Choose(q, records, [klass]) == if pool == [] then None else Some(Nearest(pool).key)
  {
    assert [klass][1..] == [];
  }

  /** Why a key is left out: not seen yet, no longer seen, expired, expiring today, or of a class that is not wanted; in
      this order. */
  lemma ReasonsMeaning(q: Query, records: seq<ExpiryRecord>, key: Key, why: Why)
    ensures Excluded(key, why) in Resolve(q, records).reasons <==>
              exists r <- records ::
                && r.underlying == q.underlying && r.key == key
                && var seen, today := r.firstSeen <= q.moment <= r.lastSeen, q.moment / 86400;
                   match why
                   case NotListedYet => q.moment < r.firstSeen
                   case DataUnavailable => r.firstSeen <= q.moment && r.lastSeen < q.moment
                   case Expired => seen && r.key.expiry < today
                   case SameDayForbidden => seen && r.key.expiry == today && !q.sameDay
                   case DisallowedClass =>
                     Tradable(q.underlying, q.moment, q.sameDay, r) && r.key.klass !in q.preferred
  {
    hide FlatMap, Choose, Discovered;
    FlatMapMembers((r: ExpiryRecord) => ReasonOne(q, r), records, Excluded(key, why));
  }

  /** The listing holds the keys of the underlying, by expiry and then by class. */
  lemma DiscoveredMeaning(q: Query, records: seq<ExpiryRecord>)
    ensures var keys := Discovered(q, records);
            && (forall key :: key in keys <==> exists r <- records :: r.underlying == q.underlying && r.key == key)
            && |keys| == |Filter(records, (r: ExpiryRecord) => r.underlying == q.underlying)|
            && forall i, j :: 0 <= i < j < |keys| ==>
                 if keys[i].expiry == keys[j].expiry then TextLeq(keys[i].klass, keys[j].klass)
                 else keys[i].expiry < keys[j].expiry
  {
    hide SortBy, TextLeq, Map, Filter;
    var mine := Filter(records, (r: ExpiryRecord) => Mine(q, r));
    var keys := Map((r: ExpiryRecord) => r.key, mine);
    FilterCongruence(records, (r: ExpiryRecord) => Mine(q, r), (r: ExpiryRecord) => r.underlying == q.underlying);
    KeyOrder();
    SortBySorted(keys, KeyLeq);
    PermutationMembers(Discovered(q, records), keys);
    forall key
      ensures key in keys <==> exists r <- records :: r.underlying == q.underlying && r.key == key
    {
      MapMembers((r: ExpiryRecord) => r.key, mine, key);
    }
    forall i, j | 0 <= i < j < |keys|
      ensures KeyLeq(Discovered(q, records)[i], Discovered(q, records)[j])
    {
    }
  }

  lemma KeyOrder()
    ensures TotalPreorder(KeyLeq)
  {
    hide TextLeq;
    TextOrder();
  }
}
