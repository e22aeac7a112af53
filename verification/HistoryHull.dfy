/** When contracts first seen after a moment can change the expiry selected as of that moment. The record of a group
    spans the gap between its members, so a later member can make a group visible again that had closed. */
module HistoryHull {
  import opened Basics
  import opened HistoryRows
  import opened HistoryExpiry
  import opened HistoryResolver
  import HistoryStore

  /** The expiry chosen over the universe of the moment. */
  function Selected(contracts: seq<Contract>, q: Query): Option<Key> {
    Resolve(q, UniverseAt(contracts, q.underlying, q.moment)).selected
  }

  function GroupOf(contracts: seq<Contract>, q: Query, key: Key): seq<Contract> {
    Group(Of(contracts, q.underlying), key)
  }

  predicate Allowed(q: Query, key: Key) {
    var today := DayOf(q.moment);
    key.klass in q.preferred && (key.expiry > today || (key.expiry == today && q.sameDay))
  }

  predicate Visible(group: seq<Contract>, moment: Time) {
    group != [] && Earliest(group) <= moment <= LastOf(group)
  }

  predicate Eligible(contracts: seq<Contract>, q: Query, key: Key) {
    Allowed(q, key) && Visible(GroupOf(contracts, q, key), q.moment)
  }

  lemma OpenIsEligible(contracts: seq<Contract>, q: Query, key: Key)
    ensures OpenAmong(q, UniverseAt(contracts, q.underlying, q.moment), q.preferred, key) <==>
            Eligible(contracts, q, key)
  {
    hide Records, Group, Of, Earliest, LastOf;
    var universe := UniverseAt(contracts, q.underlying, q.moment);
    var group := GroupOf(contracts, q, key);
    if OpenAmong(q, universe, q.preferred, key) {
      var r :| r in universe && Open(q, r) && r.key == key;
      RecordsMeaning(contracts, q.underlying, r);
    }
    if Eligible(contracts, q, key) {
      var r := Hull(q.underlying, key, group);
      RecordsMeaning(contracts, q.underlying, r);
      assert r in universe;
      assert Open(q, r);
    }
  }

  /** The selection is the best of the eligible keys: first by the class preference, then by the earlier expiry. */
  lemma SelectedIsBest(contracts: seq<Contract>, q: Query)
    ensures IsBest(q.preferred, Selected(contracts, q), (key: Key) => Eligible(contracts, q, key))
  {
    hide OpenAmong, UniverseAt, Eligible, Choose, Discovered, FlatMap, Rank;
    var universe := UniverseAt(contracts, q.underlying, q.moment);
    ChooseIsBest(q, universe, q.preferred);
    forall key: Key
      ensures OpenAmong(q, universe, q.preferred, key) <==> Eligible(contracts, q, key)
    {
      OpenIsEligible(contracts, q, key);
    }
    SameBest(q.preferred, Selected(contracts, q), (key: Key) => OpenAmong(q, universe, q.preferred, key),
             (key: Key) => Eligible(contracts, q, key));
  }

  lemma BestOfMore(classes: seq<string>, best: Option<Key>, p: Key -> bool, more: Key -> bool, best': Option<Key>)
    requires IsBest(classes, best, p) && IsBest(classes, best', (key: Key) => p(key) || more(key))
    requires forall key: Key :: p(key) || more(key) ==> key.klass in classes
    ensures best' == best <==> forall key: Key :: more(key) ==> best.Some? && !Beats(classes, key, best.value)
  {
    hide Rank;
    var both := (key: Key) => p(key) || more(key);
    if forall key: Key :: more(key) ==> best.Some? && !Beats(classes, key, best.value) {
      BestIsUnique(classes, best, best', both);
    } else {
      var key: Key :| more(key) && (best.Some? ==> Beats(classes, key, best.value));
      assert both(key);
    }
  }

  /** Adding members first seen after the moment keeps a visible group visible, and reopens a group that closed
      before. */
  lemma LaterMembers(group: seq<Contract>, later: seq<Contract>, moment: Time)
    requires forall c <- later :: moment < c.firstSeen <= c.lastSeen
    ensures Visible(group + later, moment) <==>
            || Visible(group, moment)
            || (group != [] && later != [] && Earliest(group) <= moment && LastOf(group) < moment)
  {
    hide Earliest, LastOf;
    if group == [] {
      assert group + later == later;
    } else if later == [] {
      assert group + later == group;
    } else {
      var all := group + later;
      assert forall c <- group :: c in all;
      assert forall c <- later :: c in all;
      assert later[0] in later;
      assert LastOf(all) >= later[0].lastSeen;
    }
  }

  lemma GroupOfMore(contracts: seq<Contract>, more: seq<Contract>, q: Query, key: Key)
    ensures GroupOf(contracts + more, q, key) == GroupOf(contracts, q, key) + GroupOf(more, q, key)
  {
    hide Filter;
    FilterConcat(contracts, more, (c: Contract) => c.underlying == q.underlying);
    FilterConcat(Of(contracts, q.underlying), Of(more, q.underlying), (c: Contract) => KeyOf(c) == key);
  }

  lemma GroupMembers(contracts: seq<Contract>, q: Query, key: Key)
    ensures forall c <- GroupOf(contracts, q, key) :: c in contracts && c.underlying == q.underlying && KeyOf(c) == key
    ensures GroupOf(contracts, q, key) != [] <==>
            exists c <- contracts :: c.underlying == q.underlying && KeyOf(c) == key
  {
    hide Filter;
    if exists c <- contracts :: c.underlying == q.underlying && KeyOf(c) == key {
      var c :| c in contracts && c.underlying == q.underlying && KeyOf(c) == key;
      assert c in Of(contracts, q.underlying);
      assert c in GroupOf(contracts, q, key);
    }
    if GroupOf(contracts, q, key) != [] {
      assert GroupOf(contracts, q, key)[0] in GroupOf(contracts, q, key);
    }
  }

  /** A group that opened by the moment and closed before it, although its expiry is still to come. */
  predicate Stale(contracts: seq<Contract>, q: Query, key: Key) {
    var group := GroupOf(contracts, q, key);
    Allowed(q, key) && group != [] && Earliest(group) <= q.moment && LastOf(group) < q.moment
  }

  /** A stale group that would win if it were visible. */
  predicate StaleRival(contracts: seq<Contract>, q: Query, key: Key) {
    var selected := Selected(contracts, q);
    Stale(contracts, q, key) && (selected.Some? ==> Beats(q.preferred, key, selected.value))
  }

  predicate Revived(contracts: seq<Contract>, more: seq<Contract>, q: Query, key: Key) {
    Stale(contracts, q, key) && GroupOf(more, q, key) != []
  }

  lemma EligibleAfter(contracts: seq<Contract>, more: seq<Contract>, q: Query, key: Key)
    requires forall c <- more :: q.moment < c.firstSeen <= c.lastSeen
    ensures Eligible(contracts + more, q, key) <==> Eligible(contracts, q, key) || Revived(contracts, more, q, key)
  {
    hide GroupOf, Allowed, Earliest, LastOf, Visible;
    GroupOfMore(contracts, more, q, key);
    GroupMembers(more, q, key);
    LaterMembers(GroupOf(contracts, q, key), GroupOf(more, q, key), q.moment);
    VisibleMeans(GroupOf(contracts, q, key), q.moment);
  }

  lemma VisibleMeans(group: seq<Contract>, moment: Time)
    ensures Visible(group, moment) ==> group != [] && LastOf(group) >= moment
  {
  }

  /** Contracts first seen after the moment change the selection exactly when one of them joins a stale rival. */
  lemma HullSelection(contracts: seq<Contract>, more: seq<Contract>, q: Query)
    requires forall c <- more :: q.moment < c.firstSeen <= c.lastSeen
    ensures Selected(contracts + more, q) == Selected(contracts, q) <==>
            forall c <- more :: c.underlying == q.underlying ==> !StaleRival(contracts, q, KeyOf(c))
  {
    hide Eligible, Selected, Beats, Stale, GroupOf;
    var p := (key: Key) => Eligible(contracts, q, key);
    var extra := (key: Key) => Revived(contracts, more, q, key);
    SelectedIsBest(contracts, q);
    SelectedIsBest(contracts + more, q);
    forall key: Key
      ensures Eligible(contracts + more, q, key) <==> p(key) || extra(key)
      ensures p(key) || extra(key) ==> key.klass in q.preferred
      ensures GroupOf(more, q, key) != [] <==> exists c <- more :: c.underlying == q.underlying && KeyOf(c) == key
    {
      EligibleAfter(contracts, more, q, key);
      EligibleClass(contracts, q, key);
      GroupMembers(more, q, key);
    }
    SameBest(q.preferred, Selected(contracts + more, q), (key: Key) => Eligible(contracts + more, q, key),
             (key: Key) => p(key) || extra(key));
    BestOfMore(q.preferred, Selected(contracts, q), p, extra, Selected(contracts + more, q));
    Rivals(contracts, more, q);
  }

  lemma EligibleClass(contracts: seq<Contract>, q: Query, key: Key)
    ensures Eligible(contracts, q, key) || Stale(contracts, q, key) ==> key.klass in q.preferred
  {
  }

  lemma Rivals(contracts: seq<Contract>, more: seq<Contract>, q: Query)
    requires forall key: Key :: GroupOf(more, q, key) != [] <==>
               exists c <- more :: c.underlying == q.underlying && KeyOf(c) == key
    ensures var best := Selected(contracts, q);
            (forall key: Key :: Revived(contracts, more, q, key) ==> best.Some? && !Beats(q.preferred, key, best.value))
            <==> (forall c <- more :: c.underlying == q.underlying ==> !StaleRival(contracts, q, KeyOf(c)))
  {
    hide Selected, Beats, Stale, GroupOf;
    var best := Selected(contracts, q);
    if forall key: Key :: Revived(contracts, more, q, key) ==> best.Some? && !Beats(q.preferred, key, best.value) {
      forall c <- more | c.underlying == q.underlying
        ensures !StaleRival(contracts, q, KeyOf(c))
      {
        assert GroupOf(more, q, KeyOf(c)) != [];
        assert Stale(contracts, q, KeyOf(c)) ==> Revived(contracts, more, q, KeyOf(c));
      }
    }
  }

  /** The repair: when every contract was seen up to its expiry and same-day expiries are excluded, no group can be
      stale, so no later contract changes the selection. */
  lemma SeenToExpiryIsSafe(contracts: seq<Contract>, more: seq<Contract>, q: Query)
    requires !q.sameDay
    requires forall c <- contracts :: c.underlying == q.underlying ==> DayOf(c.lastSeen) >= c.expiry
    requires forall c <- more :: q.moment < c.firstSeen <= c.lastSeen
    ensures Selected(contracts + more, q) == Selected(contracts, q)
  {
    hide Selected, Beats, GroupOf, Earliest, LastOf;
    forall key: Key
      ensures !Stale(contracts, q, key)
    {
      NeverStale(contracts, q, key);
    }
    HullSelection(contracts, more, q);
  }

  lemma NeverStale(contracts: seq<Contract>, q: Query, key: Key)
    requires !q.sameDay
    requires forall c <- contracts :: c.underlying == q.underlying ==> DayOf(c.lastSeen) >= c.expiry
    ensures !Stale(contracts, q, key)
  {
    hide GroupOf, Earliest, LastOf;
    var group := GroupOf(contracts, q, key);
    GroupMembers(contracts, q, key);
    if group != [] {
      var last := LastOf(group);
      var c :| c in group && c.lastSeen == last;
      assert DayOf(c.lastSeen) >= key.expiry;
      assert c.lastSeen < q.moment ==> DayOf(c.lastSeen) <= DayOf(q.moment);
    }
  }

  /** Without it the hull looks ahead: a weekly group last seen on day 3, expiring on day 20, is not selectable on day
      5; a strike of it first listed on day 6 makes it the selection of day 5. */
  lemma HullLooksAhead()
    ensures var q := Query("NIFTY", 5 * DAY_SECONDS, [WEEKLY], false);
            var seen := Contract("NIFTY", 20, 1, "CE", "a", "a", None, WEEKLY, 0, 3 * DAY_SECONDS, "v", "", "");
            var later := seen.(strike := 2, contractId := "b", firstSeen := 6 * DAY_SECONDS,
                               lastSeen := 7 * DAY_SECONDS);
            Selected([seen], q) == None && Selected([seen] + [later], q) != None
  {
    hide Selected, GroupOf, UniverseAt;
    var q := Query("NIFTY", 5 * DAY_SECONDS, [WEEKLY], false);
    var seen := Contract("NIFTY", 20, 1, "CE", "a", "a", None, WEEKLY, 0, 3 * DAY_SECONDS, "v", "", "");
    var later := seen.(strike := 2, contractId := "b", firstSeen := 6 * DAY_SECONDS, lastSeen := 7 * DAY_SECONDS);
    SingleGroup(seen, q);
    SelectedIsBest([seen], q);
    HullSelection([seen], [later], q);
    assert StaleRival([seen], q, KeyOf(seen));
    assert later in [later];
  }

  lemma SingleGroup(c: Contract, q: Query)
    requires c.underlying == q.underlying
    ensures forall key: Key :: GroupOf([c], q, key) == if KeyOf(c) == key then [c] else []
  {
    FilterOne(c, (x: Contract) => x.underlying == q.underlying);
    forall key: Key
      ensures GroupOf([c], q, key) == if KeyOf(c) == key then [c] else []
    {
      FilterOne(c, (x: Contract) => KeyOf(x) == key);
    }
  }

  // The same through the store.

  /** What a sequence of `add_*` calls leaves behind the contracts that were there. */
  function Joined(before: HistoryStore.Store, after: HistoryStore.Store): seq<Contract>
    requires |before.contracts| <= |after.contracts|
  {
    after.contracts[|before.contracts|..]
  }

  lemma AddedContract(s: HistoryStore.Store, row: HistoryStore.Row, t: Time)
    requires HistoryStore.Future(row, t)
    ensures var after := HistoryStore.Add(s, row);
            && s.contracts <= after.contracts
            && forall c <- Joined(s, after) :: t < c.firstSeen <= c.lastSeen
  {
    hide Forbidden;
  }

  lemma {:induction false} AddedContracts(s: HistoryStore.Store, rows: seq<HistoryStore.Row>, t: Time)
    requires forall row <- rows :: HistoryStore.Future(row, t)
    ensures var after := HistoryStore.AddAll(s, rows);
            && s.contracts <= after.contracts
            && forall c <- Joined(s, after) :: t < c.firstSeen <= c.lastSeen
    decreases |rows|
  {
    hide HistoryStore.Add, HistoryStore.Future;
    if rows != [] {
      var next, after := HistoryStore.Add(s, rows[0]), HistoryStore.AddAll(s, rows);
      AddedContract(s, rows[0], t);
      AddedContracts(next, rows[1..], t);
      assert Joined(s, after) == Joined(s, next) + Joined(next, after);
    }
  }

  /** Point-in-time selection: when every stored contract was seen up to its expiry and same-day expiries are
      excluded, no sequence of adds of rows that belong to the future of the moment, accepted or refused, changes the
      selected expiry. */
  lemma NoLookAheadInSelection(s: HistoryStore.Store, rows: seq<HistoryStore.Row>, q: Query)
    requires forall row <- rows :: HistoryStore.Future(row, q.moment)
    requires !q.sameDay
    requires forall c <- s.contracts :: c.underlying == q.underlying ==> DayOf(c.lastSeen) >= c.expiry
    ensures Selected(HistoryStore.AddAll(s, rows).contracts, q) == Selected(s.contracts, q)
  {
    hide Selected, HistoryStore.AddAll, HistoryStore.Future;
    AddedContracts(s, rows, q.moment);
    var after := HistoryStore.AddAll(s, rows);
    assert after.contracts == s.contracts + Joined(s, after);
    SeenToExpiryIsSafe(s.contracts, Joined(s, after), q);
  }
}
