/** The expiry universe of a moment and the resolver that picks one expiry from it. */
module HistoryExpiry {
  import opened Basics
  import opened Ordering
  import opened HistoryRows

  /** The contracts of one underlying are grouped by expiry and class. */
  datatype Key = Key(expiry: Day, klass: string)

  datatype ExpiryRecord = ExpiryRecord(underlying: string, key: Key, firstSeen: Time, lastSeen: Time,
                                       listingStatus: string, sourceId: string, version: string)

  function KeyOf(c: Contract): Key { Key(c.expiry, c.expiryClass) }

  function Of(contracts: seq<Contract>, underlying: string): seq<Contract> {
    Filter(contracts, (c: Contract) => c.underlying == underlying)
  }

  function Group(items: seq<Contract>, key: Key): seq<Contract> {
    Filter(items, (c: Contract) => KeyOf(c) == key)
  }

  /** The distinct keys, in order of first appearance. */
  function Keys(items: seq<Contract>): (keys: seq<Key>)
    ensures forall key :: key in keys <==> exists c <- items :: KeyOf(c) == key
    ensures forall i, j :: 0 <= i < j < |keys| ==> keys[i] != keys[j]
  {
    if items == [] then []
    else
      var front, last := items[..|items| - 1], items[|items| - 1];
      assert items == front + [last];
      var keys := Keys(front);
      if KeyOf(last) in keys then keys else keys + [KeyOf(last)]
  }

  function Earliest(items: seq<Contract>): (t: Time)
    requires items != []
    ensures forall c <- items :: t <= c.firstSeen
    ensures exists c <- items :: c.firstSeen == t
  {
    if |items| == 1 then items[0].firstSeen
    else
      assert items == [items[0]] + items[1..];
      Min(items[0].firstSeen, Earliest(items[1..]))
  }

  function LastOf(items: seq<Contract>): (t: Time)
    requires items != []
    ensures forall c <- items :: c.lastSeen <= t
    ensures exists c <- items :: c.lastSeen == t
  {
    if |items| == 1 then items[0].lastSeen
    else
      assert items == [items[0]] + items[1..];
      Max(items[0].lastSeen, LastOf(items[1..]))
  }

  /** One record spans its whole group: from the first sighting of any member to the last sighting of any. */
  function Hull(underlying: string, key: Key, items: seq<Contract>): ExpiryRecord
    requires items != []
  {
    ExpiryRecord(underlying, key, Earliest(items), LastOf(items), items[0].listingStatus, items[0].sourceId,
                 items[0].version)
  }

  function HullOf(items: seq<Contract>, underlying: string, key: Key): seq<ExpiryRecord> {
    var group := Group(items, key);
    if group == [] then [] else [Hull(underlying, key, group)]
  }

  predicate RecordLeq(a: ExpiryRecord, b: ExpiryRecord) {
    if a.key.expiry == b.key.expiry then TextLeq(a.key.klass, b.key.klass) else a.key.expiry < b.key.expiry
  }

  function Records(contracts: seq<Contract>, underlying: string): seq<ExpiryRecord> {
    var items := Of(contracts, underlying);
    SortBy(FlatMap((key: Key) => HullOf(items, underlying, key), Keys(items)), RecordLeq)
  }

  function UniverseAt(contracts: seq<Contract>, underlying: string, moment: Time): seq<ExpiryRecord> {
    Filter(Records(contracts, underlying), (r: ExpiryRecord) => r.firstSeen <= moment <= r.lastSeen)
  }

  /** The grouping loop of `expiry_records`, over a dictionary with its insertion order. */
  method ExpiryRecords(contracts: seq<Contract>, underlying: string) returns (rows: seq<ExpiryRecord>)
    ensures rows == Records(contracts, underlying)
  {
    hide Keys, Group, Filter, FlatMap, SortBy, Hull;
    var keys, grouped := GroupByKey(contracts, underlying);
    ghost var items := Of(contracts, underlying);
    ghost var f := (key: Key) => HullOf(items, underlying, key);
    rows := [];
    EmptyFlatMap(f);
    for i := 0 to |keys|
      invariant rows == FlatMap(f, keys[..i])
    {
      FlatMapStep(f, keys, i);
      rows := rows + [Hull(underlying, keys[i], grouped[keys[i]])];
    }
    assert keys[..|keys|] == keys;
    rows := SortBy(rows, RecordLeq);
  }

  /** The dictionary holds the group of every key seen so far. */
  ghost predicate Grouped(items: seq<Contract>, keys: seq<Key>, grouped: map<Key, seq<Contract>>) {
    && keys == Keys(items)
    && (forall key <- keys :: key in grouped && grouped[key] == Group(items, key))
    && (forall key <- grouped :: key in keys)
  }

  method GroupByKey(contracts: seq<Contract>, underlying: string)
    returns (keys: seq<Key>, grouped: map<Key, seq<Contract>>)
    ensures keys == Keys(Of(contracts, underlying))
    ensures forall key <- keys :: key in grouped && grouped[key] == Group(Of(contracts, underlying), key) != []
  {
    hide Group, Of, Keys;
    keys, grouped := [], map[];
    NoContracts(underlying);
    for i := 0 to |contracts|
      invariant Grouped(Of(contracts[..i], underlying), keys, grouped)
    {
      OneMoreContract(contracts, i, underlying);
      if contracts[i].underlying != underlying {
        continue;
      }
      keys, grouped := AddToGroup(Of(contracts[..i], underlying), keys, grouped, contracts[i]);
    }
    assert contracts[..|contracts|] == contracts;
    forall key <- keys
      ensures Group(Of(contracts, underlying), key) != []
    {
      NewGroup(Of(contracts, underlying), key);
    }
  }

  /** `grouped.setdefault(key, []).append(contract)` */
  method AddToGroup(ghost items: seq<Contract>, keys: seq<Key>, grouped: map<Key, seq<Contract>>, contract: Contract)
    returns (keys': seq<Key>, grouped': map<Key, seq<Contract>>)
    requires Grouped(items, keys, grouped)
    ensures Grouped(items + [contract], keys', grouped')
  {
    hide Group, Keys;
    var key := KeyOf(contract);
    KeysGrow(items, contract);
    GroupGrows(items, contract);
    NewGroup(items, key);
    keys' := if key in grouped then keys else keys + [key];
    grouped' := grouped[key := (if key in grouped then grouped[key] else []) + [contract]];
  }

  lemma NoContracts(underlying: string)
    ensures Of([], underlying) == [] && Keys([]) == []
  {
  }

  lemma OneMoreContract(contracts: seq<Contract>, i: nat, underlying: string)
    requires i < |contracts|
    ensures Of(contracts[..i + 1], underlying)
         == if contracts[i].underlying == underlying then Of(contracts[..i], underlying) + [contracts[i]]
            else Of(contracts[..i], underlying)
  {
    assert contracts[..i + 1] == contracts[..i] + [contracts[i]];
    FilterConcat(contracts[..i], [contracts[i]], (c: Contract) => c.underlying == underlying);
    FilterOne(contracts[i], (c: Contract) => c.underlying == underlying);
  }

  lemma KeysGrow(items: seq<Contract>, c: Contract)
    ensures Keys(items + [c]) == if KeyOf(c) in Keys(items) then Keys(items) else Keys(items) + [KeyOf(c)]
  {
    assert (items + [c])[..|items|] == items;
  }

  lemma GroupGrows(items: seq<Contract>, c: Contract)
    ensures forall key ::
              Group(items + [c], key) == if KeyOf(c) == key then Group(items, key) + [c] else Group(items, key)
  {
    forall key
      ensures Group(items + [c], key) == if KeyOf(c) == key then Group(items, key) + [c] else Group(items, key)
    {
      FilterConcat(items, [c], (x: Contract) => KeyOf(x) == key);
      FilterOne(c, (x: Contract) => KeyOf(x) == key);
    }
  }

  /** A key is listed exactly when its group is not empty. */
  lemma NewGroup(items: seq<Contract>, key: Key)
    ensures key in Keys(items) <==> Group(items, key) != []
  {
    hide Filter;
    if key in Keys(items) {
      var c :| c in items && KeyOf(c) == key;
      assert c in Group(items, key);
    }
    if Group(items, key) != [] {
      assert Group(items, key)[0] in Group(items, key);
    }
  }

  /** The records are exactly the hulls of the non-empty groups. */
  lemma RecordsMeaning(contracts: seq<Contract>, underlying: string, r: ExpiryRecord)
    ensures var items := Of(contracts, underlying);
            r in Records(contracts, underlying) <==>
            Group(items, r.key) != [] && r == Hull(underlying, r.key, Group(items, r.key))
  {
    hide Filter, SortBy, Of, Keys, FlatMap, Group, Earliest, LastOf;
    var items := Of(contracts, underlying);
    var f := (key: Key) => HullOf(items, underlying, key);
    var hulls := FlatMap(f, Keys(items));
    PermutationMembers(SortBy(hulls, RecordLeq), hulls);
    FlatMapMembers(f, Keys(items), r);
    NewGroup(items, r.key);
  }
}
