/**
 * The counter table of DefaultUsageService: a table from identifier to a
 * mutable usage record, built lazily, incremented in place, and cleared by
 * installing a fresh table so that earlier references keep their contents.
 */
module Usage {
  import opened Wrappers

  /** What a tracked object says about itself (its identifier, location and descriptive metadata). */
  datatype Info = Info(
    identifier: string,
    location: Option<string>,
    name: Option<string>,
    labelText: Option<string>,  // the record's label (`label` is a Dafny keyword)
    description: Option<string>,
    version: Option<string>)

  /** An observed object: trackable only when it is both Identifiable and Locatable. */
  datatype Observed = Untrackable | Trackable(info: Info)

  /** A usage record as a value: the fields of one UsageStats at one moment. */
  datatype Record = Record(info: Info, count: nat)

  /** The table as a value. */
  type Table = map<string, Record>

  /** Every record sits under its own identifier. */
  ghost predicate KeyedByIdentifier(t: Table) {
    forall id :: id in t ==> t[id].info.identifier == id
  }

  /** The count of `id`, or 0 when the table has no record for it. */
  function CountOf(t: Table, id: string): nat {
    if id in t then t[id].count else 0
  }

  // -- Specification of getUsage and increment on table values --

  /** The table after getUsage(o): a record with count 0 is created on first sight of a trackable identifier. */
  function Track(t: Table, o: Observed): Table {
    match o
    case Untrackable => t
    case Trackable(info) =>
      if info.identifier in t then t else t[info.identifier := Record(info, 0)]
  }

  /** The table after increment(o): getUsage, then one more on the record it returned. */
  function Bump(t: Table, o: Observed): Table {
    match o
    case Untrackable => t
    case Trackable(info) =>
      var t' := Track(t, o);
      t'[info.identifier := t'[info.identifier].(count := t'[info.identifier].count + 1)]
  }

  /** The table after increment(os[0]), ..., increment(os[|os| - 1]). */
  function BumpAll(t: Table, os: seq<Observed>): Table
    decreases |os|
  {
    if os == [] then t else Bump(BumpAll(t, os[..|os| - 1]), os[|os| - 1])
  }

  /** How many of the observations are trackable objects with identifier `id`. */
  function Occurrences(os: seq<Observed>, id: string): nat
    decreases |os|
  {
    if os == [] then 0
    else Occurrences(os[..|os| - 1], id) + (if os[|os| - 1] == Untrackable || os[|os| - 1].info.identifier != id then 0 else 1)
  }

  /** `n` observations of the same object. */
  function Repeat(o: Observed, n: nat): (os: seq<Observed>)
    ensures |os| == n && forall i :: 0 <= i < n ==> os[i] == o
  {
    seq(n, i => o)
  }

  /**
   * getUsage is get-or-create keyed only by identifier: it never adds a
   * second record for a known identifier, adds exactly one for a new
   * trackable one, leaves the table alone for an untrackable object, and a
   * repeated call changes nothing more.
   */
  lemma TrackGetOrCreate(t: Table, o: Observed)
    requires KeyedByIdentifier(t)
    ensures KeyedByIdentifier(Track(t, o))
    ensures o.Untrackable? ==> Track(t, o) == t
    ensures o.Trackable? ==> o.info.identifier in Track(t, o)
    ensures o.Trackable? && o.info.identifier in t ==> Track(t, o) == t
    ensures o.Trackable? && o.info.identifier !in t ==>
      Track(t, o).Keys == t.Keys + {o.info.identifier} && Track(t, o)[o.info.identifier] == Record(o.info, 0)
    ensures Track(Track(t, o), o) == Track(t, o)
  {
  }

  /**
   * increment raises the count of exactly the record of the object's
   * identifier by one; every other record is unchanged, the metadata of
   * an existing record is the one captured at its first observation, and an
   * untrackable object changes nothing.
   */
  lemma BumpChangesOneRecord(t: Table, o: Observed, other: string)
    requires KeyedByIdentifier(t)
    ensures KeyedByIdentifier(Bump(t, o))
    ensures o.Untrackable? ==> Bump(t, o) == t
    ensures o.Trackable? ==>
      var id := o.info.identifier;
      && Bump(t, o).Keys == t.Keys + {id}
      && CountOf(Bump(t, o), id) == CountOf(t, id) + 1
      && Bump(t, o)[id].info == (if id in t then t[id].info else o.info)
      && (other != id ==> (other in Bump(t, o) <==> other in t))
      && (other != id && other in t ==> Bump(t, o)[other] == t[other])
  {
  }

  /** Every count is the number of increments of its identifier since the table was created. */
  lemma {:induction false} BumpAllCounts(t: Table, os: seq<Observed>, id: string)
    requires KeyedByIdentifier(t)
    ensures KeyedByIdentifier(BumpAll(t, os))
    ensures CountOf(BumpAll(t, os), id) == CountOf(t, id) + Occurrences(os, id)
    ensures id in BumpAll(t, os) <==> id in t || Occurrences(os, id) > 0
    decreases |os|
  {
    if os != [] {
      var prefix := os[..|os| - 1];
      BumpAllCounts(t, prefix, id);
      BumpChangesOneRecord(BumpAll(t, prefix), os[|os| - 1], id);
    }
  }

  /** After n increments of the same object on a fresh (or freshly cleared) table, its count is n. */
  lemma FreshTableCountsIncrements(info: Info, n: nat)
    ensures CountOf(BumpAll(map[], Repeat(Trackable(info), n)), info.identifier) == n
  {
    var os := Repeat(Trackable(info), n);
    BumpAllCounts(map[], os, info.identifier);
    RepeatOccurrences(info, n);
  }

  lemma {:induction false} RepeatOccurrences(info: Info, n: nat)
    ensures Occurrences(Repeat(Trackable(info), n), info.identifier) == n
  {
    if n > 0 {
      assert Repeat(Trackable(info), n)[..n - 1] == Repeat(Trackable(info), n - 1);
      RepeatOccurrences(info, n - 1);
    }
  }

  // -- The objects --

  /** org.scijava's UsageStats: the metadata captured at creation and a count starting at 0. */
  class UsageStats {
    const info: Info
    var count: nat

    constructor (info: Info)
      ensures this.info == info && count == 0
    {
      this.info := info;
      count := 0;
    }

    function Value(): Record
      reads this
    {
      Record(info, count)
    }

    method Increment()
      modifies this
      ensures count == old(count) + 1
    {
      count := count + 1;
    }
  }

  /** The HashMap from identifier to UsageStats. */
  class StatsTable {
    var entries: map<string, UsageStats>

    constructor ()
      ensures entries == map[]
    {
      entries := map[];
    }

    ghost predicate Valid()
      reads this
    {
      forall id :: id in entries ==> entries[id].info.identifier == id
    }

    /** The table's contents as a value. */
    function Value(): Table
      reads this, entries.Values
    {
      map id | id in entries :: entries[id].Value()
    }
  }

  /** DefaultUsageService: `stats` refers to the live table, replaced wholesale by ClearStats. */
  class UsageService {
    var stats: StatsTable

    ghost predicate Valid()
      reads this, stats
    {
      stats.Valid()
    }

    constructor ()
      ensures Valid() && fresh(stats) && stats.entries == map[]
    {
      stats := new StatsTable();
    }

    /** The live table itself, not a copy. */
    method GetStats() returns (t: StatsTable)
      ensures t == stats
    {
      t := stats;
    }

    /** Installs a fresh empty table; the previous table object is not touched. */
    method ClearStats()
      modifies this
      ensures Valid() && fresh(stats) && stats.entries == map[]
    {
      stats := new StatsTable();
    }

    /** Get-or-create the record of a trackable object; null for an untrackable one. */
    method GetUsage(o: Observed) returns (u: UsageStats?)
      requires Valid()
      modifies stats
      ensures Valid() && stats == old(stats)
      ensures stats.Value() == Track(old(stats.Value()), o)
      ensures u == null <==> o.Untrackable?
      ensures o.Trackable? ==> o.info.identifier in stats.entries && u == stats.entries[o.info.identifier]
      ensures forall id :: id in old(stats.entries) ==> id in stats.entries && stats.entries[id] == old(stats.entries[id])
      ensures forall id :: id in stats.entries && id !in old(stats.entries) ==> fresh(stats.entries[id])
    {
      if o.Untrackable? {
        return null;
      }
      var id := o.info.identifier;
      if id !in stats.entries {
        var created := new UsageStats(o.info);
        stats.entries := stats.entries[id := created];
      }
      u := stats.entries[id];
    }

    /** Adds one to the record of a trackable object; does nothing for an untrackable one. */
    method Increment(o: Observed)
      requires Valid()
      modifies stats, stats.entries.Values
      ensures Valid() && stats == old(stats)
      ensures stats.Value() == Bump(old(stats.Value()), o)
      ensures forall id :: id in old(stats.entries) ==> id in stats.entries && stats.entries[id] == old(stats.entries[id])
      ensures forall id :: id in stats.entries && id !in old(stats.entries) ==> fresh(stats.entries[id])
    {
      ghost var before := stats.Value();
      var usage := GetUsage(o);
      if usage == null {
        return;
      }
      ghost var tracked := stats.Value();
      usage.Increment();
      ghost var id := o.info.identifier;
      forall k | k in stats.entries && k != id
        ensures stats.entries[k] != usage
      {
        assert stats.entries[k].info.identifier == k;
      }
      assert stats.Value() == tracked[id := tracked[id].(count := tracked[id].count + 1)];
    }

    /** The handler of ModuleExecutedEvent: the executed module's info is counted. */
    method OnModuleExecuted(info: Observed)
      requires Valid()
      modifies stats, stats.entries.Values
      ensures Valid() && stats == old(stats)
      ensures stats.Value() == Bump(old(stats.Value()), info)
    {
      Increment(info);
    }
  }

  /**
   * The test helper that builds a record with a given count: a fresh record,
   * incremented n times.
   */
  method RecordWithCount(info: Info, n: nat) returns (u: UsageStats)
    ensures fresh(u) && u.info == info && u.count == n
  {
    u := new UsageStats(info);
    for i := 0 to n
      invariant u.count == i
    {
      u.Increment();
    }
  }

  /**
   * A table reference obtained before ClearStats keeps its contents, and
   * the next increment of an object starts its count afresh at 1.
   */
  method ClearThenIncrement(service: UsageService, o: Observed) returns (snapshot: StatsTable)
    requires service.Valid() && o.Trackable?
    modifies service
    ensures service.Valid()
    ensures snapshot == old(service.stats) && snapshot.Value() == old(service.stats.Value())
    ensures service.stats != snapshot && service.stats.Value().Keys == {o.info.identifier}
    ensures service.stats.Value()[o.info.identifier] == Record(o.info, 1)
  {
    snapshot := service.GetStats();
    service.ClearStats();
    assert service.stats.Value() == map[];
    service.Increment(o);
    assert Bump(map[], o) == map[o.info.identifier := Record(o.info, 1)];
  }

  /** The table returned by GetStats is live: an increment is visible through it. */
  method IncrementThroughLiveTable(service: UsageService, o: Observed) returns (live: StatsTable)
    requires service.Valid()
    modifies service.stats, service.stats.entries.Values
    ensures live == service.stats && live.Value() == Bump(old(service.stats.Value()), o)
  {
    live := service.GetStats();
    service.Increment(o);
  }
}
