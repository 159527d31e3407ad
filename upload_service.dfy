// The upload service: compiling the usage table into one report, the
// anonymised user it is filed under, the server it goes to, and the hourly
// timer (DefaultUsageUploadService).

module UploadService {
  import opened Wrappers
  import opened Json
  import Usage
  import Report
  import Uploader

  newtype Byte = x: int | 0 <= x < 256

  /** getServerURL: every report goes to the same server script. */
  const ServerUrl: string := "http://usage.imagej.net/stats.php"

  /** The upload period: one hour's worth of milliseconds. */
  const Rate: int := 1000 * 60 * 60

  // -- The anonymised user --

  /**
   * What NetworkInterface enumeration yields: the hardware address of each
   * interface in enumeration order (None where it is null), or a failure.
   */
  datatype Network = Interfaces(addresses: seq<Option<seq<Byte>>>) | EnumerationFails

  /** macAddress: the first interface's hardware address; none when there is no interface or enumeration fails. */
  function MacAddress(net: Network): Option<seq<Byte>> {
    match net
    case EnumerationFails => None
    case Interfaces(addresses) => if addresses == [] then None else addresses[0]
  }

  /** The bytes getAnonymizedUser digests: the user name's bytes, then the MAC's bytes (none when there is no MAC). */
  function AnonymizerInput(userName: seq<Byte>, mac: Option<seq<Byte>>): seq<Byte> {
    userName + mac.GetOr([])
  }

  /** getAnonymizedUser: the digest of the user name and first MAC address. */
  function AnonymizedUser(digest: seq<Byte> -> string, userName: seq<Byte>, net: Network): string {
    digest(AnonymizerInput(userName, MacAddress(net)))
  }

  /**
   * For user names of one length, the digested bytes determine the user
   * name and the MAC: equal user names on equal MACs are the only way to
   * share an input.
   */
  lemma AnonymizerInputSplits(u1: seq<Byte>, m1: Option<seq<Byte>>, u2: seq<Byte>, m2: Option<seq<Byte>>)
    requires |u1| == |u2|
    ensures AnonymizerInput(u1, m1) == AnonymizerInput(u2, m2) <==> u1 == u2 && m1.GetOr([]) == m2.GetOr([])
  {
    var a, b := AnonymizerInput(u1, m1), AnonymizerInput(u2, m2);
    if a == b {
      assert u1 == a[..|u1|] && u2 == b[..|u2|];
      assert m1.GetOr([]) == a[|u1|..] && m2.GetOr([]) == b[|u2|..];
    }
  }

  /**
   * Without a length to split at, the input is ambiguous: a user with no
   * MAC and a user whose name is a prefix of it with the rest as MAC are
   * filed under the same token.
   */
  lemma AnonymizerInputAmbiguous(userName: seq<Byte>, mac: seq<Byte>)
    ensures AnonymizerInput(userName + mac, None) == AnonymizerInput(userName, Some(mac))
  {
  }

  /**
   * Only the first interface counts: interfaces after it never change the
   * token, and no interface, a failed enumeration and a null first address
   * all give the token of the user name alone.
   */
  lemma AnonymizedUserFirstInterface(digest: seq<Byte> -> string, userName: seq<Byte>,
                                     first: Option<seq<Byte>>, rest1: seq<Option<seq<Byte>>>, rest2: seq<Option<seq<Byte>>>)
    ensures AnonymizedUser(digest, userName, Interfaces([first] + rest1)) ==
            AnonymizedUser(digest, userName, Interfaces([first] + rest2))
    ensures AnonymizedUser(digest, userName, Interfaces([])) == digest(userName)
    ensures AnonymizedUser(digest, userName, EnumerationFails) == digest(userName)
    ensures AnonymizedUser(digest, userName, Interfaces([None] + rest1)) == digest(userName)
  {
    assert userName + [] == userName;
  }

  // -- Compiling the table --

  /** The records of the table in the given order of identifiers. */
  function Records(t: Usage.Table, order: seq<string>): (rs: seq<Usage.Record>)
    requires forall i :: 0 <= i < |order| ==> order[i] in t
    ensures |rs| == |order| && forall i :: 0 <= i < |order| ==> rs[i] == t[order[i]]
  {
    seq(|order|, i requires 0 <= i < |order| => t[order[i]])
  }

  /** The order a HashMap iterates in: every identifier of the table, once each. */
  predicate Enumerates(order: seq<string>, ids: set<string>) {
    && (forall i :: 0 <= i < |order| ==> order[i] in ids)
    && (forall i, j :: 0 <= i < j < |order| ==> order[i] != order[j])
    && (forall id :: id in ids ==> id in order)
  }

  /** The identifiers, in the given order, of the records the builder accepts. */
  function AcceptedIds(host: Report.Host, t: Usage.Table, order: seq<string>): seq<string>
    requires forall i :: 0 <= i < |order| ==> order[i] in t
    decreases |order|
  {
    if order == [] then []
    else
      var n := |order| - 1;
      var prefix := AcceptedIds(host, t, order[..n]);
      if Report.SiteOf(host, t[order[n]]).Some? then prefix + [order[n]] else prefix
  }

  /** One accepted identifier per stat entry the builder makes. */
  lemma {:induction false} AcceptedIdsCount(host: Report.Host, t: Usage.Table, order: seq<string>)
    requires forall i :: 0 <= i < |order| ==> order[i] in t
    ensures |Report.Attributed(host, Records(t, order))| == |AcceptedIds(host, t, order)|
    decreases |order|
  {
    if order != [] {
      var n := |order| - 1;
      AcceptedIdsCount(host, t, order[..n]);
      assert Records(t, order)[..n] == Records(t, order[..n]);
    }
  }

  /** The accepted identifiers are exactly the entries of the order whose record the builder accepts. */
  lemma {:induction false} AcceptedIdsMembers(host: Report.Host, t: Usage.Table, order: seq<string>)
    requires forall i :: 0 <= i < |order| ==> order[i] in t
    ensures forall id :: id in AcceptedIds(host, t, order) <==> id in order && Report.SiteOf(host, t[id]).Some?
    decreases |order|
  {
    if order != [] {
      var n := |order| - 1;
      AcceptedIdsMembers(host, t, order[..n]);
      forall id ensures id in order <==> id in order[..n] || id == order[n] {
        if id in order {
          var i :| 0 <= i < |order| && order[i] == id;
          if i < n { assert order[..n][i] == id; }
        }
      }
    }
  }

  /** An order without repeats accepts each identifier at most once. */
  lemma {:induction false} AcceptedIdsDistinct(host: Report.Host, t: Usage.Table, order: seq<string>)
    requires forall i :: 0 <= i < |order| ==> order[i] in t
    requires forall i, j :: 0 <= i < j < |order| ==> order[i] != order[j]
    ensures forall i, j :: 0 <= i < j < |AcceptedIds(host, t, order)| ==> AcceptedIds(host, t, order)[i] != AcceptedIds(host, t, order)[j]
    decreases |order|
  {
    if order != [] {
      var n := |order| - 1;
      AcceptedIdsDistinct(host, t, order[..n]);
      AcceptedIdsMembers(host, t, order[..n]);
      var prefix := AcceptedIds(host, t, order[..n]);
      forall i | 0 <= i < |prefix| ensures prefix[i] != order[n] {
        assert prefix[i] in prefix;
        var k :| 0 <= k < n && order[..n][k] == prefix[i];
        assert order[k] == prefix[i];
      }
    }
  }

  /**
   * json(stats) uploads one stat entry per record the builder accepts,
   * whatever order the HashMap iterates in.
   */
  lemma CompiledStatsCount(host: Report.Host, t: Usage.Table, order: seq<string>)
    requires Enumerates(order, t.Keys)
    ensures Report.TotalStats(Report.Build(host, Records(t, order))) ==
      |set id | id in t && Report.SiteOf(host, t[id]).Some?|
  {
    Report.BuildCountsAccepted(host, Records(t, order));
    AcceptedIdsCount(host, t, order);
    AcceptedIdsMembers(host, t, order);
    AcceptedIdsDistinct(host, t, order);
    var ids := AcceptedIds(host, t, order);
    Report.DistinctCardinality(ids);
    assert (set id | id in ids) == (set id | id in t && Report.SiteOf(host, t[id]).Some?);
  }

  /** The records the usage objects hold, in order. */
  function Values(usages: seq<Usage.UsageStats>): (rs: seq<Usage.Record>)
    reads usages
    ensures |rs| == |usages| && forall i :: 0 <= i < |usages| ==> rs[i] == usages[i].Value()
  {
    seq(|usages|, i reads usages requires 0 <= i < |usages| => usages[i].Value())
  }

  /** The loop of json(stats): each usage object, in iteration order, appended to the builder. */
  method AppendAll(builder: Report.Builder, usages: seq<Usage.UsageStats>)
    requires builder.Valid() && builder.siteArray == []
    modifies builder
    ensures builder.Valid()
    ensures builder.View() == Report.Build(builder.host, old(Values(usages)))
  {
    ghost var rs := Values(usages);
    for i := 0 to |usages|
      invariant builder.Valid()
      invariant forall o :: o in builder.siteArray ==> fresh(o)
      invariant builder.View() == Report.Build(builder.host, rs[..i])
    {
      forall k | 0 <= k < |builder.siteArray| ensures fresh(builder.siteArray[k]) {
        assert builder.siteArray[k] in builder.siteArray;
      }
      AppendNext(builder, usages[i], rs, i);
    }
    assert rs[..|usages|] == rs;
  }

  /** One pass of the loop of json(stats): the builder of the first i records, appended record i. */
  method AppendNext(builder: Report.Builder, usage: Usage.UsageStats, ghost rs: seq<Usage.Record>, ghost i: nat)
    requires i < |rs| && usage.Value() == rs[i]
    requires builder.Valid() && builder.View() == Report.Build(builder.host, rs[..i])
    modifies builder, builder.siteArray
    ensures builder.Valid()
    ensures builder.View() == Report.Build(builder.host, rs[..i + 1])
    ensures forall o :: o in builder.siteArray ==> o in old(builder.siteArray) || fresh(o)
  {
    builder.Append(usage);
    assert rs[..i + 1][..i] == rs[..i];
  }

  /** json(stats): the root of a fresh builder to which every record of the table was appended. */
  method CompileJson(host: Report.Host, stats: Usage.StatsTable, order: seq<string>) returns (root: Json)
    requires Enumerates(order, stats.entries.Keys)
    ensures root == Report.RootJson(Report.Build(host, Records(old(stats.Value()), order)))
  {
    var usages := seq(|order|, i requires 0 <= i < |order| && order[i] in stats.entries reads stats => stats.entries[order[i]]);
    assert Values(usages) == Records(stats.Value(), order);
    var builder := new Report.Builder(host);
    AppendAll(builder, usages);
    root := builder.GetJSON();
  }

  // -- The service --

  /** java.util.Timer, reduced to its schedule and whether it was cancelled. */
  class Timer {
    var delay: int
    var period: int
    var cancelled: bool

    constructor ()
      ensures delay == 0 && period == 0 && !cancelled
    {
      delay, period, cancelled := 0, 0, false;
    }

    /** scheduleAtFixedRate, without running the task. */
    method ScheduleAtFixedRate(delay: int, period: int)
      modifies this
      ensures this.delay == delay && this.period == period && cancelled == old(cancelled)
    {
      this.delay, this.period := delay, period;
    }

    method Cancel()
      modifies this
      ensures cancelled && delay == old(delay) && period == old(period)
    {
      cancelled := true;
    }
  }

  /** DefaultUsageUploadService: the usage service it reads, the update sites it filters by, and its timer. */
  class UsageUploadService {
    const usageService: Usage.UsageService
    const host: Report.Host
    var timer: Timer?

    constructor (usageService: Usage.UsageService, host: Report.Host)
      ensures this.usageService == usageService && this.host == host && timer == null
    {
      this.usageService, this.host := usageService, host;
      timer := null;
    }

    /**
     * uploadUsageStatistics: the current table compiled into one report,
     * uploaded for the anonymised user to the server.
     */
    method UploadUsageStatistics(order: seq<string>, userName: seq<Byte>, net: Network,
                                 digest: seq<Byte> -> string, env: Uploader.Env)
      returns (sent: Json, outcome: Uploader.Outcome)
      requires Enumerates(order, usageService.stats.entries.Keys)
      ensures (sent, outcome) == Uploader.UploadSpec(
        Report.RootJson(Report.Build(host, Records(usageService.stats.Value(), order))),
        AnonymizedUser(digest, userName, net), ServerUrl, env)
    {
      var json := CompileStats(order);
      var user := digest(AnonymizerInput(userName, MacAddress(net)));
      sent, outcome := Send(json, user, env);
    }

    /** The handler of ContextDisposingEvent: one last upload before shutting down. */
    method OnContextDisposing(order: seq<string>, userName: seq<Byte>, net: Network,
                              digest: seq<Byte> -> string, env: Uploader.Env)
      returns (sent: Json, outcome: Uploader.Outcome)
      requires Enumerates(order, usageService.stats.entries.Keys)
      ensures (sent, outcome) == Uploader.UploadSpec(
        Report.RootJson(Report.Build(host, Records(usageService.stats.Value(), order))),
        AnonymizedUser(digest, userName, net), ServerUrl, env)
    {
      sent, outcome := UploadUsageStatistics(order, userName, net, digest, env);
    }

    /** The current table of the usage service compiled into a report. */
    method CompileStats(order: seq<string>) returns (json: Json)
      requires Enumerates(order, usageService.stats.entries.Keys)
      ensures json == Report.RootJson(Report.Build(host, Records(usageService.stats.Value(), order)))
    {
      var stats := usageService.GetStats();
      json := CompileJson(host, stats, order);
    }

    /** A JSONUploader for the report, uploading it for the user to the server. */
    method Send(json: Json, user: string, env: Uploader.Env) returns (sent: Json, outcome: Uploader.Outcome)
      ensures (sent, outcome) == Uploader.UploadSpec(json, user, ServerUrl, env)
    {
      var uploader := new Uploader.JsonUploader(json);
      outcome := uploader.Upload(user, ServerUrl, env);
      sent := uploader.json;
    }

    /** initialize: a new timer that fires first after an hour and then every hour. */
    method Initialize()
      modifies this
      ensures timer != null && fresh(timer)
      ensures timer.delay == 3600000 && timer.period == 3600000 && !timer.cancelled
    {
      var t := new Timer();
      t.ScheduleAtFixedRate(Rate, Rate);
      timer := t;
    }

    /** dispose: the timer, if any, is cancelled and dropped. */
    method Dispose()
      modifies this, timer
      ensures timer == null
      ensures old(timer) != null ==> old(timer).cancelled
    {
      if timer != null {
        timer.Cancel();
      }
      timer := null;
    }
  }

  /** Disposing twice is safe and leaves no timer. */
  method DisposeTwice(service: UsageUploadService)
    modifies service, service.timer
    ensures service.timer == null
    ensures old(service.timer) != null ==> old(service.timer).cancelled
  {
    service.Dispose();
    service.Dispose();
  }
}
