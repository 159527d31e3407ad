// The server script that files uploaded reports: one event row per upload,
// one stats row per stat entry, and get-or-create lookups of the user, the
// host profile, the update sites and the counted objects (server/stats.php).
// The MySQL database is a set of in-memory tables whose ids are positions.

module Server {
  import opened Wrappers
  import opened Json
  import Usage
  import Report
  import Uploader

  // -- Values read from the decoded report --

  /** value($array, $key): the stored value, or '' when the array is empty, not an array, or lacks the key. */
  function Value(j: Json, key: string): (v: Json) {
    if j.JObject? then Get(j, key).GetOr(JString("")) else JString("")
  }

  /** value defaults exactly the missing keys to '' and returns the stored value otherwise. */
  lemma ValueDefaults(j: Json, key: string)
    ensures !Has(j, key) ==> Value(j, key) == JString("")
    ensures Has(j, key) ==> Get(j, key) == Some(Value(j, key))
  {
  }

  /** $array[$key]: the stored value, or null when it is missing. */
  function Field(j: Json, key: string): Json {
    if j.JObject? then Get(j, key).GetOr(JNull) else JNull
  }

  /** The values foreach visits: an array's items, an object's values, nothing for a scalar or null. */
  function Elements(j: Json): (es: seq<Json>)
    ensures j.JArray? ==> es == j.items
    ensures j.JObject? ==> |es| == |j.fields| && forall i :: 0 <= i < |es| ==> es[i] == j.fields[i].1
    ensures !j.JArray? && !j.JObject? ==> es == []
  {
    match j
    case JArray(items) => items
    case JObject(fields) => seq(|fields|, i requires 0 <= i < |fields| => fields[i].1)
    case _ => []
  }

  /**
   * foreach over an object visits one value per pair, each a value stored
   * under some key, and it reaches the value has/get find under every key.
   */
  lemma ElementsAreValues(j: Json)
    requires j.JObject?
    ensures |Elements(j)| == |Keys(j.fields)|
    ensures forall v :: v in Elements(j) <==> exists k :: (k, v) in j.fields
    ensures forall k :: Has(j, k) ==> Get(j, k).value in Elements(j)
  {
    var es := Elements(j);
    forall v | v in es ensures exists k :: (k, v) in j.fields {
      var i :| 0 <= i < |es| && es[i] == v;
      assert j.fields[i] == (j.fields[i].0, v);
    }
    forall v | exists k :: (k, v) in j.fields ensures v in es {
      var k :| (k, v) in j.fields;
      var i :| 0 <= i < |j.fields| && j.fields[i] == (k, v);
      assert es[i] == v;
    }
    forall k | Has(j, k) ensures Get(j, k).value in es {
      var i :| 0 <= i < |j.fields| && j.fields[i] == (k, Get(j, k).value);
      assert es[i] == Get(j, k).value;
    }
  }

  /** The stat entries of one uploaded site. */
  function StatsOf(site: Json): seq<Json> {
    Elements(Field(site, "stats"))
  }

  // -- Tables --

  /** A row holds its columns in declaration order, the auto-increment id left out. */
  type Row = seq<Json>

  /** A table's rows in insertion order; the id of the row at index i is i + 1. */
  type Table = seq<Row>

  /** SQL equality: NULL equals nothing, not even NULL. */
  predicate SqlEq(a: Json, b: Json) {
    a != JNull && b != JNull && a == b
  }

  /** The WHERE clause: each listed column equals its key value. */
  predicate Matches(row: Row, cols: seq<nat>, key: seq<Json>) {
    |cols| == |key| && forall i :: 0 <= i < |cols| ==> cols[i] < |row| && SqlEq(row[cols[i]], key[i])
  }

  /** The columns 0, ..., n - 1. */
  function AllColumns(n: nat): (cols: seq<nat>)
    ensures |cols| == n && forall i :: 0 <= i < n ==> cols[i] == i
  {
    seq(n, i => i)
  }

  /**
   * select: the id of a matching row, or 0 (falsy) when none matches. The
   * SQL has no ORDER BY; the model takes the lowest-id matching row, which
   * is the only one wherever the model inserts no duplicate key.
   */
  function Select(t: Table, cols: seq<nat>, key: seq<Json>): (id: nat)
    ensures id <= |t|
    decreases |t|
  {
    if t == [] then 0
    else
      var found := Select(t[..|t| - 1], cols, key);
      if found != 0 then found
      else if Matches(t[|t| - 1], cols, key) then |t|
      else 0
  }

  /** select finds nothing exactly when no row matches, and otherwise the first row that matches. */
  lemma {:induction false} SelectFirst(t: Table, cols: seq<nat>, key: seq<Json>)
    ensures var id := Select(t, cols, key);
      && (id == 0 <==> forall i :: 0 <= i < |t| ==> !Matches(t[i], cols, key))
      && (id > 0 ==> Matches(t[id - 1], cols, key) && forall i :: 0 <= i < id - 1 ==> !Matches(t[i], cols, key))
    decreases |t|
  {
    if t != [] {
      var n := |t| - 1;
      SelectFirst(t[..n], cols, key);
      assert forall i :: 0 <= i < n ==> t[..n][i] == t[i];
    }
  }

  /** The row holds the key in the given columns (plain equality, NULL included). */
  predicate Filed(row: Row, cols: seq<nat>, key: seq<Json>) {
    |cols| == |key| && forall i :: 0 <= i < |cols| ==> cols[i] < |row| && row[cols[i]] == key[i]
  }

  /** The id column value names a row of the table that holds the key in the given columns. */
  predicate Names(t: Table, id: Json, cols: seq<nat>, key: seq<Json>) {
    id.JInt? && 1 <= id.num <= |t| && Filed(t[id.num - 1], cols, key)
  }

  /** An id keeps naming the same row while rows are appended. */
  lemma NamesGrow(t: Table, t': Table, id: Json, cols: seq<nat>, key: seq<Json>)
    requires Names(t, id, cols, key) && t <= t'
    ensures Names(t', id, cols, key)
  {
    assert t'[id.num - 1] == t[id.num - 1];
  }

  /** The lookup pattern: the id of the first matching row, or a new row inserted with the next id. */
  function GetOrCreate(t: Table, cols: seq<nat>, key: seq<Json>, row: Row): (Table, nat) {
    var found := Select(t, cols, key);
    if found != 0 then (t, found) else (t + [row], |t| + 1)
  }

  /**
   * A lookup returns the id of a row matching the key, adds at most one
   * row, and never changes an existing row; it adds the given row exactly
   * when no row matched.
   */
  lemma GetOrCreateSpec(t: Table, cols: seq<nat>, key: seq<Json>, row: Row)
    requires Matches(row, cols, key)
    ensures var (t', id) := GetOrCreate(t, cols, key, row);
      && 1 <= id <= |t'| && Matches(t'[id - 1], cols, key)
      && t'[..|t|] == t && |t| <= |t'| <= |t| + 1
      && (|t'| == |t| + 1 <==> forall i :: 0 <= i < |t| ==> !Matches(t[i], cols, key))
      && (|t'| == |t| + 1 ==> t'[|t|] == row && id == |t'|)
  {
    SelectFirst(t, cols, key);
    var (t', id) := GetOrCreate(t, cols, key, row);
    assert t'[..|t|] == t;
  }

  /**
   * Whether a lookup finds a row or inserts its own, the id it returns
   * names a row holding the key, provided its own row holds the key.
   */
  lemma GetOrCreateNames(t: Table, cols: seq<nat>, key: seq<Json>, row: Row)
    requires Filed(row, cols, key)
    ensures var (t', id) := GetOrCreate(t, cols, key, row);
      t <= t' && Names(t', JInt(id), cols, key)
  {
    SelectFirst(t, cols, key);
  }

  /** A lookup whose row is its key returns an id naming a row that holds the key. */
  lemma OwnKeyNamed(t: Table, n: nat, key: seq<Json>)
    requires |key| == n
    ensures var (t', id) := GetOrCreate(t, AllColumns(n), key, key);
      Names(t', JInt(id), AllColumns(n), key)
  {
    assert Filed(key, AllColumns(n), key);
    GetOrCreateNames(t, AllColumns(n), key, key);
  }

  /** Looking up the same key twice returns the same id and adds nothing the second time. */
  lemma GetOrCreateIdempotent(t: Table, cols: seq<nat>, key: seq<Json>, row: Row, row2: Row)
    requires Matches(row, cols, key)
    ensures var (t', id) := GetOrCreate(t, cols, key, row);
      GetOrCreate(t', cols, key, row2) == (t', id)
  {
    var (t', id) := GetOrCreate(t, cols, key, row);
    SelectFirst(t, cols, key);
    SelectFirst(t', cols, key);
    if Select(t, cols, key) == 0 {
      assert t'[..|t|] == t;
      assert Matches(t'[|t|], cols, key);
      assert forall i :: 0 <= i < |t| ==> t'[i] == t[i];
    }
  }

  /** A key with a NULL in it matches no row, so every lookup of it inserts another row. */
  lemma NullKeyAlwaysInserts(t: Table, cols: seq<nat>, key: seq<Json>, row: Row, m: nat)
    requires m < |key| && key[m] == JNull
    ensures GetOrCreate(t, cols, key, row) == (t + [row], |t| + 1)
  {
    SelectFirst(t, cols, key);
    assert forall i :: 0 <= i < |t| ==> !Matches(t[i], cols, key) by {
      forall i | 0 <= i < |t| ensures !Matches(t[i], cols, key) {
        if |cols| == |key| && cols[m] < |t[i]| {
          assert !SqlEq(t[i][cols[m]], key[m]);
        }
      }
    }
  }

  /** A key compared column by column with the same values in a row of its own. */
  lemma OwnRowMatches(key: seq<Json>)
    requires forall i :: 0 <= i < |key| ==> key[i] != JNull
    ensures Matches(key, AllColumns(|key|), key)
  {
  }

  /** The whole database. */
  datatype Db = Db(
    users: Table, countries: Table, languages: Table, timezones: Table, os: Table,
    java: Table, sites: Table, objects: Table, events: Table, stats: Table)

  /** Every table of the first database is a prefix of the same table in the second: rows are only ever appended. */
  predicate Grown(db: Db, db': Db) {
    && db.users <= db'.users && db.countries <= db'.countries && db.languages <= db'.languages
    && db.timezones <= db'.timezones && db.os <= db'.os && db.java <= db'.java
    && db.sites <= db'.sites && db.objects <= db'.objects && db.events <= db'.events
    && db.stats <= db'.stats
  }

  // -- The lookups --

  function UserKey(json: Json): Row {
    [Value(json, "user")]
  }

  function CountryKey(json: Json): Row {
    [Value(json, "user_country")]
  }

  function LanguageKey(json: Json): Row {
    [Value(json, "user_language")]
  }

  function TimezoneKey(json: Json): Row {
    [Value(json, "user_timezone")]
  }

  /** The os columns: name, arch, version. */
  function OsKey(json: Json): Row {
    [Value(json, "os_name"), Value(json, "os_arch"), Value(json, "os_version")]
  }

  /** The java columns, in the order the table declares them. */
  function JavaKey(json: Json): Row {
    [Value(json, "java_runtime_name"), Value(json, "java_runtime_version"),
     Value(json, "java_specification_name"), Value(json, "java_specification_vendor"),
     Value(json, "java_specification_version"),
     Value(json, "java_vendor"), Value(json, "java_version"),
     Value(json, "java_vm_name"), Value(json, "java_vm_vendor"), Value(json, "java_vm_version"),
     Value(json, "java_vm_specification_name"), Value(json, "java_vm_specification_vendor"),
     Value(json, "java_vm_specification_version")]
  }

  /** The sites columns: name, url. */
  function SiteKey(site: Json): Row {
    [Value(site, "name"), Value(site, "url")]
  }

  /** An object is looked up by identifier and version, columns 0 and 2 of its row. */
  const ObjectKeyColumns: seq<nat> := [0, 2]

  function ObjectKey(stat: Json): Row {
    [Value(stat, "id"), Value(stat, "version")]
  }

  /**
   * insertObject's row: identifier, site_id, version, name, label,
   * description. insertObject re-reads value($stat, 'id'), so the
   * identifier is the one uploaded, whatever insertStat computes from it.
   */
  function ObjectRow(stat: Json, siteId: nat): Row {
    [Value(stat, "id"), JInt(siteId), Value(stat, "version"),
     Value(stat, "name"), Value(stat, "label"), Value(stat, "description")]
  }

  /** lookupObject: the first object with the stat's identifier and version, or a new one. */
  function LookupObjectSpec(objects: Table, stat: Json, siteId: nat): (Table, nat) {
    GetOrCreate(objects, ObjectKeyColumns, ObjectKey(stat), ObjectRow(stat, siteId))
  }

  /**
   * An object already filed under the stat's identifier and version is
   * reused as it is: its site, name, label and description stay those of
   * its first insertion, whatever this stat says.
   */
  lemma LookupObjectFirstWins(objects: Table, stat: Json, siteId: nat, k: nat)
    requires k < |objects| && Matches(objects[k], ObjectKeyColumns, ObjectKey(stat))
    ensures var (objects', id) := LookupObjectSpec(objects, stat, siteId);
      objects' == objects && 1 <= id <= k + 1 && Matches(objects[id - 1], ObjectKeyColumns, ObjectKey(stat))
  {
    SelectFirst(objects, ObjectKeyColumns, ObjectKey(stat));
  }

  // -- The processing steps on the database value --

  function LookupUserSpec(db: Db, json: Json): (Db, nat) {
    var (t, id) := GetOrCreate(db.users, AllColumns(1), UserKey(json), UserKey(json));
    (db.(users := t), id)
  }

  function LookupCountrySpec(db: Db, json: Json): (Db, nat) {
    var (t, id) := GetOrCreate(db.countries, AllColumns(1), CountryKey(json), CountryKey(json));
    (db.(countries := t), id)
  }

  function LookupLanguageSpec(db: Db, json: Json): (Db, nat) {
    var (t, id) := GetOrCreate(db.languages, AllColumns(1), LanguageKey(json), LanguageKey(json));
    (db.(languages := t), id)
  }

  function LookupTimezoneSpec(db: Db, json: Json): (Db, nat) {
    var (t, id) := GetOrCreate(db.timezones, AllColumns(1), TimezoneKey(json), TimezoneKey(json));
    (db.(timezones := t), id)
  }

  function LookupOsSpec(db: Db, json: Json): (Db, nat) {
    var (t, id) := GetOrCreate(db.os, AllColumns(3), OsKey(json), OsKey(json));
    (db.(os := t), id)
  }

  function LookupJavaSpec(db: Db, json: Json): (Db, nat) {
    var (t, id) := GetOrCreate(db.java, AllColumns(13), JavaKey(json), JavaKey(json));
    (db.(java := t), id)
  }

  function LookupSiteSpec(db: Db, site: Json): (Db, nat) {
    var (t, id) := GetOrCreate(db.sites, AllColumns(2), SiteKey(site), SiteKey(site));
    (db.(sites := t), id)
  }

  /** insertEvent's row: timestamp, ip_address, then the six ids. */
  function EventRow(timestamp: string, ip: string, ids: seq<nat>): Row
    requires |ids| == 6
  {
    [JString(timestamp), JString(ip), JInt(ids[0]), JInt(ids[1]), JInt(ids[2]), JInt(ids[3]), JInt(ids[4]), JInt(ids[5])]
  }

  /** The six lookups and the event insertion of processStats, with the new event's id. */
  function EventSpec(db: Db, json: Json, timestamp: string, ip: string): (Db, nat) {
    var (db1, userId) := LookupUserSpec(db, json);
    var (db2, countryId) := LookupCountrySpec(db1, json);
    var (db3, languageId) := LookupLanguageSpec(db2, json);
    var (db4, timezoneId) := LookupTimezoneSpec(db3, json);
    var (db5, osId) := LookupOsSpec(db4, json);
    var (db6, javaId) := LookupJavaSpec(db5, json);
    var row := EventRow(timestamp, ip, [userId, countryId, languageId, timezoneId, osId, javaId]);
    (db6.(events := db6.events + [row]), |db6.events| + 1)
  }

  /** The index of the first c in s, or |s| when there is none. */
  function FirstIndex(s: string, c: char): (i: nat)
    ensures i <= |s| && (i < |s| ==> s[i] == c)
    ensures forall k :: 0 <= k < i ==> s[k] != c
  {
    if s == [] then 0 else if s[0] == c then 0 else 1 + FirstIndex(s[1..], c)
  }

  const LegacyPrefix: string := "legacy:"

  /**
   * preg_replace('/^(legacy:[^?]*)\?.*\/.*$/', '$1', s): a legacy identifier
   * whose argument, after the first '?', holds a '/' is cut back to the
   * part before that '?'. As in PCRE, '.' matches no newline and '$' also
   * matches before a final newline, which then stays.
   */
  function PurgeLegacyArg(s: string): (r: string)
    ensures r == s || (LegacyPrefix <= r && |r| < |s| && '?' !in r)
  {
    var p := FirstIndex(s, '?');
    if !(LegacyPrefix <= s && p < |s|) then s
    else
      var rest := s[p + 1..];
      var keepNewline := |rest| > 0 && rest[|rest| - 1] == '\n';
      var line := if keepNewline then rest[..|rest| - 1] else rest;
      if '/' in line && '\n' !in line then
        PrefixBeforeQuestionMark(s, p);
        s[..p] + (if keepNewline then "\n" else "")
      else s
  }

  /** A legacy identifier's first '?' comes after the prefix, which the part before it keeps. */
  lemma PrefixBeforeQuestionMark(s: string, p: nat)
    requires LegacyPrefix <= s && p == FirstIndex(s, '?') && p < |s|
    ensures LegacyPrefix <= s[..p] && '?' !in s[..p]
  {
  }

  /** The clean-up on value($stat, 'id'); a non-string value holds no legacy prefix and comes back as it is. */
  function PurgeIdentifier(identifier: Json): Json {
    match identifier
    case JString(s) => JString(PurgeLegacyArg(s))
    case _ => identifier
  }

  /** The first '?' of a legacy identifier is the one after its name, when the name holds none. */
  lemma FirstQuestionMark(a: string, b: string)
    requires '?' !in a
    ensures FirstIndex(LegacyPrefix + a + "?" + b, '?') == |LegacyPrefix + a|
  {
    var s := LegacyPrefix + a + "?" + b;
    var n := |LegacyPrefix + a|;
    assert s[n] == '?';
  }

  /** The clean-up cuts a legacy argument holding a path back to the name. */
  lemma PurgeCutsPath(a: string, b: string)
    requires '?' !in a && '/' in b && '\n' !in b
    ensures PurgeLegacyArg(LegacyPrefix + a + "?" + b) == LegacyPrefix + a
  {
    var s := LegacyPrefix + a + "?" + b;
    FirstQuestionMark(a, b);
    assert s[|LegacyPrefix + a| + 1..] == b;
    assert s[..|LegacyPrefix + a|] == LegacyPrefix + a;
    assert LegacyPrefix <= s;
  }

  /** The clean-up keeps a legacy argument without a '/', and any identifier that is not legacy. */
  lemma PurgeKeepsOthers(a: string, b: string, other: string)
    requires '?' !in a && '/' !in b && !(LegacyPrefix <= other)
    ensures PurgeLegacyArg(LegacyPrefix + a + "?" + b) == LegacyPrefix + a + "?" + b
    ensures PurgeLegacyArg(other) == other
  {
    var s := LegacyPrefix + a + "?" + b;
    FirstQuestionMark(a, b);
    assert s[|LegacyPrefix + a| + 1..] == b;
  }

  /**
   * insertStat: the object looked up, then a stats row of event, object and
   * count. The legacy clean-up is computed and its result discarded.
   */
  function InsertStatSpec(db: Db, eventId: nat, stat: Json, siteId: nat): Db {
    var purged := PurgeIdentifier(Value(stat, "id"));
    var (objects, objectId) := LookupObjectSpec(db.objects, stat, siteId);
    db.(objects := objects, stats := db.stats + [[JInt(eventId), JInt(objectId), Value(stat, "count")]])
  }

  /** The inner loop: stats[0], ..., stats[|stats| - 1] inserted in order. */
  function StatsSpec(db: Db, eventId: nat, stats: seq<Json>, siteId: nat): Db
    decreases |stats|
  {
    if stats == [] then db
    else InsertStatSpec(StatsSpec(db, eventId, stats[..|stats| - 1], siteId), eventId, stats[|stats| - 1], siteId)
  }

  /** One pass of the outer loop: the site looked up, then its stats inserted. */
  function SiteSpec(db: Db, eventId: nat, site: Json): Db {
    var (db1, siteId) := LookupSiteSpec(db, site);
    StatsSpec(db1, eventId, StatsOf(site), siteId)
  }

  /** The outer loop: sites[0], ..., sites[|sites| - 1] processed in order. */
  function SitesSpec(db: Db, eventId: nat, sites: seq<Json>): Db
    decreases |sites|
  {
    if sites == [] then db else SiteSpec(SitesSpec(db, eventId, sites[..|sites| - 1]), eventId, sites[|sites| - 1])
  }

  /** The uploaded sites processStats iterates over. */
  function SitesOf(json: Json): seq<Json> {
    Elements(Field(json, "sites"))
  }

  /** processStats: the database afterwards and the message it answers with. */
  function ProcessSpec(db: Db, data: string, json: Json, connected: bool, timestamp: string, ip: string): (Db, string) {
    if |data| == 0 then (db, "No statistics to process")
    else if !connected then (db, "Cannot connect to database")
    else (ReportSpec(db, json, timestamp, ip), "Statistics processed")
  }

  /** The work processStats does once connected: the event, then every uploaded site. */
  function ReportSpec(db: Db, json: Json, timestamp: string, ip: string): Db {
    var (db1, eventId) := EventSpec(db, json, timestamp, ip);
    SitesSpec(db1, eventId, SitesOf(json))
  }

  // -- What processing a report does --

  /** Every stat entry of every site, in upload order. */
  function AllStats(sites: seq<Json>): seq<Json>
    decreases |sites|
  {
    if sites == [] then [] else AllStats(sites[..|sites| - 1]) + StatsOf(sites[|sites| - 1])
  }

  /**
   * The stats row a stat entry of an event becomes: the event's id, the id
   * of an object filed under the stat's identifier and version, and the
   * stat's count.
   */
  predicate StatRowOf(row: Row, eventId: nat, stat: Json, objects: Table) {
    && |row| == 3 && row[0] == JInt(eventId)
    && Names(objects, row[1], ObjectKeyColumns, ObjectKey(stat))
    && row[2] == Value(stat, "count")
  }

  /** One stats row per stat entry, in the same order, all of one event. */
  predicate StatRows(rows: Table, eventId: nat, stats: seq<Json>, objects: Table) {
    |rows| == |stats| && forall i :: 0 <= i < |rows| ==> StatRowOf(rows[i], eventId, stats[i], objects)
  }

  lemma StatRowsConcat(rows1: Table, rows2: Table, eventId: nat, stats1: seq<Json>, stats2: seq<Json>, objects: Table)
    requires StatRows(rows1, eventId, stats1, objects) && StatRows(rows2, eventId, stats2, objects)
    ensures StatRows(rows1 + rows2, eventId, stats1 + stats2, objects)
  {
    forall i | 0 <= i < |rows1 + rows2| ensures StatRowOf((rows1 + rows2)[i], eventId, (stats1 + stats2)[i], objects) {
      if i >= |rows1| {
        assert (rows1 + rows2)[i] == rows2[i - |rows1|];
      }
    }
  }

  /** Stats rows keep naming their objects while the objects table grows. */
  lemma StatRowsGrow(rows: Table, eventId: nat, stats: seq<Json>, objects: Table, objects': Table)
    requires StatRows(rows, eventId, stats, objects) && objects <= objects'
    ensures StatRows(rows, eventId, stats, objects')
  {
    forall i | 0 <= i < |rows| ensures StatRowOf(rows[i], eventId, stats[i], objects') {
      NamesGrow(objects, objects', rows[i][1], ObjectKeyColumns, ObjectKey(stats[i]));
    }
  }

  /** Rows appended after a prefix, where the prefix itself had rows appended before. */
  lemma AppendedRows(base: Table, mid: Table, last: Table)
    requires base <= mid <= last
    ensures last[|base|..] == mid[|base|..] + last[|mid|..]
  {
  }

  /** Inserting stats only grows the objects and stats tables and leaves the others alone. */
  lemma {:induction false} StatsSpecGrows(db: Db, eventId: nat, stats: seq<Json>, siteId: nat)
    ensures var db' := StatsSpec(db, eventId, stats, siteId);
      Grown(db, db') && db' == db.(objects := db'.objects, stats := db'.stats)
    decreases |stats|
  {
    if stats != [] {
      var n := |stats| - 1;
      var mid := StatsSpec(db, eventId, stats[..n], siteId);
      StatsSpecGrows(db, eventId, stats[..n], siteId);
      var db' := StatsSpec(db, eventId, stats, siteId);
      assert db' == InsertStatSpec(mid, eventId, stats[n], siteId);
      InsertStatRow(mid, eventId, stats[n], siteId);
      GrownTransitive(db, mid, db');
    }
  }

  /** Inserting stats adds one stats row per entry, in order, each naming the object of its entry. */
  lemma {:induction false} StatsSpecRows(db: Db, eventId: nat, stats: seq<Json>, siteId: nat)
    ensures var db' := StatsSpec(db, eventId, stats, siteId);
      db.stats <= db'.stats && StatRows(db'.stats[|db.stats|..], eventId, stats, db'.objects)
    decreases |stats|
  {
    if stats != [] {
      var n := |stats| - 1;
      var mid := StatsSpec(db, eventId, stats[..n], siteId);
      StatsSpecRows(db, eventId, stats[..n], siteId);
      var db' := StatsSpec(db, eventId, stats, siteId);
      assert db' == InsertStatSpec(mid, eventId, stats[n], siteId);
      InsertStatRow(mid, eventId, stats[n], siteId);
      StatRowsGrow(mid.stats[|db.stats|..], eventId, stats[..n], mid.objects, db'.objects);
      AppendedRows(db.stats, mid.stats, db'.stats);
      StatRowsConcat(mid.stats[|db.stats|..], db'.stats[|mid.stats|..], eventId, stats[..n], [stats[n]], db'.objects);
      assert stats[..n] + [stats[n]] == stats;
    }
  }

  /**
   * insertStat adds exactly one stats row: this event, the object that
   * lookupObject filed under the stat's identifier and version, and the
   * count. Besides, it only grows the objects table.
   */
  lemma InsertStatRow(db: Db, eventId: nat, stat: Json, siteId: nat)
    ensures var db' := InsertStatSpec(db, eventId, stat, siteId);
      && Grown(db, db')
      && |db'.stats| == |db.stats| + 1 && StatRows(db'.stats[|db.stats|..], eventId, [stat], db'.objects)
      && db' == db.(objects := db'.objects, stats := db'.stats)
  {
    GetOrCreateGrows(db.objects, ObjectKeyColumns, ObjectKey(stat), ObjectRow(stat, siteId));
    assert Filed(ObjectRow(stat, siteId), ObjectKeyColumns, ObjectKey(stat));
    GetOrCreateNames(db.objects, ObjectKeyColumns, ObjectKey(stat), ObjectRow(stat, siteId));
  }

  /**
   * The clean-up's result never reaches the database: a stat whose legacy
   * identifier the clean-up would cut still files a new object under the
   * identifier as uploaded.
   */
  lemma PurgeDiscarded(db: Db, eventId: nat, stat: Json, siteId: nat)
    requires PurgeIdentifier(Value(stat, "id")) != Value(stat, "id")
    requires forall i :: 0 <= i < |db.objects| ==> !Matches(db.objects[i], ObjectKeyColumns, ObjectKey(stat))
    ensures var db' := InsertStatSpec(db, eventId, stat, siteId);
      && |db'.objects| == |db.objects| + 1
      && db'.objects[|db.objects|][0] == Value(stat, "id") != PurgeIdentifier(Value(stat, "id"))
  {
    SelectFirst(db.objects, ObjectKeyColumns, ObjectKey(stat));
  }

  lemma GrownTransitive(a: Db, b: Db, c: Db)
    requires Grown(a, b) && Grown(b, c)
    ensures Grown(a, c)
  {
  }

  /** A lookup never changes an existing row. */
  lemma GetOrCreateGrows(t: Table, cols: seq<nat>, key: seq<Json>, row: Row)
    ensures var t' := GetOrCreate(t, cols, key, row).0;
      t <= t' && |t'| <= |t| + 1
  {
  }

  /** Processing the sites adds one stats row per stat entry, in upload order, and only grows tables. */
  lemma {:induction false} SitesSpecRows(db: Db, eventId: nat, sites: seq<Json>)
    ensures var db' := SitesSpec(db, eventId, sites);
      && Grown(db, db')
      && db'.events == db.events
      && StatRows(db'.stats[|db.stats|..], eventId, AllStats(sites), db'.objects)
    decreases |sites|
  {
    if sites != [] {
      var n := |sites| - 1;
      var mid := SitesSpec(db, eventId, sites[..n]);
      SitesSpecRows(db, eventId, sites[..n]);
      var (db1, siteId) := LookupSiteSpec(mid, sites[n]);
      GetOrCreateGrows(mid.sites, AllColumns(2), SiteKey(sites[n]), SiteKey(sites[n]));
      StatsSpecRows(db1, eventId, StatsOf(sites[n]), siteId);
      StatsSpecGrows(db1, eventId, StatsOf(sites[n]), siteId);
      var db' := SitesSpec(db, eventId, sites);
      assert db' == StatsSpec(db1, eventId, StatsOf(sites[n]), siteId);
      StatRowsGrow(mid.stats[|db.stats|..], eventId, AllStats(sites[..n]), mid.objects, db'.objects);
      AppendedRows(db.stats, mid.stats, db'.stats);
      StatRowsConcat(mid.stats[|db.stats|..], db'.stats[|mid.stats|..], eventId, AllStats(sites[..n]), StatsOf(sites[n]), db'.objects);
    }
  }

  /**
   * insertEvent's row: the timestamp, the address, and ids naming the rows
   * of the user, country, language, timezone, OS and Java profile the
   * report gives.
   */
  predicate EventFiled(row: Row, db: Db, json: Json, timestamp: string, ip: string) {
    && |row| == 8 && row[0] == JString(timestamp) && row[1] == JString(ip)
    && Names(db.users, row[2], AllColumns(1), UserKey(json))
    && Names(db.countries, row[3], AllColumns(1), CountryKey(json))
    && Names(db.languages, row[4], AllColumns(1), LanguageKey(json))
    && Names(db.timezones, row[5], AllColumns(1), TimezoneKey(json))
    && Names(db.os, row[6], AllColumns(3), OsKey(json))
    && Names(db.java, row[7], AllColumns(13), JavaKey(json))
  }

  /** An event row keeps naming its rows while the tables grow. */
  lemma EventFiledGrow(row: Row, db: Db, db': Db, json: Json, timestamp: string, ip: string)
    requires EventFiled(row, db, json, timestamp, ip) && Grown(db, db')
    ensures EventFiled(row, db', json, timestamp, ip)
  {
    NamesGrow(db.users, db'.users, row[2], AllColumns(1), UserKey(json));
    NamesGrow(db.countries, db'.countries, row[3], AllColumns(1), CountryKey(json));
    NamesGrow(db.languages, db'.languages, row[4], AllColumns(1), LanguageKey(json));
    NamesGrow(db.timezones, db'.timezones, row[5], AllColumns(1), TimezoneKey(json));
    NamesGrow(db.os, db'.os, row[6], AllColumns(3), OsKey(json));
    NamesGrow(db.java, db'.java, row[7], AllColumns(13), JavaKey(json));
  }

  /**
   * The six lookups only grow their tables, and the event row is appended
   * last with the next id, holding the timestamp, the address and the ids
   * of the rows looked up.
   */
  lemma EventSpecRows(db: Db, json: Json, timestamp: string, ip: string)
    ensures var (db', eventId) := EventSpec(db, json, timestamp, ip);
      && Grown(db, db')
      && |db'.events| == |db.events| + 1 && eventId == |db'.events|
      && EventFiled(db'.events[|db.events|], db', json, timestamp, ip)
      && db'.stats == db.stats && db'.sites == db.sites && db'.objects == db.objects
  {
    EventSpecGrows(db, json, timestamp, ip);
    EventSpecFiled(db, json, timestamp, ip);
  }

  lemma EventSpecGrows(db: Db, json: Json, timestamp: string, ip: string)
    ensures var (db', eventId) := EventSpec(db, json, timestamp, ip);
      && Grown(db, db')
      && |db'.events| == |db.events| + 1 && eventId == |db'.events|
      && db'.stats == db.stats && db'.sites == db.sites && db'.objects == db.objects
  {
    var (db1, userId) := LookupUserSpec(db, json);
    var (db2, countryId) := LookupCountrySpec(db1, json);
    var (db3, languageId) := LookupLanguageSpec(db2, json);
    var (db4, timezoneId) := LookupTimezoneSpec(db3, json);
    var (db5, osId) := LookupOsSpec(db4, json);
    var (db6, javaId) := LookupJavaSpec(db5, json);
    GetOrCreateGrows(db.users, AllColumns(1), UserKey(json), UserKey(json));
    GetOrCreateGrows(db1.countries, AllColumns(1), CountryKey(json), CountryKey(json));
    GetOrCreateGrows(db2.languages, AllColumns(1), LanguageKey(json), LanguageKey(json));
    GetOrCreateGrows(db3.timezones, AllColumns(1), TimezoneKey(json), TimezoneKey(json));
    GetOrCreateGrows(db4.os, AllColumns(3), OsKey(json), OsKey(json));
    GetOrCreateGrows(db5.java, AllColumns(13), JavaKey(json), JavaKey(json));
    var (db', eventId) := EventSpec(db, json, timestamp, ip);
    assert db'.events[..|db.events|] == db.events;
  }

  lemma EventSpecFiled(db: Db, json: Json, timestamp: string, ip: string)
    ensures var (db', eventId) := EventSpec(db, json, timestamp, ip);
      |db'.events| == |db.events| + 1 && EventFiled(db'.events[|db.events|], db', json, timestamp, ip)
  {
    var (db1, userId) := LookupUserSpec(db, json);
    var (db2, countryId) := LookupCountrySpec(db1, json);
    var (db3, languageId) := LookupLanguageSpec(db2, json);
    var (db4, timezoneId) := LookupTimezoneSpec(db3, json);
    var (db5, osId) := LookupOsSpec(db4, json);
    var (db6, javaId) := LookupJavaSpec(db5, json);
    LookupsNamed(db, json);
    var ids := [userId, countryId, languageId, timezoneId, osId, javaId];
    var row := EventRow(timestamp, ip, ids);
    var db' := db6.(events := db6.events + [row]);
    assert EventSpec(db, json, timestamp, ip) == (db', |db6.events| + 1);
    EventRowFiled(db', ids, json, timestamp, ip);
  }

  /** insertEvent's row is filed as the report's event when its six ids name the rows of the report's keys. */
  lemma EventRowFiled(db: Db, ids: seq<nat>, json: Json, timestamp: string, ip: string)
    requires |ids| == 6
    requires Names(db.users, JInt(ids[0]), AllColumns(1), UserKey(json))
    requires Names(db.countries, JInt(ids[1]), AllColumns(1), CountryKey(json))
    requires Names(db.languages, JInt(ids[2]), AllColumns(1), LanguageKey(json))
    requires Names(db.timezones, JInt(ids[3]), AllColumns(1), TimezoneKey(json))
    requires Names(db.os, JInt(ids[4]), AllColumns(3), OsKey(json))
    requires Names(db.java, JInt(ids[5]), AllColumns(13), JavaKey(json))
    ensures EventFiled(EventRow(timestamp, ip, ids), db, json, timestamp, ip)
  {
  }

  /** Each of the six lookups returns an id naming a row that holds its key, in the tables as the last lookup leaves them. */
  lemma LookupsNamed(db: Db, json: Json)
    ensures var (db1, userId) := LookupUserSpec(db, json);
      var (db2, countryId) := LookupCountrySpec(db1, json);
      var (db3, languageId) := LookupLanguageSpec(db2, json);
      var (db4, timezoneId) := LookupTimezoneSpec(db3, json);
      var (db5, osId) := LookupOsSpec(db4, json);
      var (db6, javaId) := LookupJavaSpec(db5, json);
      && Names(db6.users, JInt(userId), AllColumns(1), UserKey(json))
      && Names(db6.countries, JInt(countryId), AllColumns(1), CountryKey(json))
      && Names(db6.languages, JInt(languageId), AllColumns(1), LanguageKey(json))
      && Names(db6.timezones, JInt(timezoneId), AllColumns(1), TimezoneKey(json))
      && Names(db6.os, JInt(osId), AllColumns(3), OsKey(json))
      && Names(db6.java, JInt(javaId), AllColumns(13), JavaKey(json))
  {
    var (db1, userId) := LookupUserSpec(db, json);
    var (db2, countryId) := LookupCountrySpec(db1, json);
    var (db3, languageId) := LookupLanguageSpec(db2, json);
    var (db4, timezoneId) := LookupTimezoneSpec(db3, json);
    var (db5, osId) := LookupOsSpec(db4, json);
    OwnKeyNamed(db.users, 1, UserKey(json));
    OwnKeyNamed(db1.countries, 1, CountryKey(json));
    OwnKeyNamed(db2.languages, 1, LanguageKey(json));
    OwnKeyNamed(db3.timezones, 1, TimezoneKey(json));
    OwnKeyNamed(db4.os, 3, OsKey(json));
    OwnKeyNamed(db5.java, 13, JavaKey(json));
  }

  /**
   * processStats: an empty body touches nothing and answers 'No statistics
   * to process'; a failed connection touches nothing and answers 'Cannot
   * connect to database'; otherwise exactly one event row is added, holding
   * the timestamp, the address and the ids of the report's user and host
   * profile rows, then one stats row per uploaded stat entry, in upload
   * order, each of that event, naming the object filed under the entry's
   * identifier and version, and carrying its count; no existing row of any
   * table changes; and the answer is 'Statistics processed'.
   */
  lemma ProcessSpecEffects(db: Db, data: string, json: Json, connected: bool, timestamp: string, ip: string)
    ensures var (db', message) := ProcessSpec(db, data, json, connected, timestamp, ip);
      && (|data| == 0 ==> db' == db && message == "No statistics to process")
      && (|data| > 0 && !connected ==> db' == db && message == "Cannot connect to database")
      && (|data| > 0 && connected ==>
            && message == "Statistics processed"
            && Grown(db, db')
            && |db'.events| == |db.events| + 1
            && EventFiled(db'.events[|db.events|], db', json, timestamp, ip)
            && StatRows(db'.stats[|db.stats|..], |db.events| + 1, AllStats(SitesOf(json)), db'.objects))
  {
    if |data| > 0 && connected {
      var (db1, eventId) := EventSpec(db, json, timestamp, ip);
      EventSpecRows(db, json, timestamp, ip);
      SitesSpecRows(db1, eventId, SitesOf(json));
      var db' := SitesSpec(db1, eventId, SitesOf(json));
      EventFiledGrow(db1.events[|db.events|], db1, db', json, timestamp, ip);
      assert ReportSpec(db, json, timestamp, ip) == SitesSpec(db1, eventId, SitesOf(json));
    }
  }

  // -- Reports as the client sends them --

  /** The stat entries of the groups, group by group. */
  function GroupStats(gs: seq<Report.Group>): (stats: seq<Json>)
    ensures |stats| == Report.TotalStats(gs)
    decreases |gs|
  {
    if gs == [] then [] else GroupStats(gs[..|gs| - 1]) + gs[|gs| - 1].stats
  }

  /** The server visits the client's site objects in order and, within each, its stat entries in order. */
  lemma {:induction false} SiteJsonsStats(gs: seq<Report.Group>)
    ensures AllStats(Report.SiteJsons(gs)) == GroupStats(gs)
    decreases |gs|
  {
    if gs != [] {
      var n := |gs| - 1;
      var js := Report.SiteJsons(gs);
      assert js[..n] == Report.SiteJsons(gs[..n]);
      SiteJsonsStats(gs[..n]);
      Uploader.SiteJsonStats(gs[n]);
      assert StatsOf(js[n]) == gs[n].stats;
    }
  }

  /**
   * A report sent by the client (the builder's root with the user and the
   * system properties added) is filed as one event and one stats row per
   * stat entry of its site groups, in the order they were sent.
   */
  lemma ProcessSentReport(db: Db, data: string, gs: seq<Report.Group>, user: string, props: map<string, string>,
                          timestamp: string, ip: string)
    requires |data| > 0
    ensures var sent := Uploader.Enriched(Report.RootJson(gs), user, props);
      var (db', message) := ProcessSpec(db, data, sent, true, timestamp, ip);
      && message == "Statistics processed"
      && Grown(db, db')
      && |db'.events| == |db.events| + 1
      && |db'.stats| == |db.stats| + Report.TotalStats(gs)
      && EventFiled(db'.events[|db.events|], db', sent, timestamp, ip)
      && StatRows(db'.stats[|db.stats|..], |db.events| + 1, GroupStats(gs), db'.objects)
  {
    var sent := Uploader.Enriched(Report.RootJson(gs), user, props);
    Uploader.EnrichedContents(Report.RootJson(gs), user, props);
    assert Report.RootJson(gs).fields[0] == ("sites", JArray(Report.SiteJsons(gs)));
    assert SitesOf(sent) == Report.SiteJsons(gs);
    SiteJsonsStats(gs);
    ProcessSpecEffects(db, data, sent, true, timestamp, ip);
  }

  /** A stat entry of a record is filed with the record's identifier and its count. */
  lemma StatJsonColumns(r: Usage.Record)
    ensures Value(Report.StatJson(r), "id") == JString(r.info.identifier)
    ensures Value(Report.StatJson(r), "count") == JInt(r.count)
    ensures Value(Report.StatJson(r), "version") == JString(r.info.version.GetOr(""))
  {
    Report.StatJsonFields(r);
    Report.StatJsonShape(r);
  }

  /**
   * Every record the client's builder accepts becomes exactly one stats
   * row on the server.
   */
  lemma ProcessBuiltReport(db: Db, data: string, host: Report.Host, rs: seq<Usage.Record>, user: string,
                           props: map<string, string>, timestamp: string, ip: string)
    requires |data| > 0
    ensures var sent := Uploader.Enriched(Report.RootJson(Report.Build(host, rs)), user, props);
      var db' := ProcessSpec(db, data, sent, true, timestamp, ip).0;
      |db'.stats| == |db.stats| + |Report.Attributed(host, rs)|
  {
    ProcessSentReport(db, data, Report.Build(host, rs), user, props, timestamp, ip);
    Report.BuildCountsAccepted(host, rs);
  }

  // -- The database object --

  /** The select-then-insert of every lookup function: the first matching row's id, or the id of the row inserted. */
  method GetOrCreateRow(t: Table, cols: seq<nat>, key: seq<Json>, row: Row) returns (t': Table, id: nat)
    ensures (t', id) == GetOrCreate(t, cols, key, row)
  {
    var found := Select(t, cols, key);
    if found != 0 {
      return t, found;
    }
    t' := t + [row];
    id := |t'|;
  }

  /** The MySQL database: one sequence of rows per table; a lookup or insert appends to its table. */
  class Database {
    var users: Table
    var countries: Table
    var languages: Table
    var timezones: Table
    var os: Table
    var java: Table
    var sites: Table
    var objects: Table
    var events: Table
    var stats: Table

    /** A database whose tables were just created. */
    constructor ()
      ensures Snapshot() == Db([], [], [], [], [], [], [], [], [], [])
    {
      users, countries, languages, timezones, os := [], [], [], [], [];
      java, sites, objects, events, stats := [], [], [], [], [];
    }

    function Snapshot(): Db
      reads this
    {
      Db(users, countries, languages, timezones, os, java, sites, objects, events, stats)
    }

    method LookupUser(json: Json) returns (id: nat)
      modifies this
      ensures (Snapshot(), id) == LookupUserSpec(old(Snapshot()), json)
    {
      var user := UserKey(json);
      users, id := GetOrCreateRow(users, AllColumns(1), user, user);
    }

    method LookupCountry(json: Json) returns (id: nat)
      modifies this
      ensures (Snapshot(), id) == LookupCountrySpec(old(Snapshot()), json)
    {
      var name := CountryKey(json);
      countries, id := GetOrCreateRow(countries, AllColumns(1), name, name);
    }

    method LookupLanguage(json: Json) returns (id: nat)
      modifies this
      ensures (Snapshot(), id) == LookupLanguageSpec(old(Snapshot()), json)
    {
      var name := LanguageKey(json);
      languages, id := GetOrCreateRow(languages, AllColumns(1), name, name);
    }

    method LookupTimezone(json: Json) returns (id: nat)
      modifies this
      ensures (Snapshot(), id) == LookupTimezoneSpec(old(Snapshot()), json)
    {
      var name := TimezoneKey(json);
      timezones, id := GetOrCreateRow(timezones, AllColumns(1), name, name);
    }

    method LookupOs(json: Json) returns (id: nat)
      modifies this
      ensures (Snapshot(), id) == LookupOsSpec(old(Snapshot()), json)
    {
      var columns := OsKey(json);
      os, id := GetOrCreateRow(os, AllColumns(3), columns, columns);
    }

    method LookupJava(json: Json) returns (id: nat)
      modifies this
      ensures (Snapshot(), id) == LookupJavaSpec(old(Snapshot()), json)
    {
      var columns := JavaKey(json);
      java, id := GetOrCreateRow(java, AllColumns(13), columns, columns);
    }

    method LookupSite(site: Json) returns (id: nat)
      modifies this
      ensures (Snapshot(), id) == LookupSiteSpec(old(Snapshot()), site)
    {
      var columns := SiteKey(site);
      sites, id := GetOrCreateRow(sites, AllColumns(2), columns, columns);
    }

    method InsertEvent(timestamp: string, ip: string, userId: nat, countryId: nat, languageId: nat,
                       timezoneId: nat, osId: nat, javaId: nat) returns (id: nat)
      modifies this
      ensures Snapshot() == old(Snapshot()).(events := old(events) +
        [EventRow(timestamp, ip, [userId, countryId, languageId, timezoneId, osId, javaId])])
      ensures id == |events|
    {
      events := events + [EventRow(timestamp, ip, [userId, countryId, languageId, timezoneId, osId, javaId])];
      id := |events|;
    }

    method InsertObject(stat: Json, siteId: nat) returns (id: nat)
      modifies this
      ensures Snapshot() == old(Snapshot()).(objects := old(objects) + [ObjectRow(stat, siteId)])
      ensures id == |objects|
    {
      objects := objects + [ObjectRow(stat, siteId)];
      id := |objects|;
    }

    method LookupObject(stat: Json, siteId: nat) returns (id: nat)
      modifies this
      ensures var (t, i) := LookupObjectSpec(old(objects), stat, siteId);
        Snapshot() == old(Snapshot()).(objects := t) && id == i
    {
      var found := Select(objects, ObjectKeyColumns, ObjectKey(stat));
      if found != 0 {
        return found;
      }
      id := InsertObject(stat, siteId);
    }

    method InsertStat(eventId: nat, stat: Json, siteId: nat) returns (id: nat)
      modifies this
      ensures Snapshot() == InsertStatSpec(old(Snapshot()), eventId, stat, siteId)
      ensures id == |stats|
    {
      var objectId := LookupObject(stat, siteId);
      var count := Value(stat, "count");
      var purged := PurgeIdentifier(Value(stat, "id"));
      stats := stats + [[JInt(eventId), JInt(objectId), count]];
      id := |stats|;
    }

    /** processStats, with the body's bytes, its decoding, the connection's success, the clock and the client address as inputs. */
    method ProcessStats(data: string, json: Json, connected: bool, timestamp: string, ip: string) returns (message: string)
      modifies this
      ensures (Snapshot(), message) == ProcessSpec(old(Snapshot()), data, json, connected, timestamp, ip)
    {
      if |data| == 0 {
        return "No statistics to process";
      }
      if !connected {
        return "Cannot connect to database";
      }
      ProcessReport(json, timestamp, ip);
      message := "Statistics processed";
    }

    /** processStats once connected: the event recorded, then each uploaded site processed in order. */
    method ProcessReport(json: Json, timestamp: string, ip: string)
      modifies this
      ensures Snapshot() == ReportSpec(old(Snapshot()), json, timestamp, ip)
    {
      var eventId := RecordEvent(json, timestamp, ip);
      ProcessSites(eventId, SitesOf(json));
    }

    /** The outer loop of processStats: each uploaded site processed in order. */
    method ProcessSites(eventId: nat, uploaded: seq<Json>)
      modifies this
      ensures Snapshot() == SitesSpec(old(Snapshot()), eventId, uploaded)
    {
      for i := 0 to |uploaded|
        invariant Snapshot() == SitesSpec(old(Snapshot()), eventId, uploaded[..i])
      {
        assert uploaded[..i + 1][..i] == uploaded[..i];
        ProcessSite(eventId, uploaded[i]);
      }
      assert uploaded[..|uploaded|] == uploaded;
    }

    /** The six lookups of processStats, then insertEvent with their ids. */
    method RecordEvent(json: Json, timestamp: string, ip: string) returns (eventId: nat)
      modifies this
      ensures (Snapshot(), eventId) == EventSpec(old(Snapshot()), json, timestamp, ip)
    {
      var userId := LookupUser(json);
      var countryId := LookupCountry(json);
      var languageId := LookupLanguage(json);
      var timezoneId := LookupTimezone(json);
      var osId := LookupOs(json);
      var javaId := LookupJava(json);
      eventId := InsertEvent(timestamp, ip, userId, countryId, languageId, timezoneId, osId, javaId);
    }

    /** One pass of the outer loop of processStats: the site, then each of its stats. */
    method ProcessSite(eventId: nat, site: Json)
      modifies this
      ensures Snapshot() == SiteSpec(old(Snapshot()), eventId, site)
    {
      var siteId := LookupSite(site);
      InsertStats(eventId, StatsOf(site), siteId);
    }

    /** The inner loop of processStats: insertStat for each stat entry of the site, in order. */
    method InsertStats(eventId: nat, entries: seq<Json>, siteId: nat)
      modifies this
      ensures Snapshot() == StatsSpec(old(Snapshot()), eventId, entries, siteId)
    {
      for k := 0 to |entries|
        invariant Snapshot() == StatsSpec(old(Snapshot()), eventId, entries[..k], siteId)
      {
        assert entries[..k + 1][..k] == entries[..k];
        var _ := InsertStat(eventId, entries[k], siteId);
      }
      assert entries[..|entries|] == entries;
    }
  }
}
