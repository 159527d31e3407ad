/**
 * JSONBuilder: folds usage records into a report tree, root -> sites ->
 * stats, keeping only records whose location resolves to a file of an
 * official update site, with one site group per update-site URL in
 * first-seen order and one stat entry per accepted record.
 */
module Report {
  import opened Wrappers
  import opened Json
  import Usage

  /** A local file, as FileUtils.urlToFile names it. */
  type File = string

  /** What UpdateService.getUpdateSite reports about the site owning a file. */
  datatype UpdateSite = UpdateSite(name: string, url: string, official: bool)

  /**
   * The builder's collaborators: FileUtils.urlToFile (None when it throws
   * IllegalArgumentException) and UpdateService.getUpdateSite (None for null).
   */
  datatype Host = Host(urlToFile: string -> Option<File>, getUpdateSite: File -> Option<UpdateSite>)

  /** One site group of the report, as a value. */
  datatype Group = Group(name: string, url: string, stats: seq<Json>)

  // -- Filtering --

  /** getFile: no file for a record without location or with a location that does not convert. */
  function GetFile(host: Host, r: Usage.Record): Option<File> {
    match r.info.location
    case None => None
    case Some(url) => host.urlToFile(url)
  }

  /** The update site append attributes a record to, or None when append drops the record. */
  function SiteOf(host: Host, r: Usage.Record): Option<UpdateSite> {
    match GetFile(host, r)
    case None => None
    case Some(file) =>
      match host.getUpdateSite(file)
      case None => None
      case Some(site) => if site.official then Some(site) else None
  }

  /** append keeps a record exactly when it has a location, a file, an update site, and that site is official. */
  lemma SiteOfFilters(host: Host, r: Usage.Record)
    ensures SiteOf(host, r).Some? <==>
      && r.info.location.Some?
      && host.urlToFile(r.info.location.value).Some?
      && host.getUpdateSite(host.urlToFile(r.info.location.value).value).Some?
      && host.getUpdateSite(host.urlToFile(r.info.location.value).value).value.official
    ensures SiteOf(host, r).Some? ==>
      SiteOf(host, r) == host.getUpdateSite(host.urlToFile(r.info.location.value).value)
  {
  }

  // -- Stat entries --

  /** The `put` helper: puts a key only when its value is non-null. */
  function PutIfPresent(obj: Json, key: string, value: Option<string>): Json {
    match value
    case None => obj
    case Some(v) => Put(obj, key, JString(v))
  }

  /** The stat entry appendStats builds for a record. */
  function StatJson(r: Usage.Record): Json {
    var o := PutIfPresent(JObject([]), "id", Some(r.info.identifier));
    var o := PutIfPresent(o, "name", r.info.name);
    var o := PutIfPresent(o, "label", r.info.labelText);
    var o := PutIfPresent(o, "description", r.info.description);
    var o := PutIfPresent(o, "version", r.info.version);
    Put(o, "count", JInt(r.count))
  }

  /** The pair `(key, v)` when the value is non-null, nothing otherwise. */
  function OptionalField(key: string, v: Option<string>): seq<(string, Json)> {
    if v.Some? then [(key, JString(v.value))] else []
  }

  /** Putting a key the object does not have appends the pair at the end. */
  lemma {:induction false} PutNewKey(fields: seq<(string, Json)>, key: string, value: Json)
    requires Lookup(fields, key).None?
    ensures PutField(fields, key, value) == fields + [(key, value)]
  {
    if fields != [] {
      PutNewKey(fields[1..], key, value);
      assert [fields[0]] + (fields[1..] + [(key, value)]) == fields + [(key, value)];
    }
  }

  /** Lookup in a concatenation finds the first list's value before the second's. */
  lemma {:induction false} LookupConcat(a: seq<(string, Json)>, b: seq<(string, Json)>, key: string)
    ensures Lookup(a + b, key) == if Lookup(a, key).Some? then Lookup(a, key) else Lookup(b, key)
  {
    if a != [] {
      assert (a + b)[1..] == a[1..] + b;
      LookupConcat(a[1..], b, key);
    } else {
      assert a + b == b;
    }
  }

  lemma PutIfPresentNew(fields: seq<(string, Json)>, key: string, v: Option<string>)
    requires Lookup(fields, key).None?
    ensures PutIfPresent(JObject(fields), key, v) == JObject(fields + OptionalField(key, v))
  {
    if v.Some? {
      PutNewKey(fields, key, JString(v.value));
    } else {
      assert fields + [] == fields;
    }
  }

  /** The fields of a stat entry: id, then each non-null optional value, then count. */
  function StatFields(r: Usage.Record): seq<(string, Json)> {
    [("id", JString(r.info.identifier))]
      + OptionalField("name", r.info.name) + OptionalField("label", r.info.labelText)
      + OptionalField("description", r.info.description) + OptionalField("version", r.info.version)
      + [("count", JInt(r.count))]
  }

  /** A key that no pair carries is not found. */
  lemma LookupMissing(fields: seq<(string, Json)>, key: string)
    requires forall i :: 0 <= i < |fields| ==> fields[i].0 != key
    ensures Lookup(fields, key).None?
  {
  }

  /** appendStats puts the id, the optional values that are non-null, and the count, in this order. */
  lemma StatJsonShape(r: Usage.Record)
    ensures StatJson(r) == JObject(StatFields(r))
  {
    var i := r.info;
    var f1 := [("id", JString(i.identifier))];
    var f2 := f1 + OptionalField("name", i.name);
    var f3 := f2 + OptionalField("label", i.labelText);
    var f4 := f3 + OptionalField("description", i.description);
    var f5 := f4 + OptionalField("version", i.version);
    var o1 := PutIfPresent(JObject([]), "id", Some(i.identifier));
    var o2 := PutIfPresent(o1, "name", i.name);
    var o3 := PutIfPresent(o2, "label", i.labelText);
    var o4 := PutIfPresent(o3, "description", i.description);
    var o5 := PutIfPresent(o4, "version", i.version);
    assert o1 == JObject(f1) by { PutIfPresentNew([], "id", Some(i.identifier)); }
    assert o2 == JObject(f2) by {
      LookupMissing(f1, "name");
      PutIfPresentNew(f1, "name", i.name);
    }
    assert o3 == JObject(f3) by {
      ConcatMissing(f1, OptionalField("name", i.name), "label");
      LookupMissing(f2, "label");
      PutIfPresentNew(f2, "label", i.labelText);
    }
    assert o4 == JObject(f4) by {
      ConcatMissing(f1, OptionalField("name", i.name), "description");
      ConcatMissing(f2, OptionalField("label", i.labelText), "description");
      LookupMissing(f3, "description");
      PutIfPresentNew(f3, "description", i.description);
    }
    assert o5 == JObject(f5) by {
      ConcatMissing(f1, OptionalField("name", i.name), "version");
      ConcatMissing(f2, OptionalField("label", i.labelText), "version");
      ConcatMissing(f3, OptionalField("description", i.description), "version");
      LookupMissing(f4, "version");
      PutIfPresentNew(f4, "version", i.version);
    }
    assert Put(o5, "count", JInt(r.count)) == JObject(f5 + [("count", JInt(r.count))]) by {
      ConcatMissing(f1, OptionalField("name", i.name), "count");
      ConcatMissing(f2, OptionalField("label", i.labelText), "count");
      ConcatMissing(f3, OptionalField("description", i.description), "count");
      ConcatMissing(f4, OptionalField("version", i.version), "count");
      LookupMissing(f5, "count");
      PutNewKey(f5, "count", JInt(r.count));
    }
  }

  /** Two lists without a key have no key in their concatenation either. */
  lemma ConcatMissing(a: seq<(string, Json)>, b: seq<(string, Json)>, key: string)
    requires forall i :: 0 <= i < |a| ==> a[i].0 != key
    requires forall i :: 0 <= i < |b| ==> b[i].0 != key
    ensures forall i :: 0 <= i < |a + b| ==> (a + b)[i].0 != key
  {
  }

  /** An optional field holds its own key, with its value, when the value is non-null, and nothing else. */
  lemma OptionalFieldLookup(key: string, v: Option<string>, other: string)
    ensures Lookup(OptionalField(key, v), other) == if other == key && v.Some? then Some(JString(v.value)) else None
  {
  }

  /** Looking `key` up in `pre + rest` where `pre` has only other keys. */
  lemma LookupSkip(pre: seq<(string, Json)>, rest: seq<(string, Json)>, key: string)
    requires Lookup(pre, key).None?
    ensures Lookup(pre + rest, key) == Lookup(rest, key)
  {
    LookupConcat(pre, rest, key);
  }

  /** The lookups in the field list of a stat entry. */
  lemma StatFieldsLookup(r: Usage.Record)
    ensures Lookup(StatFields(r), "id") == Some(JString(r.info.identifier))
    ensures Lookup(StatFields(r), "count") == Some(JInt(r.count))
    ensures Lookup(StatFields(r), "name") == if r.info.name.Some? then Some(JString(r.info.name.value)) else None
    ensures Lookup(StatFields(r), "label") == if r.info.labelText.Some? then Some(JString(r.info.labelText.value)) else None
    ensures Lookup(StatFields(r), "description") == if r.info.description.Some? then Some(JString(r.info.description.value)) else None
    ensures Lookup(StatFields(r), "version") == if r.info.version.Some? then Some(JString(r.info.version.value)) else None
  {
    StatFieldsId(r);
    StatFieldsCount(r);
    StatFieldsOptional(r, "name", r.info.name);
    StatFieldsOptional(r, "label", r.info.labelText);
    StatFieldsOptional(r, "description", r.info.description);
    StatFieldsOptional(r, "version", r.info.version);
  }

  lemma StatFieldsId(r: Usage.Record)
    ensures Lookup(StatFields(r), "id") == Some(JString(r.info.identifier))
  {
    var i := r.info;
    var a := [("id", JString(i.identifier))];
    var b := OptionalField("name", i.name);
    var c := OptionalField("label", i.labelText);
    var d := OptionalField("description", i.description);
    var e := OptionalField("version", i.version);
    var f := [("count", JInt(r.count))];
    var ef := e + f;
    var def := d + ef;
    var cdef := c + def;
    var bcdef := b + cdef;
    assert StatFields(r) == a + bcdef;
    LookupConcat(a, bcdef, "id");
  }

  lemma StatFieldsCount(r: Usage.Record)
    ensures Lookup(StatFields(r), "count") == Some(JInt(r.count))
  {
    var i := r.info;
    var a := [("id", JString(i.identifier))];
    var b := OptionalField("name", i.name);
    var c := OptionalField("label", i.labelText);
    var d := OptionalField("description", i.description);
    var e := OptionalField("version", i.version);
    var f := [("count", JInt(r.count))];
    var ef := e + f;
    var def := d + ef;
    var cdef := c + def;
    var bcdef := b + cdef;
    assert StatFields(r) == a + bcdef;
    OptionalFieldLookup("name", i.name, "count");
    OptionalFieldLookup("label", i.labelText, "count");
    OptionalFieldLookup("description", i.description, "count");
    OptionalFieldLookup("version", i.version, "count");
    LookupSkip(e, f, "count");
    LookupSkip(d, ef, "count");
    LookupSkip(c, def, "count");
    LookupSkip(b, cdef, "count");
    LookupSkip(a, bcdef, "count");
  }

  /** An optional key of a stat entry is found in its own field, or nowhere. */
  lemma StatFieldsOptional(r: Usage.Record, key: string, v: Option<string>)
    requires (key, v) in {("name", r.info.name), ("label", r.info.labelText), ("description", r.info.description), ("version", r.info.version)}
    ensures Lookup(StatFields(r), key) == if v.Some? then Some(JString(v.value)) else None
  {
    var i := r.info;
    var a := [("id", JString(i.identifier))];
    var b := OptionalField("name", i.name);
    var c := OptionalField("label", i.labelText);
    var d := OptionalField("description", i.description);
    var e := OptionalField("version", i.version);
    var f := [("count", JInt(r.count))];
    var ef := e + f;
    var def := d + ef;
    var cdef := c + def;
    var bcdef := b + cdef;
    assert StatFields(r) == a + bcdef;
    OptionalFieldLookup("name", i.name, key);
    OptionalFieldLookup("label", i.labelText, key);
    OptionalFieldLookup("description", i.description, key);
    OptionalFieldLookup("version", i.version, key);
    LookupConcat(e, f, key);
    LookupConcat(d, ef, key);
    LookupConcat(c, def, key);
    LookupConcat(b, cdef, key);
    LookupConcat(a, bcdef, key);
  }

  /**
   * A stat entry carries the identifier and the count, and each optional
   * key exactly when its value is non-null, with that value.
   */
  lemma StatJsonFields(r: Usage.Record)
    ensures Get(StatJson(r), "id") == Some(JString(r.info.identifier))
    ensures Get(StatJson(r), "count") == Some(JInt(r.count))
    ensures Get(StatJson(r), "name") == if r.info.name.Some? then Some(JString(r.info.name.value)) else None
    ensures Get(StatJson(r), "label") == if r.info.labelText.Some? then Some(JString(r.info.labelText.value)) else None
    ensures Get(StatJson(r), "description") == if r.info.description.Some? then Some(JString(r.info.description.value)) else None
    ensures Get(StatJson(r), "version") == if r.info.version.Some? then Some(JString(r.info.version.value)) else None
  {
    StatJsonShape(r);
    StatFieldsLookup(r);
  }

  // -- Site groups --

  /** The URLs of the groups, in order. */
  function Urls(gs: seq<Group>): (us: seq<string>)
    ensures |us| == |gs| && forall i :: 0 <= i < |gs| ==> us[i] == gs[i].url
  {
    seq(|gs|, i requires 0 <= i < |gs| => gs[i].url)
  }

  /** No two groups share a URL. */
  predicate DistinctUrls(gs: seq<Group>) {
    forall i, j :: 0 <= i < j < |gs| ==> gs[i].url != gs[j].url
  }

  /** The position of the group with the given URL: the lookup in the URL-to-site map. */
  function IndexOfUrl(gs: seq<Group>, url: string): (r: Option<nat>)
    ensures r.Some? ==> r.value < |gs| && gs[r.value].url == url
    ensures r.None? <==> forall i :: 0 <= i < |gs| ==> gs[i].url != url
    ensures DistinctUrls(gs) ==> forall i :: 0 <= i < |gs| && gs[i].url == url ==> r == Some(i)
  {
    if gs == [] then None
    else if gs[0].url == url then Some(0)
    else match IndexOfUrl(gs[1..], url)
      case None => None
      case Some(k) => Some(k + 1)
  }

  /** jsonSite then appendStats: the stat goes to the end of the URL's group, created on first use. */
  function AddStat(gs: seq<Group>, site: UpdateSite, stat: Json): seq<Group> {
    match IndexOfUrl(gs, site.url)
    case None => gs + [Group(site.name, site.url, [stat])]
    case Some(k) => gs[k := gs[k].(stats := gs[k].stats + [stat])]
  }

  /** The site groups after append(r). */
  function AppendSpec(gs: seq<Group>, host: Host, r: Usage.Record): seq<Group> {
    match SiteOf(host, r)
    case None => gs
    case Some(site) => AddStat(gs, site, StatJson(r))
  }

  /** The site groups after appending rs[0], ..., rs[|rs| - 1] to a fresh builder. */
  function Build(host: Host, rs: seq<Usage.Record>): seq<Group>
    decreases |rs|
  {
    if rs == [] then [] else AppendSpec(Build(host, rs[..|rs| - 1]), host, rs[|rs| - 1])
  }

  /** The number of stat entries in all groups. */
  function TotalStats(gs: seq<Group>): nat
    decreases |gs|
  {
    if gs == [] then 0 else TotalStats(gs[..|gs| - 1]) + |gs[|gs| - 1].stats|
  }

  lemma {:induction false} TotalStatsUpdate(gs: seq<Group>, k: nat, g: Group)
    requires k < |gs|
    ensures TotalStats(gs[k := g]) == TotalStats(gs) - |gs[k].stats| + |g.stats|
    decreases |gs|
  {
    var n := |gs| - 1;
    if k < n {
      assert gs[k := g][..n] == gs[..n][k := g];
      TotalStatsUpdate(gs[..n], k, g);
    } else {
      assert gs[k := g][..n] == gs[..n];
    }
  }

  /**
   * An accepted record adds exactly one stat entry: at the end of its
   * URL's group, which keeps the name it was created with; a new URL gets a
   * new group at the end named after this record's site; no other group
   * changes. A dropped record changes nothing.
   */
  lemma AppendAddsOneStat(gs: seq<Group>, host: Host, r: Usage.Record)
    requires DistinctUrls(gs)
    ensures DistinctUrls(AppendSpec(gs, host, r))
    ensures SiteOf(host, r).None? ==> AppendSpec(gs, host, r) == gs
    ensures SiteOf(host, r).Some? ==>
      var site := SiteOf(host, r).value;
      var gs' := AppendSpec(gs, host, r);
      && (site.url in Urls(gs) ==> |gs'| == |gs| && Urls(gs') == Urls(gs))
      && (site.url !in Urls(gs) ==> gs' == gs + [Group(site.name, site.url, [StatJson(r)])])
      && (forall i :: 0 <= i < |gs| && gs[i].url != site.url ==> gs'[i] == gs[i])
      && (forall i :: 0 <= i < |gs| && gs[i].url == site.url ==>
            gs'[i] == gs[i].(stats := gs[i].stats + [StatJson(r)]))
  {
  }

  /**
   * append leaves the groups unchanged exactly when it drops the record:
   * the location is null, it does not convert to a file, the file has no
   * update site, or the site is not official.
   */
  lemma AppendUnchangedIffDropped(gs: seq<Group>, host: Host, r: Usage.Record)
    ensures AppendSpec(gs, host, r) == gs <==> SiteOf(host, r).None?
    ensures TotalStats(AppendSpec(gs, host, r)) == TotalStats(gs) + (if SiteOf(host, r).Some? then 1 else 0)
  {
    match SiteOf(host, r)
    case None =>
    case Some(site) =>
      match IndexOfUrl(gs, site.url)
      case None =>
        var gs' := gs + [Group(site.name, site.url, [StatJson(r)])];
        assert gs'[..|gs|] == gs;
      case Some(k) =>
        TotalStatsUpdate(gs, k, gs[k].(stats := gs[k].stats + [StatJson(r)]));
  }

  // -- Reference definition: attributed stats grouped by URL --

  /** The (site, stat entry) of every record append keeps, in input order. */
  function Attributed(host: Host, rs: seq<Usage.Record>): seq<(UpdateSite, Json)>
    decreases |rs|
  {
    if rs == [] then []
    else
      var prefix := Attributed(host, rs[..|rs| - 1]);
      match SiteOf(host, rs[|rs| - 1])
      case None => prefix
      case Some(site) => prefix + [(site, StatJson(rs[|rs| - 1]))]
  }

  function SiteUrls(ps: seq<(UpdateSite, Json)>): (us: seq<string>)
    ensures |us| == |ps| && forall i :: 0 <= i < |ps| ==> us[i] == ps[i].0.url
  {
    seq(|ps|, i requires 0 <= i < |ps| => ps[i].0.url)
  }

  /** The distinct elements of a sequence, in order of first occurrence. */
  function FirstSeen(us: seq<string>): (r: seq<string>)
    ensures forall u :: u in r <==> u in us
    ensures forall i, j :: 0 <= i < j < |r| ==> r[i] != r[j]
    decreases |us|
  {
    if us == [] then []
    else
      var prefix := FirstSeen(us[..|us| - 1]);
      assert forall u :: u in us <==> u in us[..|us| - 1] || u == us[|us| - 1];
      if us[|us| - 1] in prefix then prefix else prefix + [us[|us| - 1]]
  }

  /** The stat entries attributed to the given URL, in input order. */
  function StatsFor(ps: seq<(UpdateSite, Json)>, url: string): seq<Json>
    decreases |ps|
  {
    if ps == [] then []
    else StatsFor(ps[..|ps| - 1], url) + (if ps[|ps| - 1].0.url == url then [ps[|ps| - 1].1] else [])
  }

  /** The name of the first site seen with the given URL. */
  function NameFor(ps: seq<(UpdateSite, Json)>, url: string): Option<string>
    decreases |ps|
  {
    if ps == [] then None
    else if NameFor(ps[..|ps| - 1], url).Some? then NameFor(ps[..|ps| - 1], url)
    else if ps[|ps| - 1].0.url == url then Some(ps[|ps| - 1].0.name)
    else None
  }

  /** One group per distinct URL in first-seen order, named after its first site, holding its stats in order. */
  function Grouped(ps: seq<(UpdateSite, Json)>): seq<Group> {
    var us := FirstSeen(SiteUrls(ps));
    seq(|us|, i requires 0 <= i < |us| => Group(NameFor(ps, us[i]).GetOr(""), us[i], StatsFor(ps, us[i])))
  }

  lemma {:induction false} UnseenUrl(ps: seq<(UpdateSite, Json)>, url: string)
    requires url !in SiteUrls(ps)
    ensures StatsFor(ps, url) == [] && NameFor(ps, url) == None
    decreases |ps|
  {
    if ps != [] {
      var n := |ps| - 1;
      assert SiteUrls(ps[..n]) == SiteUrls(ps)[..n];
      assert SiteUrls(ps)[n] == ps[n].0.url;
      UnseenUrl(ps[..n], url);
    }
  }

  lemma {:induction false} SeenUrl(ps: seq<(UpdateSite, Json)>, url: string)
    requires url in SiteUrls(ps)
    ensures NameFor(ps, url).Some?
    decreases |ps|
  {
    var n := |ps| - 1;
    assert SiteUrls(ps[..n]) == SiteUrls(ps)[..n];
    if url in SiteUrls(ps[..n]) {
      SeenUrl(ps[..n], url);
    } else {
      assert SiteUrls(ps) == SiteUrls(ps[..n]) + [ps[n].0.url];
    }
  }

  /** Grouping after one more attributed stat is AddStat on the grouping before it. */
  lemma GroupedSnoc(ps: seq<(UpdateSite, Json)>, site: UpdateSite, stat: Json)
    ensures Grouped(ps + [(site, stat)]) == AddStat(Grouped(ps), site, stat)
  {
    var ps' := ps + [(site, stat)];
    assert ps'[..|ps|] == ps;
    var us := FirstSeen(SiteUrls(ps));
    assert SiteUrls(ps') == SiteUrls(ps) + [site.url];
    assert SiteUrls(ps')[..|ps|] == SiteUrls(ps);
    var us' := FirstSeen(SiteUrls(ps'));
    var gs := Grouped(ps);
    assert Urls(gs) == us;
    assert DistinctUrls(gs);
    forall u | u != site.url
      ensures StatsFor(ps', u) == StatsFor(ps, u) && NameFor(ps', u) == NameFor(ps, u)
    {
    }
    var r := Grouped(ps');
    var a := AddStat(gs, site, stat);
    if site.url in us {
      assert us' == us;
      SeenUrl(ps, site.url);
      var k :| 0 <= k < |us| && us[k] == site.url;
      assert IndexOfUrl(gs, site.url) == Some(k);
      assert a == gs[k := gs[k].(stats := gs[k].stats + [stat])];
      assert StatsFor(ps', site.url) == StatsFor(ps, site.url) + [stat];
      assert NameFor(ps', site.url) == NameFor(ps, site.url);
      forall i | 0 <= i < |r| ensures r[i] == a[i] {
        if i != k {
          assert us[i] != site.url;
        }
      }
    } else {
      assert us' == us + [site.url];
      UnseenUrl(ps, site.url);
      assert IndexOfUrl(gs, site.url).None?;
      assert a == gs + [Group(site.name, site.url, [stat])];
      assert StatsFor(ps', site.url) == [stat];
      assert NameFor(ps', site.url) == Some(site.name);
      forall i | 0 <= i < |r| ensures r[i] == a[i] {
        if i < |us| {
          assert us[i] != site.url;
        }
      }
    }
  }

  /**
   * The builder's result, whatever the input, is the attributed stats
   * grouped by URL: one group per distinct URL of an accepted record, in
   * first-seen order, named after the first site seen with that URL, holding
   * the stat entries of exactly the accepted records with that URL, in
   * input order.
   */
  lemma {:induction false} BuildIsGrouping(host: Host, rs: seq<Usage.Record>)
    ensures Build(host, rs) == Grouped(Attributed(host, rs))
    decreases |rs|
  {
    if rs != [] {
      var n := |rs| - 1;
      BuildIsGrouping(host, rs[..n]);
      match SiteOf(host, rs[n])
      case None =>
      case Some(site) => GroupedSnoc(Attributed(host, rs[..n]), site, StatJson(rs[n]));
    } else {
      assert FirstSeen(SiteUrls([])) == [];
    }
  }

  /**
   * The builder's groups have distinct URLs, and there are as many stat
   * entries as accepted records: a dropped record contributes nothing and
   * no two records are merged into one entry.
   */
  lemma {:induction false} BuildCountsAccepted(host: Host, rs: seq<Usage.Record>)
    ensures DistinctUrls(Build(host, rs))
    ensures TotalStats(Build(host, rs)) == |Attributed(host, rs)|
    decreases |rs|
  {
    if rs != [] {
      var n := |rs| - 1;
      BuildCountsAccepted(host, rs[..n]);
      AppendAddsOneStat(Build(host, rs[..n]), host, rs[n]);
      AppendUnchangedIffDropped(Build(host, rs[..n]), host, rs[n]);
    }
  }

  /** Every group append creates starts with one stat entry, and groups only grow. */
  predicate NonEmptyGroups(gs: seq<Group>) {
    forall i :: 0 <= i < |gs| ==> |gs[i].stats| > 0
  }

  /** The builder's groups are never empty: a group exists only once a stat has been added to it. */
  lemma {:induction false} BuildGroupsNonEmpty(host: Host, rs: seq<Usage.Record>)
    ensures NonEmptyGroups(Build(host, rs))
    decreases |rs|
  {
    if rs != [] {
      BuildGroupsNonEmpty(host, rs[..|rs| - 1]);
    }
  }

  /** With no empty group, there are stat entries exactly when there are groups. */
  lemma {:induction false} TotalStatsPositive(gs: seq<Group>)
    requires NonEmptyGroups(gs)
    ensures TotalStats(gs) > 0 <==> |gs| > 0
  {
    if gs != [] {
      assert |gs[|gs| - 1].stats| > 0;
    }
  }

  // -- The JSON tree --

  /** A site group as the JSON object jsonSite creates. */
  function SiteJson(g: Group): Json {
    JObject([("name", JString(g.name)), ("url", JString(g.url)), ("stats", JArray(g.stats))])
  }

  /** The root object: its only key is "sites", holding the site groups in order. */
  function RootJson(gs: seq<Group>): Json {
    JObject([("sites", JArray(SiteJsons(gs)))])
  }

  /** The site objects of the groups, in order. */
  function SiteJsons(gs: seq<Group>): (js: seq<Json>)
    ensures |js| == |gs| && forall i :: 0 <= i < |gs| ==> js[i] == SiteJson(gs[i])
  {
    if gs == [] then [] else SiteJsons(gs[..|gs| - 1]) + [SiteJson(gs[|gs| - 1])]
  }

  // -- The builder object --

  /** The JSONObject of one update site; only its "stats" array changes. */
  class SiteObject {
    const name: string
    const url: string
    var stats: seq<Json>

    constructor (name: string, url: string)
      ensures this.name == name && this.url == url && stats == []
    {
      this.name := name;
      this.url := url;
      stats := [];
    }

    function Value(): Group
      reads this
    {
      Group(name, url, stats)
    }
  }

  /** The groups the site objects hold. */
  function Groups(objs: seq<SiteObject>): (gs: seq<Group>)
    reads objs
    ensures |gs| == |objs| && forall i :: 0 <= i < |objs| ==> gs[i] == objs[i].Value()
  {
    seq(|objs|, i reads objs requires 0 <= i < |objs| => objs[i].Value())
  }

  /** Appending a site object appends its group. */
  lemma GroupsAppend(objs: seq<SiteObject>, o: SiteObject)
    ensures Groups(objs + [o]) == Groups(objs) + [o.Value()]
  {
    assert forall i :: 0 <= i < |objs| ==> (objs + [o])[i] == objs[i];
  }

  /** The groups after jsonSite: unchanged when the site's URL has a group, else a new empty group for it at the end. */
  function Found(gs: seq<Group>, site: UpdateSite): seq<Group> {
    match IndexOfUrl(gs, site.url)
    case Some(_) => gs
    case None => gs + [Group(site.name, site.url, [])]
  }

  /**
   * jsonSite followed by appendStats on the group it returns is AddStat:
   * the found group gains the stat at the end of its list, or a new group
   * holding only the stat is appended.
   */
  lemma FoundThenAdd(gs: seq<Group>, site: UpdateSite, stat: Json)
    ensures IndexOfUrl(Found(gs, site), site.url).Some?
    ensures var m := Found(gs, site);
      var k := IndexOfUrl(m, site.url).value;
      m[k := m[k].(stats := m[k].stats + [stat])] == AddStat(gs, site, stat)
  {
    var m := Found(gs, site);
    if IndexOfUrl(gs, site.url).None? {
      assert m[|gs|].url == site.url;
      assert forall i :: 0 <= i < |gs| ==> m[i] == gs[i];
      var k := IndexOfUrl(m, site.url).value;
      var after := m[k := m[k].(stats := m[k].stats + [stat])];
      assert after == gs + [Group(site.name, site.url, [stat])] by {
        forall i | 0 <= i < |after| ensures after[i] == (gs + [Group(site.name, site.url, [stat])])[i] {
        }
      }
    }
  }

  /** The URLs in a linked array are distinct, so each site object sits at one index. */
  lemma LinkedUnique(sites: map<string, SiteObject>, objs: seq<SiteObject>, k: nat)
    requires Linked(sites, objs) && k < |objs|
    ensures forall i :: 0 <= i < |objs| && objs[i] == objs[k] ==> i == k
  {
    forall i | 0 <= i < |objs| && objs[i] == objs[k] ensures i == k {
      assert objs[i].url == objs[k].url;
    }
  }

  /** The URL map holds exactly the objects of the "sites" array, keyed by their URLs, which are distinct. */
  ghost predicate Linked(sites: map<string, SiteObject>, objs: seq<SiteObject>) {
    && (forall i :: 0 <= i < |objs| ==> objs[i].url in sites && sites[objs[i].url] == objs[i])
    && (forall u :: u in sites ==> exists i :: 0 <= i < |objs| && objs[i].url == u)
    && (forall i, j :: 0 <= i < j < |objs| ==> objs[i].url != objs[j].url)
  }

  /** Registering a site object under a new URL and appending it keeps the map and the array linked. */
  lemma LinkedAppend(sites: map<string, SiteObject>, objs: seq<SiteObject>, created: SiteObject)
    requires Linked(sites, objs) && created.url !in sites
    ensures Linked(sites[created.url := created], objs + [created])
  {
    var sites', objs' := sites[created.url := created], objs + [created];
    forall u | u in sites' ensures exists i :: 0 <= i < |objs'| && objs'[i].url == u {
      if u != created.url {
        var i :| 0 <= i < |objs| && objs[i].url == u;
        assert objs'[i].url == u;
      } else {
        assert objs'[|objs|].url == u;
      }
    }
    forall i, j | 0 <= i < j < |objs'| ensures objs'[i].url != objs'[j].url {
      if j == |objs| {
        assert objs[i].url in sites;
      }
    }
  }

  /** With the URL map and array linked, a URL is missing from the map exactly when no group carries it. */
  lemma LinkedIndex(sites: map<string, SiteObject>, objs: seq<SiteObject>, gs: seq<Group>, url: string)
    requires Linked(sites, objs)
    requires |gs| == |objs| && forall i :: 0 <= i < |gs| ==> gs[i].url == objs[i].url
    ensures url !in sites <==> IndexOfUrl(gs, url).None?
    ensures url in sites ==> IndexOfUrl(gs, url).Some? && objs[IndexOfUrl(gs, url).value] == sites[url]
  {
    if url in sites {
      var k :| 0 <= k < |objs| && objs[k].url == url;
      assert gs[k].url == url;
      var m := IndexOfUrl(gs, url).value;
      assert objs[m].url == objs[k].url;
    } else {
      forall i | 0 <= i < |gs| ensures gs[i].url != url {
        assert objs[i].url in sites;
      }
    }
  }

  /** JSONBuilder: the root's "sites" array and the URL map, kept in step. */
  class Builder {
    const host: Host
    /** The map from update-site URL to its site object. */
    var sites: map<string, SiteObject>
    /** The root's "sites" array. */
    var siteArray: seq<SiteObject>

    /** The URL map and the "sites" array hold the same site objects, one per distinct URL. */
    ghost predicate Valid()
      reads this
    {
      Linked(sites, siteArray)
    }

    /** The site groups in the root's "sites" array, in order. */
    function View(): seq<Group>
      reads this, siteArray
    {
      Groups(siteArray)
    }

    /** The root object (getJSON). */
    function GetJSON(): Json
      reads this, siteArray
    {
      RootJson(View())
    }

    /** A fresh builder: the root holds an empty "sites" array, `{"sites":[]}`, and the URL map is empty. */
    constructor (host: Host)
      ensures Valid() && this.host == host && sites == map[] && siteArray == []
      ensures GetJSON() == JObject([("sites", JArray([]))])
    {
      this.host := host;
      sites := map[];
      siteArray := [];
      new;
      assert View() == [];
    }

    /** The URL map has one entry per element of the "sites" array, and the URLs are distinct. */
    lemma MapMatchesArray()
      requires Valid()
      ensures |sites| == |siteArray|
      ensures DistinctUrls(View())
      ensures sites.Keys == set i | 0 <= i < |siteArray| :: siteArray[i].url
    {
      var urls := set i | 0 <= i < |siteArray| :: siteArray[i].url;
      assert sites.Keys == urls;
      var us := Urls(View());
      assert urls == set u | u in us;
      DistinctCardinality(us);
      assert |sites| == |sites.Keys|;
    }

    /** The groups of a valid builder have distinct URLs. */
    lemma ValidDistinct()
      requires Valid()
      ensures DistinctUrls(View())
    {
      forall i, j | 0 <= i < j < |siteArray| ensures View()[i].url != View()[j].url {
        assert siteArray[i].url != siteArray[j].url;
      }
    }

    /** append: drops the record or adds its stat entry to its site group. */
    method Append(usage: Usage.UsageStats)
      requires Valid()
      modifies this, siteArray
      ensures Valid()
      ensures View() == AppendSpec(old(View()), host, usage.Value())
      ensures forall o :: o in siteArray ==> o in old(siteArray) || fresh(o)
    {
      var file := GetFile(host, usage.Value());
      if file.None? {
        return;
      }
      var updateSite := host.getUpdateSite(file.value);
      if updateSite.None? {
        return; // no associated update site
      }
      if !updateSite.value.official {
        return; // not a known update site
      }
      assert SiteOf(host, usage.Value()) == Some(updateSite.value);
      AddToSite(updateSite.value, usage);
    }

    /** The accepted path of append: jsonSite, then appendStats on the object it returns. */
    method AddToSite(site: UpdateSite, usage: Usage.UsageStats)
      requires Valid()
      modifies this, siteArray
      ensures Valid()
      ensures View() == AddStat(old(View()), site, StatJson(usage.Value()))
      ensures forall o :: o in siteArray ==> o in old(siteArray) || fresh(o)
    {
      ghost var before := View();
      var jsonSite, k := JsonSite(site);
      AppendStats(jsonSite, usage, k);
      FoundThenAdd(before, site, StatJson(usage.Value()));
    }

    /** jsonSite: the site object for the site's URL, created and appended to "sites" on first use. */
    method JsonSite(site: UpdateSite) returns (obj: SiteObject, ghost k: nat)
      requires Valid()
      modifies this
      ensures Valid()
      ensures View() == Found(old(View()), site)
      ensures IndexOfUrl(View(), site.url) == Some(k) && k < |siteArray| && siteArray[k] == obj
      ensures obj in old(siteArray) || fresh(obj)
      ensures forall o :: o in siteArray ==> o in old(siteArray) || fresh(o)
    {
      LinkedIndex(sites, siteArray, View(), site.url);
      if site.url !in sites {
        CreateSite(site);
        k := |siteArray| - 1;
      } else {
        k := IndexOfUrl(View(), site.url).value;
      }
      obj := sites[site.url];
    }

    /** The first use of a URL in jsonSite: a new site object, registered under the URL and appended to "sites". */
    method CreateSite(site: UpdateSite)
      requires Valid() && site.url !in sites
      modifies this
      ensures Valid()
      ensures site.url in sites && fresh(sites[site.url])
      ensures siteArray == old(siteArray) + [sites[site.url]]
      ensures View() == Found(old(View()), site)
      ensures IndexOfUrl(View(), site.url) == Some(|old(siteArray)|)
    {
      ghost var before := View();
      LinkedIndex(sites, siteArray, before, site.url);
      ghost var oldArray := siteArray;
      var created := new SiteObject(site.name, site.url);
      LinkedAppend(sites, siteArray, created);
      siteArray := siteArray + [created];
      sites := sites[site.url := created];
      assert Groups(oldArray) == before;
      GroupsAppend(oldArray, created);
      ValidDistinct();
    }

    /** appendStats: adds the record's stat entry at the end of the site's "stats" array; no other site changes. */
    method AppendStats(jsonSite: SiteObject, usage: Usage.UsageStats, ghost k: nat)
      requires Valid() && k < |siteArray| && siteArray[k] == jsonSite
      modifies jsonSite
      ensures Valid()
      ensures View() == old(View())[k := old(View())[k].(stats := old(View())[k].stats + [StatJson(usage.Value())])]
    {
      ghost var before := View();
      ghost var stat := StatJson(usage.Value());
      LinkedUnique(sites, siteArray, k);
      var info := usage.info;
      var jsonUsage := JObject([]);
      jsonUsage := PutIfPresent(jsonUsage, "id", Some(info.identifier));
      jsonUsage := PutIfPresent(jsonUsage, "name", info.name);
      jsonUsage := PutIfPresent(jsonUsage, "label", info.labelText);
      jsonUsage := PutIfPresent(jsonUsage, "description", info.description);
      jsonUsage := PutIfPresent(jsonUsage, "version", info.version);
      jsonUsage := Put(jsonUsage, "count", JInt(usage.count));
      jsonSite.stats := jsonSite.stats + [jsonUsage];
      assert jsonUsage == stat;
      forall i | 0 <= i < |siteArray| ensures View()[i] == before[k := before[k].(stats := before[k].stats + [stat])][i] {
        if i != k {
          assert siteArray[i] != jsonSite;
        }
      }
    }
  }

  /** A sequence without repeated elements has as many distinct elements as it is long. */
  lemma {:induction false} DistinctCardinality(us: seq<string>)
    requires forall i, j :: 0 <= i < j < |us| ==> us[i] != us[j]
    ensures |set u | u in us| == |us|
    decreases |us|
  {
    if us != [] {
      var n := |us| - 1;
      DistinctCardinality(us[..n]);
      assert (set u | u in us) == (set u | u in us[..n]) + {us[n]};
      assert us[n] !in (set u | u in us[..n]);
    } else {
      assert (set u | u in us) == {};
    }
  }
}
