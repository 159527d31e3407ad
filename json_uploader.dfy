// The upload step: deciding whether a report has anything to send, adding
// the anonymised user and the host's system properties to it, and reading
// the server's reply line by line (JSONUploader).

module Uploader {
  import opened Wrappers
  import opened Json
  import Report
  import Usage

  // -- System properties --

  /** The system properties every report carries, in the order they are added. */
  const SystemProperties: seq<string> := [
    "user.country", "user.language", "user.timezone", "os.arch", "os.name", "os.version",
    "java.runtime.name", "java.runtime.version", "java.specification.name",
    "java.specification.vendor", "java.specification.version", "java.vendor",
    "java.version", "java.vm.name", "java.vm.specification.name",
    "java.vm.specification.vendor", "java.vm.specification.version",
    "java.vm.vendor", "java.vm.version"
  ]

  /** The key with every '.' replaced by '_' (the regular-expression replacement of "\\."). */
  function Underscored(key: string): (r: string)
    ensures |r| == |key|
    decreases |key|
  {
    if key == [] then [] else Underscored(key[..|key| - 1]) + [if key[|key| - 1] == '.' then '_' else key[|key| - 1]]
  }

  /** Every '.' of the key becomes '_' and every other character stays; the result holds no '.'. */
  lemma {:induction false} UnderscoredChars(key: string)
    ensures forall i :: 0 <= i < |key| ==> Underscored(key)[i] == if key[i] == '.' then '_' else key[i]
    ensures '.' !in Underscored(key)
    decreases |key|
  {
    if key != [] {
      UnderscoredChars(key[..|key| - 1]);
    }
  }

  /** Keys without '_' are never merged: distinct such keys stay distinct once their dots are replaced. */
  lemma UnderscoredInjective(a: string, b: string)
    requires '_' !in a && '_' !in b && a != b
    ensures Underscored(a) != Underscored(b)
  {
    UnderscoredChars(a);
    UnderscoredChars(b);
    if |a| == |b| {
      var i :| 0 <= i < |a| && a[i] != b[i];
      assert Underscored(a)[i] != Underscored(b)[i];
    }
  }

  /** Each property key is longer than "sites". */
  lemma SystemPropertiesLong()
    ensures forall m :: 0 <= m < |SystemProperties| ==> |SystemProperties[m]| > 5
  {
  }

  /** The user.* and os.* keys hold no '_'. */
  lemma UserKeysPlain()
    ensures '_' !in "user.country"
    ensures '_' !in "user.language"
    ensures '_' !in "user.timezone"
    ensures '_' !in "os.arch"
    ensures '_' !in "os.name"
    ensures '_' !in "os.version"
  {
  }

  /** The java.runtime.*, java.specification.* and other java.* keys hold no '_'. */
  lemma JavaKeysPlain()
    ensures '_' !in "java.runtime.name"
    ensures '_' !in "java.runtime.version"
    ensures '_' !in "java.specification.name"
    ensures '_' !in "java.specification.vendor"
    ensures '_' !in "java.specification.version"
    ensures '_' !in "java.vendor"
    ensures '_' !in "java.version"
  {
  }

  /** The java.vm.* keys hold no '_'. */
  lemma JavaVmKeysPlain()
    ensures '_' !in "java.vm.name"
    ensures '_' !in "java.vm.specification.name"
    ensures '_' !in "java.vm.specification.vendor"
    ensures '_' !in "java.vm.specification.version"
    ensures '_' !in "java.vm.vendor"
    ensures '_' !in "java.vm.version"
  {
  }

  /** None of the property keys holds a '_'. */
  lemma SystemPropertiesPlain()
    ensures forall m :: 0 <= m < |SystemProperties| ==> '_' !in SystemProperties[m]
  {
    UserKeysPlain();
    JavaKeysPlain();
    JavaVmKeysPlain();
  }

  /**
   * The 19 property keys become 19 distinct JSON keys, none of them "user"
   * or "sites", so adding the properties never overwrites the user, the
   * stats or another property.
   */
  lemma SystemPropertyKeysDistinct()
    ensures forall m, i :: 0 <= m < |SystemProperties| && 0 <= i < |SystemProperties| && m != i ==>
      Underscored(SystemProperties[m]) != Underscored(SystemProperties[i])
    ensures forall m :: 0 <= m < |SystemProperties| ==>
      Underscored(SystemProperties[m]) != "user" && Underscored(SystemProperties[m]) != "sites"
  {
    var ps := SystemProperties;
    SystemPropertiesPlain();
    SystemPropertiesLong();
    assert forall m, i :: 0 <= m < i < |ps| ==> ps[m] != ps[i];
    forall m, i | 0 <= m < |ps| && 0 <= i < |ps| && m != i
      ensures Underscored(ps[m]) != Underscored(ps[i])
    {
      UnderscoredInjective(ps[m], ps[i]);
    }
  }

  /** addSystemProperty: the value, when the property is set, is stored under the key with dots replaced. */
  function PutProperty(j: Json, props: map<string, string>, key: string): Json {
    if key in props then Put(j, Underscored(key), JString(props[key])) else j
  }

  /** The report after adding the properties ks[0], ..., ks[|ks| - 1] in order. */
  function PutProperties(j: Json, props: map<string, string>, ks: seq<string>): Json
    decreases |ks|
  {
    if ks == [] then j else PutProperty(PutProperties(j, props, ks[..|ks| - 1]), props, ks[|ks| - 1])
  }

  /** Adding properties to an object leaves an object. */
  lemma {:induction false} PutPropertiesObject(j: Json, props: map<string, string>, ks: seq<string>)
    requires j.JObject?
    ensures PutProperties(j, props, ks).JObject?
    decreases |ks|
  {
    if ks != [] {
      PutPropertiesObject(j, props, ks[..|ks| - 1]);
    }
  }

  /** A key that no property of ks turns into keeps its value. */
  lemma {:induction false} PutPropertiesOther(j: Json, props: map<string, string>, ks: seq<string>, other: string)
    requires j.JObject?
    requires forall m :: 0 <= m < |ks| ==> Underscored(ks[m]) != other
    ensures Get(PutProperties(j, props, ks), other) == Get(j, other)
    decreases |ks|
  {
    if ks != [] {
      var n := |ks| - 1;
      PutPropertiesOther(j, props, ks[..n], other);
      PutPropertiesObject(j, props, ks[..n]);
      if ks[n] in props {
        PutGet(PutProperties(j, props, ks[..n]), Underscored(ks[n]), JString(props[ks[n]]), other);
      }
    }
  }

  /**
   * When no other key of ks turns into the same JSON key, property ks[i]
   * ends up stored under its underscored key when it is set, and that key
   * keeps its earlier value when it is not.
   */
  lemma {:induction false} PutPropertiesSet(j: Json, props: map<string, string>, ks: seq<string>, i: nat)
    requires j.JObject? && i < |ks|
    requires forall m :: 0 <= m < |ks| && m != i ==> Underscored(ks[m]) != Underscored(ks[i])
    ensures Get(PutProperties(j, props, ks), Underscored(ks[i])) ==
      if ks[i] in props then Some(JString(props[ks[i]])) else Get(j, Underscored(ks[i]))
    decreases |ks|
  {
    var n := |ks| - 1;
    var key := Underscored(ks[i]);
    PutPropertiesObject(j, props, ks[..n]);
    if i < n {
      PutPropertiesSet(j, props, ks[..n], i);
      if ks[n] in props {
        PutGet(PutProperties(j, props, ks[..n]), Underscored(ks[n]), JString(props[ks[n]]), key);
      }
    } else {
      forall m | 0 <= m < n ensures Underscored(ks[..n][m]) != key {
        assert ks[..n][m] == ks[m];
      }
      PutPropertiesOther(j, props, ks[..n], key);
      if ks[n] in props {
        PutGet(PutProperties(j, props, ks[..n]), key, JString(props[ks[n]]), key);
      }
    }
  }

  // -- Deciding whether to upload --

  /** uploadNeeded either answers or throws a JSONException, which nothing in the uploader catches. */
  datatype Checked = Answer(needed: bool) | JsonException

  /**
   * jsonArray(obj, key) as written: it asks whether obj has the key but
   * then returns the root's "sites" value, when that is an array.
   */
  function JsonArray(root: Json, obj: Json, key: string): (r: Option<seq<Json>>)
    ensures r.Some? <==> Has(obj, key) && Get(root, "sites").Some? && Get(root, "sites").value.JArray?
    ensures r.Some? ==> Get(root, "sites") == Some(JArray(r.value))
  {
    if !Has(obj, key) then None
    else match Get(root, "sites")
      case Some(JArray(items)) => Some(items)
      case _ => None
  }

  /**
   * jsonArray ignores what it was asked for: any two objects holding their
   * keys give the same answer, and an array stored under the key itself is
   * not returned unless it is the root's "sites" array.
   */
  lemma JsonArrayIgnoresObject(root: Json, o1: Json, k1: string, o2: Json, k2: string)
    requires Has(o1, k1) && Has(o2, k2)
    ensures JsonArray(root, o1, k1) == JsonArray(root, o2, k2)
    ensures forall items :: Get(o1, k1) == Some(JArray(items)) && Get(root, "sites") != Some(JArray(items)) ==>
      JsonArray(root, o1, k1) != Some(items)
  {
  }

  /** The loop of uploadNeeded from index i on: the first site with a non-empty "stats" array answers yes. */
  function ScanSites(root: Json, sites: seq<Json>, i: nat): Checked
    requires i <= |sites|
    decreases |sites| - i
  {
    if i == |sites| then Answer(false)
    else if !sites[i].JObject? then JsonException // getJSONObject(i) on a non-object
    else match JsonArray(root, sites[i], "stats")
      case Some(stats) => if |stats| > 0 then Answer(true) else ScanSites(root, sites, i + 1)
      case None => ScanSites(root, sites, i + 1)
  }

  /** uploadNeeded: no "sites" array means nothing to upload; otherwise scan the sites. */
  function UploadNeeded(root: Json): Checked {
    match JsonArray(root, root, "sites")
    case None => Answer(false)
    case Some(sites) => ScanSites(root, sites, 0)
  }

  /** Without a "sites" key, or with a "sites" value that is not an array, there is nothing to upload. */
  lemma NoSitesNothingNeeded(root: Json)
    requires Get(root, "sites").None? || !Get(root, "sites").value.JArray?
    ensures UploadNeeded(root) == Answer(false)
  {
  }

  /** A site the scan steps over: an object without a "stats" key. */
  predicate Skipped(site: Json) {
    site.JObject? && !Has(site, "stats")
  }

  /** The scan steps over every site from index i up to m. */
  predicate SkippedBetween(sites: seq<Json>, i: nat, m: nat)
    requires i <= m <= |sites|
  {
    forall p :: i <= p < m ==> Skipped(sites[p])
  }

  /**
   * As written, the scan from index i answers yes exactly when, after
   * stepping over objects without "stats", it meets an object with a
   * "stats" key, whatever that key holds; it throws exactly when it meets a
   * non-object first.
   */
  lemma {:induction false} ScanSitesAsWritten(root: Json, sites: seq<Json>, i: nat)
    requires i <= |sites| && Get(root, "sites") == Some(JArray(sites))
    ensures ScanSites(root, sites, i) == Answer(true) <==>
      exists m :: i <= m < |sites| && sites[m].JObject? && Has(sites[m], "stats") && SkippedBetween(sites, i, m)
    ensures ScanSites(root, sites, i) == JsonException <==>
      exists m :: i <= m < |sites| && !sites[m].JObject? && SkippedBetween(sites, i, m)
    decreases |sites| - i
  {
    if i < |sites| {
      assert SkippedBetween(sites, i, i);
      forall m | i < m <= |sites| ensures SkippedBetween(sites, i, m) <==> Skipped(sites[i]) && SkippedBetween(sites, i + 1, m) {
      }
      ScanSitesAsWritten(root, sites, i + 1);
    }
  }

  /** The check the scan evidently means: some site object holds a non-empty "stats" array. */
  predicate HasStats(site: Json) {
    site.JObject? && Get(site, "stats").Some? && Get(site, "stats").value.JArray? &&
    |Get(site, "stats").value.items| > 0
  }

  /** The intended decision: "sites" is an array one of whose sites holds stat entries. */
  predicate IntendedNeeded(root: Json) {
    match Get(root, "sites")
    case Some(JArray(sites)) => exists i :: 0 <= i < |sites| && HasStats(sites[i])
    case _ => false
  }

  /** A builder's site object holds its group's stat entries under "stats". */
  lemma SiteJsonStats(g: Report.Group)
    ensures Get(Report.SiteJson(g), "stats") == Some(JArray(g.stats))
  {
    assert Report.SiteJson(g).fields[2] == ("stats", JArray(g.stats));
  }

  /**
   * On a report the builder produced (no site without stats), the quirk is
   * harmless: uploadNeeded answers yes exactly when there is a site, which
   * is the intended decision.
   */
  lemma UploadNeededOnReport(gs: seq<Report.Group>)
    requires Report.NonEmptyGroups(gs)
    ensures UploadNeeded(Report.RootJson(gs)) == Answer(|gs| > 0)
    ensures IntendedNeeded(Report.RootJson(gs)) <==> |gs| > 0
  {
    var root := Report.RootJson(gs);
    var sites := Report.SiteJsons(gs);
    assert Lookup(root.fields, "sites") == Some(JArray(sites));
    if |gs| > 0 {
      SiteJsonStats(gs[0]);
      assert sites[0] == Report.SiteJson(gs[0]);
      assert HasStats(sites[0]);
    }
  }

  /** A report built from records needs uploading exactly when the builder accepted at least one record. */
  lemma UploadNeededOnBuild(host: Report.Host, rs: seq<Usage.Record>)
    ensures UploadNeeded(Report.RootJson(Report.Build(host, rs))) == Answer(|Report.Attributed(host, rs)| > 0)
  {
    var gs := Report.Build(host, rs);
    Report.BuildGroupsNonEmpty(host, rs);
    Report.BuildCountsAccepted(host, rs);
    Report.TotalStatsPositive(gs);
    UploadNeededOnReport(gs);
  }

  /**
   * Where the quirk shows: a site whose "stats" array is empty still makes
   * the scan answer yes, because the scan measures the root's "sites" array.
   */
  lemma QuirkOnEmptyStats()
    ensures var root := JObject([("sites", JArray([JObject([("stats", JArray([]))])]))]);
      UploadNeeded(root) == Answer(true) && !IntendedNeeded(root)
  {
    var site := JObject([("stats", JArray([]))]);
    var root := JObject([("sites", JArray([site]))]);
    assert Lookup(root.fields, "sites") == Some(JArray([site]));
    assert Lookup(site.fields, "stats") == Some(JArray([]));
    assert !HasStats(site);
  }

  // -- Reading the server's reply --

  /** The response text: each line read, followed by "\n". */
  function Response(lines: seq<string>): (r: string)
    decreases |lines|
  {
    if lines == [] then "" else Response(lines[..|lines| - 1]) + lines[|lines| - 1] + "\n"
  }

  /** The response-reading loop of upload, over the lines the connection delivers. */
  method ReadResponse(lines: seq<string>) returns (response: string)
    ensures response == Response(lines)
  {
    response := "";
    for i := 0 to |lines|
      invariant response == Response(lines[..i])
    {
      assert lines[..i + 1][..i] == lines[..i];
      response := response + lines[i] + "\n";
    }
    assert lines[..|lines|] == lines;
  }

  /** The length of the first line of s: the index of its first '\n', or |s| when there is none. */
  function LineEnd(s: string): (k: nat)
    ensures k <= |s|
    ensures forall i :: 0 <= i < k ==> s[i] != '\n'
    ensures k < |s| ==> s[k] == '\n'
    decreases |s|
  {
    if s == [] || s[0] == '\n' then 0 else 1 + LineEnd(s[1..])
  }

  /** readLine applied until the end: the lines of s, each without its terminating '\n'. */
  function ReadLines(s: string): seq<string>
    decreases |s|
  {
    if s == [] then []
    else
      var k := LineEnd(s);
      if k == |s| then [s] else [s[..k]] + ReadLines(s[k + 1..])
  }

  /** The response as a line followed by the response to the remaining lines. */
  lemma {:induction false} ResponseCons(lines: seq<string>)
    requires lines != []
    ensures Response(lines) == lines[0] + "\n" + Response(lines[1..])
    decreases |lines|
  {
    var n := |lines| - 1;
    if n > 0 {
      var init, tail := lines[..n], lines[1..];
      ResponseCons(init);
      assert init[1..] == tail[..n - 1];
      assert tail[n - 1] == lines[n];
      var mid := Response(init[1..]);
      assert Response(tail) == mid + lines[n] + "\n";
      assert Response(lines) == (lines[0] + "\n" + mid) + lines[n] + "\n";
    } else {
      assert lines[1..] == [];
    }
  }

  /**
   * Reading the response back line by line gives the lines the server sent:
   * the accumulation loses nothing, as long as no line holds a '\n'.
   */
  lemma {:induction false} ResponseRoundTrip(lines: seq<string>)
    requires forall i :: 0 <= i < |lines| ==> '\n' !in lines[i]
    ensures ReadLines(Response(lines)) == lines
    decreases |lines|
  {
    if lines != [] {
      ResponseCons(lines);
      var s := Response(lines);
      var rest := Response(lines[1..]);
      assert s == lines[0] + ("\n" + rest);
      assert LineEnd(s) == |lines[0]| by {
        assert forall p :: 0 <= p < |lines[0]| ==> s[p] == lines[0][p] && s[p] != '\n';
        assert s[|lines[0]|] == '\n';
      }
      assert s[..|lines[0]|] == lines[0];
      assert s[|lines[0]| + 1..] == rest;
      ResponseRoundTrip(lines[1..]);
    }
  }

  // -- The upload --

  /** What an upload ends with; the messages it logs are left out. */
  datatype Outcome =
    | NothingToUpload          // uploadNeeded said no: the report is left alone
    | Uploaded(message: string) // the reply is an object with a "message" string
    | InvalidResponse(raw: string)
    | CannotUpload             // the transfer threw an IOException, which is logged
    | Thrown                   // uploadNeeded threw a JSONException, which propagates

  /**
   * What upload reads from its surroundings: the system properties, the
   * transfer of the report to a URL (the reply's lines, or None for an
   * IOException) and the parse of the reply into its "message".
   */
  datatype Env = Env(
    props: map<string, string>,
    transfer: (string, Json) -> Option<seq<string>>,
    parseMessage: string -> Option<string>)

  /** The report sent once upload is needed: the user, then the 19 properties. */
  function Enriched(json: Json, user: string, props: map<string, string>): Json {
    PutProperties(Put(json, "user", JString(user)), props, SystemProperties)
  }

  /** The report and outcome after upload(user, url). */
  function UploadSpec(json: Json, user: string, url: string, env: Env): (Json, Outcome) {
    match UploadNeeded(json)
    case JsonException => (json, Thrown)
    case Answer(needed) =>
      if !needed then (json, NothingToUpload)
      else
        var sent := Enriched(json, user, env.props);
        match env.transfer(url, sent)
        case None => (sent, CannotUpload)
        case Some(lines) =>
          var raw := Response(lines);
          match env.parseMessage(raw)
          case Some(message) => (sent, Uploaded(message))
          case None => (sent, InvalidResponse(raw))
  }

  /**
   * The report sent carries the user and every set property under its
   * underscored key, and keeps its "sites"; a property that is not set
   * leaves its key as it was.
   */
  lemma EnrichedContents(json: Json, user: string, props: map<string, string>)
    requires json.JObject?
    ensures var sent := Enriched(json, user, props);
      && Get(sent, "user") == Some(JString(user))
      && Get(sent, "sites") == Get(json, "sites")
      && forall i :: 0 <= i < |SystemProperties| ==>
           Get(sent, Underscored(SystemProperties[i])) ==
             if SystemProperties[i] in props then Some(JString(props[SystemProperties[i]]))
             else Get(json, Underscored(SystemProperties[i]))
  {
    var withUser := Put(json, "user", JString(user));
    SystemPropertyKeysDistinct();
    PutGet(json, "user", JString(user), "sites");
    PutPropertiesOther(withUser, props, SystemProperties, "user");
    PutPropertiesOther(withUser, props, SystemProperties, "sites");
    forall i | 0 <= i < |SystemProperties|
      ensures Get(Enriched(json, user, props), Underscored(SystemProperties[i])) ==
        if SystemProperties[i] in props then Some(JString(props[SystemProperties[i]]))
        else Get(json, Underscored(SystemProperties[i]))
    {
      PutPropertiesSet(withUser, props, SystemProperties, i);
      PutGet(json, "user", JString(user), Underscored(SystemProperties[i]));
    }
  }

  /**
   * upload leaves the report alone exactly when there is nothing to upload
   * or the check throws; otherwise the report is enriched before it is
   * sent, and a failed transfer ends quietly with CannotUpload.
   */
  lemma UploadSpecCases(json: Json, user: string, url: string, env: Env)
    requires json.JObject?
    ensures var (after, outcome) := UploadSpec(json, user, url, env);
      && (UploadNeeded(json) == Answer(false) <==> outcome == NothingToUpload)
      && (UploadNeeded(json) == JsonException <==> outcome == Thrown)
      && (outcome == NothingToUpload || outcome == Thrown ==> after == json)
      && (UploadNeeded(json) == Answer(true) ==>
            after == Enriched(json, user, env.props) && Get(after, "user") == Some(JString(user)) &&
            (env.transfer(url, after).None? <==> outcome == CannotUpload))
  {
    if UploadNeeded(json) == Answer(true) {
      EnrichedContents(json, user, env.props);
    }
  }

  /** JSONUploader: the report to upload, which upload enriches in place. */
  class JsonUploader {
    var json: Json

    constructor (json: Json)
      ensures this.json == json
    {
      this.json := json;
    }

    /** addSystemProperty. */
    method AddSystemProperty(props: map<string, string>, key: string)
      modifies this
      ensures json == PutProperty(old(json), props, key)
    {
      if key in props {
        json := Put(json, Underscored(key), JString(props[key]));
      }
    }

    /** addSystemProperties: the 19 keys, in order. */
    method AddSystemProperties(props: map<string, string>)
      modifies this
      ensures json == PutProperties(old(json), props, SystemProperties)
    {
      ghost var start := json;
      for i := 0 to |SystemProperties|
        invariant json == PutProperties(start, props, SystemProperties[..i])
      {
        assert SystemProperties[..i + 1][..i] == SystemProperties[..i];
        AddSystemProperty(props, SystemProperties[i]);
      }
      assert SystemProperties[..|SystemProperties|] == SystemProperties;
    }

    /** upload(user, url): check, enrich, transfer, read and handle the reply. */
    method Upload(user: string, url: string, env: Env) returns (outcome: Outcome)
      modifies this
      ensures (json, outcome) == UploadSpec(old(json), user, url, env)
    {
      var needed := UploadNeeded(json);
      if needed.JsonException? {
        return Thrown;
      }
      if !needed.needed {
        return NothingToUpload; // no statistics
      }
      json := Put(json, "user", JString(user));
      AddSystemProperties(env.props);
      var lines := env.transfer(url, json);
      if lines.None? {
        return CannotUpload;
      }
      var raw := ReadResponse(lines.value);
      var message := env.parseMessage(raw);
      if message.Some? {
        outcome := Uploaded(message.value);
      } else {
        outcome := InvalidResponse(raw);
      }
    }
  }
}
